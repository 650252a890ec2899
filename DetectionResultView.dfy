/** The result panel (frontend/src/components/DetectionResult.tsx): the emoji lookup shown
    beside each detected class, and the choice of which panel to render from the hook's state. */
module DetectionResultView {
  import opened Common
  import opened Wire
  import Api
  import UseDetection

  // ---------------------------------------------------------------------------------------
  // OBJECT_EMOJIS, entry by entry in the object literal's order. The literal repeats three
  // keys ('keyboard', 'toothbrush', 'bowl'); each repeat carries the same emoji as the first
  // occurrence, so a first-match search over this list agrees with the JavaScript object,
  // whose iteration keeps a repeated key at the position of its first definition.
  // ---------------------------------------------------------------------------------------

  /** People & Body. */
  const PeopleEmojis: seq<(string, string)> := [
    ("person", "\U{1F464}"),
    ("man", "\U{1F468}"),
    ("woman", "\U{1F469}"),
    ("child", "\U{1F476}"),
    ("baby", "\U{1F476}"),
    ("boy", "\U{1F466}"),
    ("girl", "\U{1F467}"),
    ("hand", "\U{270B}"),
    ("foot", "\U{1F9B6}"),
    ("face", "\U{1F60A}")
  ]

  /** Animals. */
  const AnimalEmojis: seq<(string, string)> := [
    ("dog", "\U{1F415}"),
    ("cat", "\U{1F431}"),
    ("bird", "\U{1F426}"),
    ("horse", "\U{1F40E}"),
    ("cow", "\U{1F404}"),
    ("sheep", "\U{1F411}"),
    ("elephant", "\U{1F418}"),
    ("bear", "\U{1F43B}"),
    ("zebra", "\U{1F993}"),
    ("giraffe", "\U{1F992}"),
    ("fish", "\U{1F41F}"),
    ("turtle", "\U{1F422}"),
    ("frog", "\U{1F438}"),
    ("snake", "\U{1F40D}"),
    ("chicken", "\U{1F414}"),
    ("duck", "\U{1F986}"),
    ("owl", "\U{1F989}")
  ]

  /** Vehicles. */
  const VehicleEmojis: seq<(string, string)> := [
    ("car", "\U{1F697}"),
    ("truck", "\U{1F69A}"),
    ("bus", "\U{1F68C}"),
    ("motorcycle", "\U{1F3CD}\U{FE0F}"),
    ("bicycle", "\U{1F6B4}"),
    ("train", "\U{1F682}"),
    ("airplane", "\U{2708}\U{FE0F}"),
    ("boat", "\U{26F5}"),
    ("ship", "\U{1F6A2}")
  ]

  /** Food & Kitchen. */
  const FoodEmojis: seq<(string, string)> := [
    ("apple", "\U{1F34E}"),
    ("orange", "\U{1F34A}"),
    ("banana", "\U{1F34C}"),
    ("broccoli", "\U{1F966}"),
    ("carrot", "\U{1F955}"),
    ("pizza", "\U{1F355}"),
    ("cake", "\U{1F370}"),
    ("sandwich", "\U{1F96A}"),
    ("hot dog", "\U{1F32D}"),
    ("hamburger", "\U{1F354}"),
    ("fries", "\U{1F35F}"),
    ("donut", "\U{1F369}"),
    ("cookie", "\U{1F36A}"),
    ("bread", "\U{1F35E}"),
    ("cheese", "\U{1F9C0}"),
    ("wine", "\U{1F377}"),
    ("beer", "\U{1F37A}")
  ]

  /** Furniture & Household. */
  const HouseholdEmojis: seq<(string, string)> := [
    ("chair", "\U{1FA91}"),
    ("table", "\U{1FA91}"),
    ("bed", "\U{1F6CF}\U{FE0F}"),
    ("sofa", "\U{1F6CB}\U{FE0F}"),
    ("tv", "\U{1F4FA}"),
    ("laptop", "\U{1F4BB}"),
    ("mouse", "\U{1F5B1}\U{FE0F}"),
    ("keyboard", "\U{2328}\U{FE0F}"),
    ("phone", "\U{1F4F1}"),
    ("book", "\U{1F4D6}"),
    ("clock", "\U{1F550}"),
    ("vase", "\U{1F3FA}"),
    ("scissors", "\U{2702}\U{FE0F}"),
    ("toothbrush", "\U{1FAA5}"),
    ("spoon", "\U{1F944}"),
    ("fork", "\U{1F374}"),
    ("knife", "\U{1F52A}"),
    ("bowl", "\U{1F35C}"),
    ("cup", "\U{2615}")
  ]

  /** Sports & Recreation. */
  const SportsEmojis: seq<(string, string)> := [
    ("ball", "\U{26BD}"),
    ("baseball", "\U{26BE}"),
    ("basketball", "\U{1F3C0}"),
    ("football", "\U{1F3C8}"),
    ("tennis", "\U{1F3BE}"),
    ("frisbee", "\U{1F94F}"),
    ("skateboard", "\U{1F6FC}"),
    ("surfboard", "\U{1F3C4}"),
    ("ski", "\U{1F3BF}"),
    ("snowboard", "\U{1F3C2}"),
    ("baseball bat", "\U{1F3CF}"),
    ("baseball glove", "\U{1F9E4}")
  ]

  /** Nature & Outdoors. */
  const NatureEmojis: seq<(string, string)> := [
    ("tree", "\U{1F333}"),
    ("flower", "\U{1F338}"),
    ("grass", "\U{1F331}"),
    ("mountain", "\U{26F0}\U{FE0F}"),
    ("ocean", "\U{1F30A}"),
    ("river", "\U{1F30A}"),
    ("beach", "\U{1F3D6}\U{FE0F}"),
    ("cloud", "\U{2601}\U{FE0F}"),
    ("sun", "\U{2600}\U{FE0F}"),
    ("moon", "\U{1F319}"),
    ("star", "\U{2B50}")
  ]

  /** Buildings & Architecture. */
  const BuildingEmojis: seq<(string, string)> := [
    ("house", "\U{1F3E0}"),
    ("building", "\U{1F3E2}"),
    ("bridge", "\U{1F309}"),
    ("tower", "\U{1F5FC}"),
    ("statue", "\U{1F5FD}"),
    ("fountain", "\U{26F2}"),
    ("church", "\U{26EA}"),
    ("mosque", "\U{1F54C}"),
    ("synagogue", "\U{1F54D}"),
    ("temple", "\U{1F6D5}")
  ]

  /** Transportation Infrastructure. */
  const InfrastructureEmojis: seq<(string, string)> := [
    ("traffic light", "\U{1F6A6}"),
    ("stop sign", "\U{1F6D1}"),
    ("parking meter", "\U{1F17F}\U{FE0F}"),
    ("bench", "\U{1FA91}"),
    ("umbrella", "\U{2602}\U{FE0F}"),
    ("suitcase", "\U{1F9F3}")
  ]

  /** Generic Objects. */
  const GenericEmojis: seq<(string, string)> := [
    ("bottle", "\U{1F37E}"),
    ("glass", "\U{1F943}"),
    ("plate", "\U{1F37D}\U{FE0F}"),
    ("bowl", "\U{1F35C}"),
    ("remote", "\U{1F4FA}"),
    ("keyboard", "\U{2328}\U{FE0F}"),
    ("cell phone", "\U{1F4F1}"),
    ("microwave", "\U{1F373}"),
    ("oven", "\U{1F373}"),
    ("toaster", "\U{1F35E}"),
    ("sink", "\U{1F6B0}"),
    ("refrigerator", "\U{1F9CA}"),
    ("potted plant", "\U{1FAB4}"),
    ("teddy bear", "\U{1F9F8}"),
    ("hair drier", "\U{1F487}"),
    ("toothbrush", "\U{1FAA5}")
  ]

  /** The whole table in insertion order. */
  const ObjectEmojis: seq<(string, string)> :=
    PeopleEmojis + AnimalEmojis + VehicleEmojis + FoodEmojis + HouseholdEmojis + SportsEmojis
    + NatureEmojis + BuildingEmojis + InfrastructureEmojis + GenericEmojis

  /** The fallback for a class nothing matches (a package). */
  const DefaultEmoji: string := "\U{1F4E6}"

  /** `toLowerCase()` on ASCII letters; every other character is kept. */
  function ToLowerChar(c: char): char
  {
    if 'A' <= c <= 'Z' then (c as int + 32) as char else c
  }

  function ToLower(s: string): (r: string)
    ensures |r| == |s|
    ensures forall i :: 0 <= i < |s| ==> r[i] == ToLowerChar(s[i])
  {
    if s == [] then [] else [ToLowerChar(s[0])] + ToLower(s[1..])
  }

  /** The first index at or after `from` whose key is `key`. */
  function KeyIndexFrom(t: seq<(string, string)>, key: string, from: nat): (r: Option<nat>)
    requires from <= |t|
    ensures r.Some? ==> from <= r.value < |t| && t[r.value].0 == key
    ensures r.Some? ==> forall j :: from <= j < r.value ==> t[j].0 != key
    ensures r.None? <==> forall j :: from <= j < |t| ==> t[j].0 != key
    decreases |t| - from
  {
    if from == |t| then None
    else if t[from].0 == key then Some(from)
    else KeyIndexFrom(t, key, from + 1)
  }

  /** The loop's test: either string contains the other. */
  predicate PartialMatch(lowerClass: string, key: string)
  {
    Includes(lowerClass, key) || Includes(key, lowerClass)
  }

  /** The first index at or after `from` whose key partially matches `lowerClass`. */
  function PartialIndexFrom(t: seq<(string, string)>, lowerClass: string, from: nat): (r: Option<nat>)
    requires from <= |t|
    ensures r.Some? ==> from <= r.value < |t| && PartialMatch(lowerClass, t[r.value].0)
    ensures r.Some? ==> forall j :: from <= j < r.value ==> !PartialMatch(lowerClass, t[j].0)
    ensures r.None? <==> forall j :: from <= j < |t| ==> !PartialMatch(lowerClass, t[j].0)
    decreases |t| - from
  {
    if from == |t| then None
    else if PartialMatch(lowerClass, t[from].0) then Some(from)
    else PartialIndexFrom(t, lowerClass, from + 1)
  }

  /** The lookup over a table `t` for an already lowercased class: the value of the first
      entry whose key is the class; failing that, the value of the first entry whose key
      contains the class or is contained in it; failing that, the package emoji. */
  function EmojiFor(t: seq<(string, string)>, lower: string): (r: string)
    ensures forall i :: 0 <= i < |t| && t[i].0 == lower && (forall j :: 0 <= j < i ==> t[j].0 != lower) ==>
      r == t[i].1
    ensures (forall j :: 0 <= j < |t| ==> t[j].0 != lower) ==>
      forall i :: (0 <= i < |t| && PartialMatch(lower, t[i].0) &&
                   (forall j :: 0 <= j < i ==> !PartialMatch(lower, t[j].0))) ==> r == t[i].1
    ensures (forall j :: 0 <= j < |t| ==> t[j].0 != lower && !PartialMatch(lower, t[j].0)) ==>
      r == DefaultEmoji
    ensures r == DefaultEmoji || exists i :: 0 <= i < |t| && r == t[i].1
  {
    match KeyIndexFrom(t, lower, 0)
    case Some(k) =>
      assert forall i :: 0 <= i < |t| && t[i].0 == lower && (forall j :: 0 <= j < i ==> t[j].0 != lower) ==>
        i == k;
      t[k].1
    case None =>
      match PartialIndexFrom(t, lower, 0)
      case Some(k) =>
        assert forall i :: (0 <= i < |t| && PartialMatch(lower, t[i].0) &&
                            (forall j :: 0 <= j < i ==> !PartialMatch(lower, t[j].0))) ==> i == k;
        t[k].1
      case None => DefaultEmoji
  }

  /** `getObjectEmoji(objectClass)`. Every table value is a non-empty string, so the
      source's truthiness test on the exact lookup is a membership test. */
  function GetObjectEmoji(objectClass: string): (r: string)
    ensures forall i :: (0 <= i < |ObjectEmojis| && ObjectEmojis[i].0 == ToLower(objectClass) &&
                         (forall j :: 0 <= j < i ==> ObjectEmojis[j].0 != ToLower(objectClass))) ==>
      r == ObjectEmojis[i].1
    ensures (forall j :: 0 <= j < |ObjectEmojis| ==> ObjectEmojis[j].0 != ToLower(objectClass)) ==>
      forall i :: (0 <= i < |ObjectEmojis| && PartialMatch(ToLower(objectClass), ObjectEmojis[i].0) &&
                   (forall j :: 0 <= j < i ==> !PartialMatch(ToLower(objectClass), ObjectEmojis[j].0))) ==>
        r == ObjectEmojis[i].1
    ensures (forall j :: 0 <= j < |ObjectEmojis| ==>
               ObjectEmojis[j].0 != ToLower(objectClass) && !PartialMatch(ToLower(objectClass), ObjectEmojis[j].0)) ==>
      r == DefaultEmoji
    ensures r == DefaultEmoji || exists i :: 0 <= i < |ObjectEmojis| && r == ObjectEmojis[i].1
  {
    EmojiFor(ObjectEmojis, ToLower(objectClass))
  }

  /** The three repeated keys carry the same emoji at both of their positions. */
  lemma RepeatedKeysAgree()
    ensures HouseholdEmojis[7].0 == GenericEmojis[5].0 == "keyboard" && HouseholdEmojis[7].1 == GenericEmojis[5].1
    ensures HouseholdEmojis[13].0 == GenericEmojis[15].0 == "toothbrush" && HouseholdEmojis[13].1 == GenericEmojis[15].1
    ensures HouseholdEmojis[17].0 == GenericEmojis[3].0 == "bowl" && HouseholdEmojis[17].1 == GenericEmojis[3].1
  {
  }

  /** Whatever the case of the letters, "person" maps to the person silhouette. */
  lemma PersonAnyCase(objectClass: string)
    requires ToLower(objectClass) == "person"
    ensures GetObjectEmoji(objectClass) == "\U{1F464}"
  {
    assert ObjectEmojis[0] == ("person", "\U{1F464}");
  }

  /** A class that is not a key but whose lowercase form is contained in "person" (the empty
      class among them) or contains "person" gets the first entry's emoji, 'person' being the
      first key the loop tries. */
  lemma PersonWinsPartialMatch(objectClass: string)
    requires forall j :: 0 <= j < |ObjectEmojis| ==> ObjectEmojis[j].0 != ToLower(objectClass)
    requires Includes("person", ToLower(objectClass)) || Includes(ToLower(objectClass), "person")
    ensures GetObjectEmoji(objectClass) == "\U{1F464}"
  {
    assert ObjectEmojis[0] == ("person", "\U{1F464}");
    assert PartialMatch(ToLower(objectClass), ObjectEmojis[0].0);
  }

  /** `"".includes(key)` fails for every non-empty key but `key.includes("")` holds, so the
      empty class satisfies the partial test on the very first entry. */
  lemma EmptyClassMatchesFirstEntry()
    ensures PartialMatch(ToLower(""), ObjectEmojis[0].0)
    ensures ObjectEmojis[0].1 == "\U{1F464}"
  {
    assert OccursAt("person", "", 0);
  }

  // ---------------------------------------------------------------------------------------
  // Which panel renders.
  // ---------------------------------------------------------------------------------------

  /** The component's props, as `App` passes them from the detection hook. */
  datatype Props = Props(
    detections: seq<Detection>,
    processingTime: Option<real>,
    error: Option<string>,
    isProcessing: bool,
    resultImageUrl: Option<string>,
    resultVideoUrl: Option<string>)

  /** One row of the detection list: emoji, class and confidence. */
  datatype Row = Row(emoji: string, cls: string, confidence: real)

  /** The body of the results panel: the list under its count label, or the notice that a
      video was processed. */
  datatype Body = DetectionList(heading: string, rows: seq<Row>) | VideoNotice

  /** The processed media block; each present source is the API origin followed by the URL. */
  datatype Media = Media(imageSrc: Option<string>, videoSrc: Option<string>)

  /** The footer: processing time and number of objects. */
  datatype Summary = Summary(time: real, objects: nat)

  datatype View =
    | Spinner
    | ErrorPanel(message: string)
    | Placeholder
    | Results(time: Option<real>, body: Body, media: Option<Media>, summary: Option<Summary>)

  /** The origin prefixed to the media URLs. */
  const ApiOrigin: string := "http://localhost:8000"

  /** "Found n object" with an "s" unless n is 1. */
  function CountLabel(n: nat): (r: string)
    ensures StartsWith(r, "Found " + NatToString(n) + " object")
    ensures |r| == |"Found " + NatToString(n) + " object"| + (if n == 1 then 0 else 1)
    ensures n != 1 ==> r[|r| - 1] == 's'
  {
    "Found " + NatToString(n) + " object" + (if n != 1 then "s" else "")
  }

  function RowFor(d: Detection): Row
  {
    Row(GetObjectEmoji(d.cls), d.cls, d.confidence)
  }

  function Rows(ds: seq<Detection>): (r: seq<Row>)
    ensures |r| == |ds|
    ensures forall i :: 0 <= i < |ds| ==> r[i] == RowFor(ds[i])
  {
    if ds == [] then [] else [RowFor(ds[0])] + Rows(ds[1..])
  }

  function MediaSrc(url: Option<string>): (r: Option<string>)
    ensures r.Some? <==> Truthy(url)
    ensures r.Some? ==> r.value == ApiOrigin + url.value
  {
    if Truthy(url) then Some(ApiOrigin + url.value) else None
  }

  /** `DetectionResult(props)`: the spinner while processing, then the error panel for a
      non-empty error, then the placeholder when there are no detections and no time, and the
      results panel otherwise. */
  function Render(p: Props): (v: View)
    ensures p.isProcessing <==> v.Spinner?
    ensures v.ErrorPanel? <==> !p.isProcessing && Truthy(p.error)
    ensures v.ErrorPanel? ==> v.message == p.error.value
    ensures v.Placeholder? <==> !p.isProcessing && !Truthy(p.error) && p.detections == [] && p.processingTime.None?
    ensures v.Results? ==>
      && v.time == p.processingTime
      && (v.body.DetectionList? <==> p.detections != [])
      && (v.body.DetectionList? ==> v.body.heading == CountLabel(|p.detections|) && |v.body.rows| == |p.detections|)
      && (v.body.DetectionList? ==> forall i :: 0 <= i < |p.detections| ==>
            v.body.rows[i] == Row(GetObjectEmoji(p.detections[i].cls), p.detections[i].cls, p.detections[i].confidence))
      && (v.media.Some? <==> Truthy(p.resultImageUrl) || Truthy(p.resultVideoUrl))
      && (v.media.Some? ==> v.media.value == Media(MediaSrc(p.resultImageUrl), MediaSrc(p.resultVideoUrl)))
      && (v.summary.Some? <==> p.processingTime.Some? && p.detections != [])
      && (v.summary.Some? ==> v.summary.value == Summary(p.processingTime.value, |p.detections|))
  {
    if p.isProcessing then Spinner
    else if Truthy(p.error) then ErrorPanel(p.error.value)
    else if |p.detections| == 0 && p.processingTime.None? then Placeholder
    else
      var n := |p.detections|;
      Results(
        p.processingTime,
        if n > 0 then DetectionList(CountLabel(n), Rows(p.detections)) else VideoNotice,
        if Truthy(p.resultImageUrl) || Truthy(p.resultVideoUrl)
        then Some(Media(MediaSrc(p.resultImageUrl), MediaSrc(p.resultVideoUrl))) else None,
        if p.processingTime.Some? && n > 0 then Some(Summary(p.processingTime.value, n)) else None)
  }

  /** The props `App` builds from the hook's state (`isVideoReady` is not read by the view). */
  function PropsOf(s: UseDetection.HookState): (p: Props)
    ensures p.detections == s.detections && p.processingTime == s.processingTime && p.error == s.error
    ensures p.isProcessing == s.isProcessing
    ensures p.resultImageUrl == s.resultImageUrl && p.resultVideoUrl == s.resultVideoUrl
  {
    Props(s.detections, s.processingTime, s.error, s.isProcessing, s.resultImageUrl, s.resultVideoUrl)
  }

  /** The label says "object" exactly for one detection. */
  lemma PluralUnlessOne(n: nat)
    ensures CountLabel(n) == "Found " + NatToString(n) + " object" <==> n == 1
  {
    var stem := "Found " + NatToString(n) + " object";
    if n != 1 {
      assert |CountLabel(n)| == |stem| + 1;
    }
  }

  /** Because a failed request clears the error it has just set, the error panel never shows
      after an image or video request has finished, whatever the reply. */
  lemma FinishedRequestNeverShowsError(s: UseDetection.HookState, reply: Api.Reply<DetectionResult>,
                                       statusOf: nat -> UseDetection.PollOutcome)
    ensures !Render(PropsOf(UseDetection.AfterImage(s, reply))).ErrorPanel?
    ensures !Render(PropsOf(UseDetection.AfterImage(s, reply))).Spinner?
    ensures !Render(PropsOf(UseDetection.AfterVideo(s, reply, statusOf))).ErrorPanel?
    ensures !Render(PropsOf(UseDetection.AfterVideo(s, reply, statusOf))).Spinner?
  {
  }

  /** A caught failure renders the placeholder, exactly as if nothing had been requested. */
  lemma FailureShowsPlaceholder(s: UseDetection.HookState, message: string)
    ensures Render(PropsOf(UseDetection.Caught(s, message))) == Placeholder
    ensures Render(PropsOf(UseDetection.Initial)) == Placeholder
  {
  }
}
