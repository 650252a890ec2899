/** The backend detection service (backend/app/services/detection_service.py): normalising YOLO
    output into detections sorted by confidence, building the inference parameters, sampling
    video frames, and assembling the image and video result records. Inference, image decoding,
    video capture/writing and drawing are foreign; they enter as oracle inputs. */
module DetectionService {
  import opened Common
  import opened Wire
  import Settings
  import YoloManager
  import FileValidator

  // ---------------------------------------------------------------------------------------
  // Raw YOLO output and its flattening

  /** One box of a YOLO result: `xyxy[0]`, `conf[0]` and `cls[0]` already converted. */
  datatype Box = Box(xyxy: BBox, conf: real, cls: int)

  /** One YOLO result: its `boxes` (possibly `None`) and its `names` table, present or not
      (`hasattr(result, 'names')`). */
  datatype YoloResult = YoloResult(boxes: Option<seq<Box>>, names: Option<map<int, string>>)

  function IntToString(n: int): string
  {
    if n < 0 then "-" + NatToString(-n) else NatToString(n)
  }

  /** The class name of a box: `names[class_id]` when the result has names (`Err(id)` stands
      for the `KeyError` a missing id raises), else `"class_" + id`. */
  function ClassName(names: Option<map<int, string>>, classId: int): (r: Result<string, int>)
    ensures names.Some? && classId in names.value ==> r == Ok(names.value[classId])
    ensures names.Some? && classId !in names.value ==> r == Err(classId)
    ensures names.None? ==> r == Ok("class_" + IntToString(classId))
  {
    if names.None? then Ok("class_" + IntToString(classId))
    else if classId in names.value then Ok(names.value[classId])
    else Err(classId)
  }

  /** The detection entries produced by a list of boxes, in order. */
  function BoxEntries(boxes: seq<Box>, names: Option<map<int, string>>): (r: Result<seq<Detection>, int>)
    ensures r.Ok? <==> forall k :: 0 <= k < |boxes| ==> ClassName(names, boxes[k].cls).Ok?
    ensures r.Ok? ==> |r.value| == |boxes|
    ensures r.Ok? ==> forall k :: 0 <= k < |boxes| ==>
      r.value[k] == Detection(ClassName(names, boxes[k].cls).value, boxes[k].conf, boxes[k].xyxy)
    ensures r.Err? ==> exists k :: (0 <= k < |boxes| && ClassName(names, boxes[k].cls) == Err(r.error) &&
                                    forall j :: 0 <= j < k ==> ClassName(names, boxes[j].cls).Ok?)
  {
    if boxes == [] then Ok([])
    else
      var last := boxes[|boxes| - 1];
      match BoxEntries(boxes[..|boxes| - 1], names)
      case Err(k) => Err(k)
      case Ok(prefix) =>
        match ClassName(names, last.cls)
        case Err(k) => Err(k)
        case Ok(c) => Ok(prefix + [Detection(c, last.conf, last.xyxy)])
  }

  function ResultEntries(r: YoloResult): (e: Result<seq<Detection>, int>)
    ensures e.Ok? ==> |e.value| == if r.boxes.None? then 0 else |r.boxes.value|
  {
    if r.boxes.None? then Ok([]) else BoxEntries(r.boxes.value, r.names)
  }

  /** Number of boxes over all results; a result whose `boxes` is `None` contributes none. */
  function BoxCount(results: seq<YoloResult>): nat
  {
    if results == [] then 0
    else
      var last := results[|results| - 1];
      BoxCount(results[..|results| - 1]) + (if last.boxes.None? then 0 else |last.boxes.value|)
  }

  /** The entries collected by the nested loop, before sorting. */
  function Collected(results: seq<YoloResult>): (r: Result<seq<Detection>, int>)
    ensures r.Ok? <==> forall i :: 0 <= i < |results| ==> ResultEntries(results[i]).Ok?
    ensures r.Ok? ==> |r.value| == BoxCount(results)
    ensures r.Err? ==> exists i :: (0 <= i < |results| && ResultEntries(results[i]) == Err(r.error) &&
                                    forall j :: 0 <= j < i ==> ResultEntries(results[j]).Ok?)
  {
    if results == [] then Ok([])
    else
      var n := |results|;
      var init := results[..n - 1];
      assert forall i :: 0 <= i < n - 1 ==> init[i] == results[i];
      match Collected(init)
      case Err(k) => Err(k)
      case Ok(prefix) =>
        match ResultEntries(results[n - 1])
        case Err(k) => Err(k)
        case Ok(more) => Ok(prefix + more)
  }

  /** The entries of result `i` sit, in order, right after those of the results before it. */
  lemma {:induction false} CollectedLayout(results: seq<YoloResult>, i: nat)
    requires Collected(results).Ok? && i < |results|
    ensures ResultEntries(results[i]).Ok?
    ensures BoxCount(results[..i]) + |ResultEntries(results[i]).value| <= |Collected(results).value|
    ensures Collected(results).value[BoxCount(results[..i])..BoxCount(results[..i]) + |ResultEntries(results[i]).value|]
            == ResultEntries(results[i]).value
    decreases |results|
  {
    var n := |results|;
    var init := results[..n - 1];
    var before := Collected(init).value;
    var more := ResultEntries(results[n - 1]).value;
    assert Collected(results).value == before + more;
    assert |more| == BoxCount(results) - BoxCount(init);
    if i == n - 1 {
      assert (before + more)[|before|..|before| + |more|] == more;
    } else {
      CollectedLayout(init, i);
      assert init[..i] == results[..i] && init[i] == results[i];
      var lo := BoxCount(results[..i]);
      var hi := lo + |ResultEntries(results[i]).value|;
      assert (before + more)[lo..hi] == before[lo..hi];
    }
  }

  // ---------------------------------------------------------------------------------------
  // Stable sort by confidence, highest first (`list.sort(key=..., reverse=True)`)

  ghost predicate SortedDesc(s: seq<Detection>)
  {
    forall i, j :: 0 <= i < j < |s| ==> s[i].confidence >= s[j].confidence
  }

  /** The entries whose confidence is exactly `c`, in order. */
  function WithConfidence(s: seq<Detection>, c: real): seq<Detection>
  {
    if s == [] then []
    else WithConfidence(s[..|s| - 1], c) + (if s[|s| - 1].confidence == c then [s[|s| - 1]] else [])
  }

  /** Inserts `x` into a sorted prefix after every entry at least as confident as `x`:
      `x` came later, so it goes after its ties. */
  function Insert(s: seq<Detection>, x: Detection): (r: seq<Detection>)
    ensures |r| == |s| + 1
  {
    if s == [] || s[|s| - 1].confidence >= x.confidence then s + [x]
    else Insert(s[..|s| - 1], x) + [s[|s| - 1]]
  }

  /** A stable sort by non-increasing confidence (insertion sort, one element at a time). */
  function SortByConfidence(s: seq<Detection>): (r: seq<Detection>)
    ensures |r| == |s|
  {
    if s == [] then [] else Insert(SortByConfidence(s[..|s| - 1]), s[|s| - 1])
  }

  /** Inserting keeps every element above a lower bound that all inputs respect. */
  lemma {:induction false} InsertBound(s: seq<Detection>, x: Detection, b: real)
    requires forall k :: 0 <= k < |s| ==> s[k].confidence >= b
    requires x.confidence >= b
    ensures forall k :: 0 <= k < |Insert(s, x)| ==> Insert(s, x)[k].confidence >= b
    decreases |s|
  {
    if s != [] && s[|s| - 1].confidence < x.confidence {
      InsertBound(s[..|s| - 1], x, b);
    }
  }

  lemma {:induction false} InsertSorted(s: seq<Detection>, x: Detection)
    requires SortedDesc(s)
    ensures SortedDesc(Insert(s, x))
    decreases |s|
  {
    if s != [] && s[|s| - 1].confidence < x.confidence {
      var s' := s[..|s| - 1];
      var last := s[|s| - 1];
      InsertSorted(s', x);
      InsertBound(s', x, last.confidence);
      var r := Insert(s', x) + [last];
      assert Insert(s, x) == r;
      forall i, j | 0 <= i < j < |r| ensures r[i].confidence >= r[j].confidence {
        if j < |r| - 1 {
          assert r[i] == Insert(s', x)[i] && r[j] == Insert(s', x)[j];
        }
      }
    }
  }

  lemma {:induction false} InsertPermutes(s: seq<Detection>, x: Detection)
    ensures multiset(Insert(s, x)) == multiset(s) + multiset{x}
    decreases |s|
  {
    if s != [] && s[|s| - 1].confidence < x.confidence {
      var s' := s[..|s| - 1];
      InsertPermutes(s', x);
      assert s == s' + [s[|s| - 1]];
    }
  }

  /** Appending one entry keeps it exactly when it has confidence `c`. */
  lemma WithConfidenceSnoc(s: seq<Detection>, y: Detection, c: real)
    ensures WithConfidence(s + [y], c) == WithConfidence(s, c) + (if y.confidence == c then [y] else [])
  {
    assert (s + [y])[..|s|] == s;
  }

  lemma {:induction false} InsertStable(s: seq<Detection>, x: Detection, c: real)
    ensures WithConfidence(Insert(s, x), c) ==
      WithConfidence(s, c) + (if x.confidence == c then [x] else [])
    decreases |s|
  {
    if s == [] || s[|s| - 1].confidence >= x.confidence {
      WithConfidenceSnoc(s, x, c);
    } else {
      var s' := s[..|s| - 1];
      var last := s[|s| - 1];
      var kept := if x.confidence == c then [x] else [];
      var tail := if last.confidence == c then [last] else [];
      var before := WithConfidence(s', c);
      assert Insert(s, x) == Insert(s', x) + [last];
      InsertStable(s', x, c);
      WithConfidenceSnoc(Insert(s', x), last, c);
      assert WithConfidence(Insert(s, x), c) == before + kept + tail;
      assert s == s' + [last];
      WithConfidenceSnoc(s', last, c);
      // last.confidence < x.confidence, so `last` and `x` are never both kept
      assert kept == [] || tail == [];
      assert before + kept + tail == before + tail + kept;
    }
  }

  /** The output is ordered by non-increasing confidence and is a permutation of the input. */
  lemma {:induction false} SortByConfidenceCorrect(s: seq<Detection>)
    ensures SortedDesc(SortByConfidence(s))
    ensures multiset(SortByConfidence(s)) == multiset(s)
    decreases |s|
  {
    if s != [] {
      var s' := s[..|s| - 1];
      SortByConfidenceCorrect(s');
      InsertSorted(SortByConfidence(s'), s[|s| - 1]);
      InsertPermutes(SortByConfidence(s'), s[|s| - 1]);
      assert s == s' + [s[|s| - 1]];
    }
  }

  /** Ties keep their original order: for every confidence value, the entries with that value
      appear in the output exactly as they appear in the input. */
  lemma {:induction false} SortByConfidenceStable(s: seq<Detection>, c: real)
    ensures WithConfidence(SortByConfidence(s), c) == WithConfidence(s, c)
    decreases |s|
  {
    if s != [] {
      var s' := s[..|s| - 1];
      SortByConfidenceStable(s', c);
      SortByConfidenceCorrect(s');
      InsertStable(SortByConfidence(s'), s[|s| - 1], c);
    }
  }

  /** Where the shifting loop stops, inserting `x` is splitting the sorted prefix at `j`. */
  lemma {:induction false} InsertAt(s: seq<Detection>, x: Detection, j: nat)
    requires j <= |s|
    requires j == 0 || s[j - 1].confidence >= x.confidence
    requires forall k :: j <= k < |s| ==> s[k].confidence < x.confidence
    ensures Insert(s, x) == s[..j] + [x] + s[j..]
    decreases |s|
  {
    if j == |s| {
      assert s[..j] == s && s[j..] == [];
    } else {
      var s' := s[..|s| - 1];
      InsertAt(s', x, j);
      assert s'[..j] == s[..j];
      assert s'[j..] + [s[|s| - 1]] == s[j..];
    }
  }

  /** One step of the in-place insertion sort: `a[i]` moves left past every strictly less
      confident entry of the sorted prefix `a[..i]`. */
  method InsertInPlace(a: array<Detection>, i: nat)
    requires i < a.Length
    modifies a
    ensures a[..i + 1] == Insert(old(a[..i]), old(a[i]))
    ensures forall k :: i < k < a.Length ==> a[k] == old(a[k])
  {
    ghost var sorted := a[..i];
    var x := a[i];
    var j := i;
    while j > 0 && a[j - 1].confidence < x.confidence
      invariant 0 <= j <= i
      invariant forall k :: 0 <= k < j ==> a[k] == sorted[k]
      invariant forall k :: j < k <= i ==> a[k] == sorted[k - 1]
      invariant forall k :: i < k < a.Length ==> a[k] == old(a[k])
      invariant forall k :: j <= k < i ==> sorted[k].confidence < x.confidence
    {
      a[j] := a[j - 1];
      j := j - 1;
    }
    a[j] := x;
    InsertAt(sorted, x, j);
    assert a[..i + 1] == sorted[..j] + [x] + sorted[j..];
  }

  /** Sorting one more element of the input is inserting it into the sorted prefix. */
  lemma SortPrefixStep(input: seq<Detection>, i: nat)
    requires i < |input|
    ensures SortByConfidence(input[..i + 1]) == Insert(SortByConfidence(input[..i]), input[i])
  {
    assert input[..i + 1][..i] == input[..i];
  }

  /** `detections.sort(key=lambda x: x["confidence"], reverse=True)`, in place. */
  method SortInPlace(a: array<Detection>)
    modifies a
    ensures a[..] == SortByConfidence(old(a[..]))
  {
    ghost var input := a[..];
    var i := 0;
    while i < a.Length
      invariant 0 <= i <= a.Length
      invariant a[..i] == SortByConfidence(input[..i])
      invariant forall k :: i <= k < a.Length ==> a[k] == input[k]
    {
      SortPrefixStep(input, i);
      InsertInPlace(a, i);
      i := i + 1;
    }
    assert input[..a.Length] == input;
  }

  /** The collecting loops of `_process_detection_results`: one entry per box across all
      results, in order. `Err(id)` is the `KeyError` of a class id missing from a result's
      `names`. */
  method CollectDetections(results: seq<YoloResult>) returns (r: Result<seq<Detection>, int>)
    ensures r == Collected(results)
  {
    var detections: seq<Detection> := [];
    var i := 0;
    while i < |results|
      invariant 0 <= i <= |results|
      invariant Collected(results[..i]) == Ok(detections)
    {
      var result := results[i];
      assert results[..i + 1][..i] == results[..i];
      assert results[..i + 1][i] == result;
      assert Collected(results[..i + 1]) ==
        match ResultEntries(result)
        case Err(k) => Err(k)
        case Ok(more) => Ok(detections + more);
      if result.boxes.Some? {
        var boxes := result.boxes.value;
        var j := 0;
        ghost var before := detections;
        while j < |boxes|
          invariant 0 <= j <= |boxes|
          invariant BoxEntries(boxes[..j], result.names).Ok?
          invariant detections == before + BoxEntries(boxes[..j], result.names).value
        {
          var box := boxes[j];
          assert boxes[..j + 1][..j] == boxes[..j];
          var className := ClassName(result.names, box.cls);
          if className.Err? {
            assert BoxEntries(boxes[..j + 1], result.names) == Err(className.error);
            ErrSticks(boxes, result.names, j + 1);
            CollectedErrSticks(results, i + 1);
            return Err(className.error);
          }
          detections := detections + [Detection(className.value, box.conf, box.xyxy)];
          j := j + 1;
        }
        assert boxes[..j] == boxes;
      } else {
        assert detections + [] == detections;
      }
      i := i + 1;
    }
    assert results[..i] == results;
    r := Ok(detections);
  }

  /** `_process_detection_results(results)`: the collected entries, stably sorted by
      descending confidence. */
  method ProcessDetectionResults(results: seq<YoloResult>) returns (r: Result<seq<Detection>, int>)
    ensures r.Err? <==> Collected(results).Err?
    ensures r.Err? ==> r.error == Collected(results).error
    ensures r.Ok? ==> r.value == SortByConfidence(Collected(results).value)
    ensures r.Ok? ==> |r.value| == BoxCount(results)
    ensures r.Ok? ==> SortedDesc(r.value) && multiset(r.value) == multiset(Collected(results).value)
    ensures r.Ok? ==> forall c :: WithConfidence(r.value, c) == WithConfidence(Collected(results).value, c)
  {
    var collected := CollectDetections(results);
    if collected.Err? {
      return collected;
    }
    var detections := collected.value;
    var a := new Detection[|detections|](k requires 0 <= k < |detections| => detections[k]);
    assert a[..] == detections;
    SortInPlace(a);
    SortByConfidenceCorrect(detections);
    forall c ensures WithConfidence(a[..], c) == WithConfidence(detections, c) {
      SortByConfidenceStable(detections, c);
    }
    r := Ok(a[..]);
  }

  /** Once a prefix of the boxes fails on a class id, the whole list fails on that id. */
  lemma {:induction false} ErrSticks(boxes: seq<Box>, names: Option<map<int, string>>, j: nat)
    requires j <= |boxes|
    requires BoxEntries(boxes[..j], names).Err?
    ensures BoxEntries(boxes, names) == BoxEntries(boxes[..j], names)
    decreases |boxes| - j
  {
    if j < |boxes| {
      assert boxes[..j + 1][..j] == boxes[..j];
      ErrSticks(boxes, names, j + 1);
    } else {
      assert boxes[..j] == boxes;
    }
  }

  /** Once a prefix of the results fails, all of them fail with the same id. */
  lemma {:induction false} CollectedErrSticks(results: seq<YoloResult>, i: nat)
    requires i <= |results|
    requires Collected(results[..i]).Err?
    ensures Collected(results) == Collected(results[..i])
    decreases |results| - i
  {
    if i < |results| {
      assert results[..i + 1][..i] == results[..i];
      CollectedErrSticks(results, i + 1);
    } else {
      assert results[..i] == results;
    }
  }

  // ---------------------------------------------------------------------------------------
  // Inference parameters

  /** `detect_params = {'conf': 0.25}` followed by `detect_params.update(detection_config)` when
      the config is truthy (present and non-empty). */
  function DetectParams(config: Option<map<string, real>>): (r: map<string, real>)
    ensures "conf" in r
    ensures config.Some? ==> forall k :: k in config.value ==> k in r && r[k] == config.value[k]
    ensures r.Keys == {"conf"} + (if config.Some? then config.value.Keys else {})
    ensures (config.None? || "conf" !in config.value) ==> r["conf"] == Settings.DetectionConfidenceThreshold
  {
    var defaults := map["conf" := Settings.DetectionConfidenceThreshold];
    if config.Some? && |config.value| > 0 then defaults + config.value else defaults
  }

  // ---------------------------------------------------------------------------------------
  // Video frame loop

  /** A decoded frame (its pixels are foreign). */
  type Frame = nat

  /** What the foreign video side does in one `_process_video_file` call: whether input and
      output open, the frames `cap.read()` returns before it fails, the `CAP_PROP_FRAME_COUNT`
      property, what `model(frame, **detect_params)` yields for a sampled frame (the raw
      results, or the message of what it raises), the frame `_draw_detections` produces, and
      whether the written file exists with a non-zero size at the end. */
  datatype VideoIo = VideoIo(
    inputOpens: bool,
    outputOpens: bool,
    frames: seq<Frame>,
    totalFrames: int,
    infer: (YoloManager.YoloModel, map<string, real>, Frame) -> Result<seq<YoloResult>, string>,
    draw: (Frame, seq<Detection>) -> Frame,
    outputNonEmpty: bool)

  /** The result filename and the reported `total_frames`. */
  datatype VideoFile = VideoFile(resultFilename: string, totalFrames: int)

  /** What one run did: its outcome, the frames written, the counters, and whether the
      `except` branch ran (it releases both handles and removes the partial result file). */
  datatype VideoRun = VideoRun(outcome: Result<VideoFile, string>, written: seq<Frame>,
                               frameCount: nat, processedFrames: nat, partialRemoved: bool)

  /** How many frames the loop consumes when nothing raises: it stops when a read fails or
      right after `frame_count` reaches `total_frames`, so with a non-positive count it still
      writes the first frame. */
  function FramesConsumed(available: nat, totalFrames: int): (n: nat)
    ensures n <= available
    ensures available > 0 ==> n >= 1
    ensures available > 0 && totalFrames >= 1 ==> n == if totalFrames < available then totalFrames else available
  {
    if available == 0 then 0
    else if totalFrames <= 1 then 1
    else if totalFrames < available then totalFrames
    else available
  }

  /** One sampled frame: inference with the model and parameters, normalisation of its
      results, then drawing them on a copy of the frame. */
  function Annotate(io: VideoIo, model: YoloManager.YoloModel, params: map<string, real>, frame: Frame)
    : (r: Result<Frame, string>)
    ensures io.infer(model, params, frame).Err? ==> r == Err(io.infer(model, params, frame).error)
    ensures io.infer(model, params, frame).Ok? && Collected(io.infer(model, params, frame).value).Err? ==>
      r == Err(IntToString(Collected(io.infer(model, params, frame).value).error))
    ensures r.Ok? <==> io.infer(model, params, frame).Ok? && Collected(io.infer(model, params, frame).value).Ok?
    ensures r.Ok? ==>
      r.value == io.draw(frame, SortByConfidence(Collected(io.infer(model, params, frame).value).value))
  {
    match io.infer(model, params, frame)
    case Err(e) => Err(e)
    case Ok(results) =>
      match Collected(results)
      case Err(k) => Err(IntToString(k))
      case Ok(collected) => Ok(io.draw(frame, SortByConfidence(collected)))
  }

  /** The frame written for input frame `i`: detections are drawn on every third frame. */
  predicate WrittenAs(io: VideoIo, model: YoloManager.YoloModel, params: map<string, real>, i: nat, w: Frame)
    requires i < |io.frames|
  {
    if i % 3 == 0 then Annotate(io, model, params, io.frames[i]) == Ok(w) else w == io.frames[i]
  }

  /** The first error raised while annotating the first `n` frames (only every third frame
      goes through inference). */
  function FrameLoopError(io: VideoIo, model: YoloManager.YoloModel, params: map<string, real>, n: nat): (e: Option<string>)
    requires n <= |io.frames|
    ensures e.None? <==> forall i :: 0 <= i < n && i % 3 == 0 ==> Annotate(io, model, params, io.frames[i]).Ok?
  {
    if n == 0 then None
    else
      match FrameLoopError(io, model, params, n - 1)
      case Some(e) => Some(e)
      case None =>
        var a := Annotate(io, model, params, io.frames[n - 1]);
        if (n - 1) % 3 == 0 && a.Err? then Some(a.error) else None
  }

  /** An error among the first `k` frames is the first error among any longer prefix. */
  lemma {:induction false} FrameLoopErrorSticks(io: VideoIo, model: YoloManager.YoloModel, params: map<string, real>,
                                                k: nat, n: nat)
    requires k <= n <= |io.frames|
    requires FrameLoopError(io, model, params, k).Some?
    ensures FrameLoopError(io, model, params, n) == FrameLoopError(io, model, params, k)
    decreases n - k
  {
    if k < n {
      FrameLoopErrorSticks(io, model, params, k, n - 1);
    }
  }

  /** The outcome of `_process_video_file`: the two open checks, then the first sampled frame
      whose inference or normalisation raises, then the final file check. */
  function VideoFileOutcome(io: VideoIo, model: YoloManager.YoloModel, config: Option<map<string, real>>,
                            resultFilename: string): (r: Result<VideoFile, string>)
    ensures r.Ok? ==> r.value == VideoFile(resultFilename, io.totalFrames)
    ensures r.Ok? <==>
      && io.inputOpens && io.outputOpens && io.outputNonEmpty
      && forall i :: 0 <= i < FramesConsumed(|io.frames|, io.totalFrames) && i % 3 == 0 ==>
           Annotate(io, model, DetectParams(config), io.frames[i]).Ok?
  {
    if !io.inputOpens then Err("Could not open video file")
    else if !io.outputOpens then Err("Could not create output video file")
    else
      match FrameLoopError(io, model, DetectParams(config), FramesConsumed(|io.frames|, io.totalFrames))
      case Some(e) => Err(e)
      case None =>
        if !io.outputNonEmpty then Err("Failed to create output video file")
        else Ok(VideoFile(resultFilename, io.totalFrames))
  }

  /** The body of the loop for a sampled frame: `model(frame, **detect_params)`, then
      `process_detection_results`, then `_draw_detections` on the sorted detections. */
  method AnnotateFrame(io: VideoIo, model: YoloManager.YoloModel, params: map<string, real>, frame: Frame)
    returns (r: Result<Frame, string>)
    ensures r == Annotate(io, model, params, frame)
  {
    var results := io.infer(model, params, frame);
    if results.Err? {
      return Err(results.error);
    }
    var detections := ProcessDetectionResults(results.value);
    if detections.Err? {
      return Err(IntToString(detections.error));
    }
    return Ok(io.draw(frame, detections.value));
  }

  /** Writing one more frame keeps every written frame related to its input frame. */
  lemma WrittenStep(io: VideoIo, model: YoloManager.YoloModel, params: map<string, real>,
                    written: seq<Frame>, w: Frame)
    requires |written| < |io.frames|
    requires forall i :: 0 <= i < |written| ==> WrittenAs(io, model, params, i, written[i])
    requires WrittenAs(io, model, params, |written|, w)
    ensures forall i :: 0 <= i < |written| + 1 ==> WrittenAs(io, model, params, i, (written + [w])[i])
  {
    forall i | 0 <= i < |written| + 1
      ensures WrittenAs(io, model, params, i, (written + [w])[i])
    {
      if i < |written| {
        assert (written + [w])[i] == written[i];
      }
    }
  }

  /** One more frame adds one to the count of sampled frames exactly when it is sampled. */
  lemma SampledCountStep(frameCount: nat)
    ensures (frameCount + 1 + 2) / 3 == (frameCount + 2) / 3 + (if frameCount % 3 == 0 then 1 else 0)
  {
  }

  /** The `while cap.isOpened()` loop of `_process_video_file`: it reads frames until a read
      fails or `frame_count` reaches `total_frames`, annotates every third one and writes each.
      `failure` is what a sampled frame raised, which ends the loop early. */
  method FrameLoop(io: VideoIo, model: YoloManager.YoloModel, params: map<string, real>)
    returns (written: seq<Frame>, frameCount: nat, processedFrames: nat, failure: Option<string>)
    ensures frameCount <= FramesConsumed(|io.frames|, io.totalFrames) && |written| == frameCount
    ensures processedFrames == (frameCount + 2) / 3
    ensures forall i :: 0 <= i < frameCount ==> WrittenAs(io, model, params, i, written[i])
    ensures failure == FrameLoopError(io, model, params, FramesConsumed(|io.frames|, io.totalFrames))
    ensures failure.None? ==> frameCount == FramesConsumed(|io.frames|, io.totalFrames)
  {
    frameCount := 0;
    processedFrames := 0;
    written := [];
    ghost var consumed := FramesConsumed(|io.frames|, io.totalFrames);
    while true
      invariant frameCount <= consumed && |written| == frameCount
      invariant frameCount > 0 ==> frameCount < io.totalFrames
      invariant processedFrames == (frameCount + 2) / 3
      invariant forall i :: 0 <= i < frameCount ==> WrittenAs(io, model, params, i, written[i])
      invariant FrameLoopError(io, model, params, frameCount).None?
      decreases |io.frames| - frameCount
    {
      if frameCount >= |io.frames| {
        break;
      }
      var frame := io.frames[frameCount];
      var annotated: Frame;
      if frameCount % 3 == 0 {
        var a := AnnotateFrame(io, model, params, frame);
        if a.Err? {
          assert FrameLoopError(io, model, params, frameCount + 1) == Some(a.error);
          FrameLoopErrorSticks(io, model, params, frameCount + 1, consumed);
          return written, frameCount, processedFrames, Some(a.error);
        }
        annotated := a.value;
        processedFrames := processedFrames + 1;
      } else {
        annotated := frame;
      }
      WrittenStep(io, model, params, written, annotated);
      SampledCountStep(frameCount);
      written := written + [annotated];
      frameCount := frameCount + 1;
      if frameCount >= io.totalFrames {
        break;
      }
    }
    assert frameCount == consumed;
    failure := None;
  }

  /** `_process_video_file(video_path, model, model_id, detection_config)` with
      `result_filename` supplied by the caller (it is a fresh uuid in the source). */
  method ProcessVideoFile(io: VideoIo, model: YoloManager.YoloModel, config: Option<map<string, real>>,
                          resultFilename: string) returns (run: VideoRun)
    ensures !io.inputOpens ==> run == VideoRun(Err("Could not open video file"), [], 0, 0, false)
    ensures io.inputOpens && !io.outputOpens ==>
      run == VideoRun(Err("Could not create output video file"), [], 0, 0, false)
    ensures run.frameCount <= |io.frames| && |run.written| <= run.frameCount
    ensures run.processedFrames == (run.frameCount + 2) / 3
    ensures forall i :: 0 <= i < |run.written| ==> WrittenAs(io, model, DetectParams(config), i, run.written[i])
    ensures run.outcome == VideoFileOutcome(io, model, config, resultFilename)
    ensures run.outcome.Ok? <==>
      && io.inputOpens && io.outputOpens && io.outputNonEmpty
      && forall i :: 0 <= i < FramesConsumed(|io.frames|, io.totalFrames) && i % 3 == 0 ==>
           Annotate(io, model, DetectParams(config), io.frames[i]).Ok?
    ensures run.outcome.Ok? ==>
      && run.outcome.value == VideoFile(resultFilename, io.totalFrames)
      && run.frameCount == |run.written| == FramesConsumed(|io.frames|, io.totalFrames)
      && !run.partialRemoved
    ensures run.outcome.Err? && io.inputOpens && io.outputOpens ==> run.partialRemoved
  {
    if !io.inputOpens {
      return VideoRun(Err("Could not open video file"), [], 0, 0, false);
    }
    if !io.outputOpens {
      return VideoRun(Err("Could not create output video file"), [], 0, 0, false);
    }
    var params := DetectParams(config);
    var written, frameCount, processedFrames, failure := FrameLoop(io, model, params);
    if failure.Some? {
      return VideoRun(Err(failure.value), written, frameCount, processedFrames, true);
    }
    if !io.outputNonEmpty {
      return VideoRun(Err("Failed to create output video file"), written, frameCount, processedFrames, true);
    }
    return VideoRun(Ok(VideoFile(resultFilename, io.totalFrames)), written, frameCount, processedFrames, false);
  }

  // ---------------------------------------------------------------------------------------
  // The two service entry points

  /** What leaves `process_image` / `process_video` when they fail: an `HTTPException` raised
      by a validator, or any other exception, by its `str(e)` text. */
  datatype ServiceError = Http(error: FileValidator.HttpError) | Raised(message: string)

  /** The dictionary `process_image` returns. */
  datatype ImageResponse = ImageResponse(
    success: bool,
    detections: seq<Detection>,
    imageUrl: string,
    originalFilename: string,
    modelUsed: string,
    imageSize: string)

  /** The dictionary `process_video` returns. */
  datatype VideoResponse = VideoResponse(
    success: bool,
    videoUrl: string,
    originalFilename: string,
    modelUsed: string,
    totalFrames: int,
    processingFps: real)

  /** What the foreign image side does in one `process_image` call: decoding (`Image.open`)
      yields the width and height or raises, the model call yields results or raises, and
      saving the annotated image may raise. */
  datatype ImageIo = ImageIo(
    decoded: Result<(nat, nat), string>,
    infer: (YoloManager.YoloModel, map<string, real>) -> Result<seq<YoloResult>, string>,
    saveError: Option<string>)

  /** `f"result_{hex}.jpg"` and `f"result_{hex}.mp4"` for the uuid's hex digits. */
  function ResultImageName(hex: string): string { "result_" + hex + ".jpg" }
  function ResultVideoName(hex: string): string { "result_" + hex + ".mp4" }

  /** Whether `process_image` gets as far as `get_model`: the image decodes and fits. */
  predicate ImageReachesModel(io: ImageIo)
  {
    io.decoded.Ok? && FileValidator.ValidateImageDimensions(io.decoded.value.0, io.decoded.value.1).Ok?
  }

  /** The outcome of `process_image(file, model_id, detection_config)` against the cache
      `cached`, with `hex` the result file's uuid. */
  function ImageOutcome(cached: map<string, YoloManager.YoloModel>, file: FileValidator.UploadFile, modelId: string,
                        config: Option<map<string, real>>, loader: YoloManager.Loader, io: ImageIo, hex: string)
    : (r: Result<ImageResponse, ServiceError>)
    ensures io.decoded.Err? ==> r == Err(Raised(io.decoded.error))
    ensures io.decoded.Ok? && !ImageReachesModel(io) ==>
      r == Err(Http(FileValidator.ValidateImageDimensions(io.decoded.value.0, io.decoded.value.1).error))
    ensures io.decoded.Ok? && !ImageReachesModel(io) ==>
      r == Err(Http(FileValidator.HttpError(FileValidator.BadRequest, "Image dimensions too large. Maximum: 1920x1080")))
    ensures ImageReachesModel(io) && !Settings.IsAvailable(modelId) ==> r == Err(Raised("Unknown model: " + modelId))
    ensures ImageReachesModel(io) && YoloManager.GetModelOutcome(cached, modelId, loader).Err? ==>
      r == Err(Raised(YoloManager.ErrorMessage(YoloManager.GetModelOutcome(cached, modelId, loader).error)))
    ensures ImageReachesModel(io) && YoloManager.GetModelOutcome(cached, modelId, loader).Ok? ==>
      var inferred := io.infer(YoloManager.GetModelOutcome(cached, modelId, loader).value, DetectParams(config));
      && (inferred.Err? ==> r == Err(Raised(inferred.error)))
      && (inferred.Ok? && Collected(inferred.value).Err? ==> r == Err(Raised(IntToString(Collected(inferred.value).error))))
      && (r.Ok? <==> inferred.Ok? && Collected(inferred.value).Ok? && io.saveError.None?)
      && (r.Ok? ==> r.value.detections == SortByConfidence(Collected(inferred.value).value))
    ensures r.Ok? ==>
      && ImageReachesModel(io) && Settings.IsAvailable(modelId) && io.saveError.None?
      && r.value.success
      && r.value.imageUrl == "/static/" + ResultImageName(hex)
      && r.value.originalFilename == file.filename
      && r.value.modelUsed == modelId
      && r.value.imageSize == NatToString(io.decoded.value.0) + "x" + NatToString(io.decoded.value.1)
      && SortedDesc(r.value.detections)
  {
    match io.decoded
    case Err(e) => Err(Raised(e))
    case Ok(size) =>
      match FileValidator.ValidateImageDimensions(size.0, size.1)
      case Err(h) => Err(Http(h))
      case Ok(_) =>
        match YoloManager.GetModelOutcome(cached, modelId, loader)
        case Err(me) => Err(Raised(YoloManager.ErrorMessage(me)))
        case Ok(model) =>
          match io.infer(model, DetectParams(config))
          case Err(e) => Err(Raised(e))
          case Ok(results) =>
            match Collected(results)
            case Err(k) => Err(Raised(IntToString(k)))
            case Ok(collected) =>
              if io.saveError.Some? then Err(Raised(io.saveError.value))
              else
                SortByConfidenceCorrect(collected);
                Ok(ImageResponse(true, SortByConfidence(collected), "/static/" + ResultImageName(hex),
                                 file.filename, modelId, NatToString(size.0) + "x" + NatToString(size.1)))
  }

  /** `process_image(file, model_id, detection_config)`: decode, check the dimensions, fetch
      the model (which may load it into the cache), infer, normalise, save the annotated copy. */
  method ProcessImage(manager: YoloManager.ModelManager, file: FileValidator.UploadFile, modelId: string,
                      config: Option<map<string, real>>, loader: YoloManager.Loader, io: ImageIo, hex: string)
    returns (r: Result<ImageResponse, ServiceError>)
    requires manager.Valid()
    modifies manager
    ensures manager.Valid()
    ensures r == ImageOutcome(old(manager.loadedModels), file, modelId, config, loader, io, hex)
    ensures ImageReachesModel(io) ==>
      && manager.loadedModels == YoloManager.CacheAfter(old(manager.loadedModels), modelId, loader)
      && manager.modelLocks == YoloManager.LocksAfter(old(manager.modelLocks), old(manager.loadedModels), modelId)
    ensures !ImageReachesModel(io) ==>
      manager.loadedModels == old(manager.loadedModels) && manager.modelLocks == old(manager.modelLocks)
  {
    if io.decoded.Err? {
      return Err(Raised(io.decoded.error));
    }
    var width, height := io.decoded.value.0, io.decoded.value.1;
    var dims := FileValidator.ValidateImageDimensions(width, height);
    if dims.Err? {
      return Err(Http(dims.error));
    }
    var model := manager.GetModel(modelId, loader);
    if model.Err? {
      return Err(Raised(YoloManager.ErrorMessage(model.error)));
    }
    var results := io.infer(model.value, DetectParams(config));
    if results.Err? {
      return Err(Raised(results.error));
    }
    var detections := ProcessDetectionResults(results.value);
    if detections.Err? {
      return Err(Raised(IntToString(detections.error)));
    }
    var resultFilename := ResultImageName(hex);
    if io.saveError.Some? {
      return Err(Raised(io.saveError.value));
    }
    r := Ok(ImageResponse(true, detections.value, "/static/" + resultFilename, file.filename, modelId,
                          NatToString(width) + "x" + NatToString(height)));
  }

  /** `total_frames / processing_time if processing_time > 0 else 0`. */
  function Fps(totalFrames: int, elapsed: real): (fps: real)
    ensures elapsed > 0.0 ==> fps * elapsed == totalFrames as real
    ensures elapsed <= 0.0 ==> fps == 0.0
  {
    if elapsed > 0.0 then totalFrames as real / elapsed else 0.0
  }

  /** The outcome of `process_video(file, model_id, detection_config)` against the cache
      `cached`: writing the temporary copy may raise (`tempWriteError`), then the model is
      fetched and the frames are run through it with the config. `elapsed` is the clock
      difference it measures. */
  function VideoOutcome(cached: map<string, YoloManager.YoloModel>, file: FileValidator.UploadFile, modelId: string,
                        config: Option<map<string, real>>, loader: YoloManager.Loader, tempWriteError: Option<string>,
                        io: VideoIo, hex: string, elapsed: real)
    : (r: Result<VideoResponse, ServiceError>)
    ensures tempWriteError.Some? ==> r == Err(Raised(tempWriteError.value))
    ensures tempWriteError.None? && !Settings.IsAvailable(modelId) ==> r == Err(Raised("Unknown model: " + modelId))
    ensures tempWriteError.None? && YoloManager.GetModelOutcome(cached, modelId, loader).Err? ==>
      r == Err(Raised(YoloManager.ErrorMessage(YoloManager.GetModelOutcome(cached, modelId, loader).error)))
    ensures r.Ok? <==>
      && tempWriteError.None?
      && YoloManager.GetModelOutcome(cached, modelId, loader).Ok?
      && VideoFileOutcome(io, YoloManager.GetModelOutcome(cached, modelId, loader).value, config, ResultVideoName(hex)).Ok?
    ensures r.Ok? ==>
      && r.value.success
      && r.value.videoUrl == "/static/" + ResultVideoName(hex)
      && r.value.originalFilename == file.filename
      && r.value.modelUsed == modelId
      && r.value.totalFrames == io.totalFrames
      && r.value.processingFps == Fps(io.totalFrames, elapsed)
    ensures r.Err? && tempWriteError.None? && YoloManager.GetModelOutcome(cached, modelId, loader).Ok? ==>
      r == Err(Raised(VideoFileOutcome(io, YoloManager.GetModelOutcome(cached, modelId, loader).value, config,
                                       ResultVideoName(hex)).error))
  {
    if tempWriteError.Some? then Err(Raised(tempWriteError.value))
    else
      match YoloManager.GetModelOutcome(cached, modelId, loader)
      case Err(me) => Err(Raised(YoloManager.ErrorMessage(me)))
      case Ok(model) =>
        match VideoFileOutcome(io, model, config, ResultVideoName(hex))
        case Err(e) => Err(Raised(e))
        case Ok(video) =>
          Ok(VideoResponse(true, "/static/" + video.resultFilename, file.filename, modelId,
                           video.totalFrames, Fps(video.totalFrames, elapsed)))
  }

  /** `process_video(file, model_id, detection_config)`. */
  method ProcessVideo(manager: YoloManager.ModelManager, file: FileValidator.UploadFile, modelId: string,
                      config: Option<map<string, real>>, loader: YoloManager.Loader, tempWriteError: Option<string>,
                      io: VideoIo, hex: string, elapsed: real)
    returns (r: Result<VideoResponse, ServiceError>)
    requires manager.Valid()
    modifies manager
    ensures manager.Valid()
    ensures r == VideoOutcome(old(manager.loadedModels), file, modelId, config, loader, tempWriteError, io, hex, elapsed)
    ensures tempWriteError.None? ==>
      && manager.loadedModels == YoloManager.CacheAfter(old(manager.loadedModels), modelId, loader)
      && manager.modelLocks == YoloManager.LocksAfter(old(manager.modelLocks), old(manager.loadedModels), modelId)
    ensures tempWriteError.Some? ==>
      manager.loadedModels == old(manager.loadedModels) && manager.modelLocks == old(manager.modelLocks)
  {
    if tempWriteError.Some? {
      return Err(Raised(tempWriteError.value));
    }
    var model := manager.GetModel(modelId, loader);
    if model.Err? {
      return Err(Raised(YoloManager.ErrorMessage(model.error)));
    }
    var run := ProcessVideoFile(io, model.value, config, ResultVideoName(hex));
    if run.outcome.Err? {
      return Err(Raised(run.outcome.error));
    }
    var video := run.outcome.value;
    r := Ok(VideoResponse(true, "/static/" + video.resultFilename, file.filename, modelId,
                          video.totalFrames, Fps(video.totalFrames, elapsed)));
  }
}
