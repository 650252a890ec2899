/** The advanced settings panel (frontend/src/components/AdvancedConfig.tsx): the active
    detection configuration, the built-in presets and the user's custom presets, which are
    mirrored to browser storage. Confidence and IoU are held as integer hundredths. */
module AdvancedConfig {
  import opened Common

  /** A detection configuration; `confidence` and `iou` in hundredths (25 means 0.25). */
  datatype DetectionConfig = DetectionConfig(confidence: int, iou: int, maxDetections: int, imageSize: int)

  datatype Preset = Preset(id: string, name: string, description: string, config: DetectionConfig)

  /** The four built-in presets, in display order. */
  const DefaultPresets: seq<Preset> := [
    Preset("balanced", "Balanced", "Good balance between speed and accuracy", DetectionConfig(25, 45, 300, 640)),
    Preset("high-precision", "High Precision", "Maximum accuracy, fewer false positives", DetectionConfig(50, 50, 100, 1280)),
    Preset("fast", "Fast", "Optimized for speed, good for real-time", DetectionConfig(30, 40, 200, 320)),
    Preset("high-recall", "High Recall", "Detect more objects, may include false positives", DetectionConfig(15, 35, 500, 640))
  ]

  const StorageKey: string := "yolo-custom-presets"
  const CustomPrefix: string := "custom-"
  const CustomDescription: string := "Custom configuration"

  /** A value found under the storage key: a JSON list of presets, or text `JSON.parse`
      rejects. */
  datatype StoredValue = PresetList(presets: seq<Preset>) | Unparsable(text: string)

  // ---------------------------------------------------------------------------------------
  // The controls' ranges

  datatype ConfigField = Confidence | Iou | MaxDetections | ImageSize

  /** The values each control can produce: the two threshold sliders in steps of 0.05, the
      detection-count slider in steps of 50, and the three size buttons. */
  predicate FieldInRange(field: ConfigField, value: int)
  {
    match field
    case Confidence => 5 <= value <= 95 && value % 5 == 0
    case Iou => 20 <= value <= 70 && value % 5 == 0
    case MaxDetections => 50 <= value <= 1000 && value % 50 == 0
    case ImageSize => value == 320 || value == 640 || value == 1280
  }

  function FieldOf(c: DetectionConfig, field: ConfigField): int
  {
    match field
    case Confidence => c.confidence
    case Iou => c.iou
    case MaxDetections => c.maxDetections
    case ImageSize => c.imageSize
  }

  predicate InRange(c: DetectionConfig)
  {
    forall f: ConfigField :: FieldInRange(f, FieldOf(c, f))
  }

  /** `{ ...config, [field]: value }`. */
  function WithField(c: DetectionConfig, field: ConfigField, value: int): (r: DetectionConfig)
    ensures FieldOf(r, field) == value
    ensures forall g: ConfigField :: g != field ==> FieldOf(r, g) == FieldOf(c, g)
  {
    match field
    case Confidence => c.(confidence := value)
    case Iou => c.(iou := value)
    case MaxDetections => c.(maxDetections := value)
    case ImageSize => c.(imageSize := value)
  }

  /** Every built-in preset sits inside the controls' ranges. */
  lemma DefaultsInRange()
    ensures forall i :: 0 <= i < |DefaultPresets| ==> InRange(DefaultPresets[i].config)
  {
    forall i, f: ConfigField | 0 <= i < |DefaultPresets|
      ensures FieldInRange(f, FieldOf(DefaultPresets[i].config, f))
    {
    }
  }

  /** Changing one field to a value its control can produce keeps a configuration in range. */
  lemma {:induction false} WithFieldKeepsRange(c: DetectionConfig, field: ConfigField, value: int)
    requires InRange(c) && FieldInRange(field, value)
    ensures InRange(WithField(c, field, value))
  {
    forall g: ConfigField ensures FieldInRange(g, FieldOf(WithField(c, field, value), g)) {
      if g != field {
        assert FieldOf(WithField(c, field, value), g) == FieldOf(c, g);
        assert FieldInRange(g, FieldOf(c, g));
      }
    }
  }

  // ---------------------------------------------------------------------------------------
  // Preset lists

  /** `[...DEFAULT_PRESETS, ...customPresets]`. */
  function AllPresets(custom: seq<Preset>): (r: seq<Preset>)
    ensures |r| == |DefaultPresets| + |custom|
    ensures r[..|DefaultPresets|] == DefaultPresets && r[|DefaultPresets|..] == custom
  {
    DefaultPresets + custom
  }

  /** Whether a preset shows a delete button: only the saved ones, never a built-in preset. */
  predicate CanDelete(p: Preset)
    ensures CanDelete(p) ==> forall i :: 0 <= i < |DefaultPresets| ==> DefaultPresets[i].id != p.id
  {
    assert DefaultPresets[0].id[0] == 'b' && DefaultPresets[1].id[0] == 'h';
    assert DefaultPresets[2].id[0] == 'f' && DefaultPresets[3].id[0] == 'h';
    StartsWith(p.id, CustomPrefix)
  }

  /** No built-in preset can be deleted, so every preset list shown starts with the four. */
  lemma DefaultsNotDeletable()
    ensures forall i :: 0 <= i < |DefaultPresets| ==> !CanDelete(DefaultPresets[i])
  {
    assert DefaultPresets[0].id[0] == 'b' && DefaultPresets[1].id[0] == 'h';
    assert DefaultPresets[2].id[0] == 'f' && DefaultPresets[3].id[0] == 'h';
  }

  /** `customPresets.filter(p => p.id !== id)`. */
  function RemoveId(ps: seq<Preset>, id: string): (r: seq<Preset>)
    ensures |r| <= |ps|
    ensures forall p :: p in r <==> p in ps && p.id != id
  {
    if ps == [] then []
    else if ps[0].id == id then RemoveId(ps[1..], id)
    else [ps[0]] + RemoveId(ps[1..], id)
  }

  /** Filtering works piecewise, so the kept presets stay in their order. */
  lemma {:induction false} RemoveIdAppend(a: seq<Preset>, b: seq<Preset>, id: string)
    ensures RemoveId(a + b, id) == RemoveId(a, id) + RemoveId(b, id)
  {
    if a != [] {
      assert (a + b)[1..] == a[1..] + b;
      RemoveIdAppend(a[1..], b, id);
    } else {
      assert a + b == b;
    }
  }

  /** A list holding no preset with `id` is left as it is. */
  lemma {:induction false} RemoveAbsentId(ps: seq<Preset>, id: string)
    requires forall i :: 0 <= i < |ps| ==> ps[i].id != id
    ensures RemoveId(ps, id) == ps
  {
    if ps != [] {
      RemoveAbsentId(ps[1..], id);
    }
  }

  /** Deleting the preset just saved restores the previous list, provided the fresh id was
      not already in use. */
  lemma DeleteUndoesSave(ps: seq<Preset>, p: Preset)
    requires forall i :: 0 <= i < |ps| ==> ps[i].id != p.id
    ensures RemoveId(ps + [p], p.id) == ps
  {
    RemoveIdAppend(ps, [p], p.id);
    RemoveAbsentId(ps, p.id);
    assert RemoveId([p], p.id) == [];
  }

  // ---------------------------------------------------------------------------------------
  // Trimming a preset name

  /** The single white-space characters `String.prototype.trim` removes, besides the range
      U+2000 to U+200A. */
  const JsWhitespaceChars: set<char> := {
    '\t', '\n', '\U{000B}', '\U{000C}', '\r', ' ', '\U{00A0}', '\U{1680}',
    '\U{2028}', '\U{2029}', '\U{202F}', '\U{205F}', '\U{3000}', '\U{FEFF}' }

  predicate IsJsWhitespace(c: char)
  {
    c in JsWhitespaceChars || '\U{2000}' <= c <= '\U{200A}'
  }

  predicate Blank(s: string)
  {
    forall i :: 0 <= i < |s| ==> IsJsWhitespace(s[i])
  }

  /** The index of the first character at or after `i` that is not white space, or `|s|`. */
  function LeadingBlanks(s: string, i: nat): (k: nat)
    requires i <= |s|
    ensures i <= k <= |s|
    ensures forall j :: i <= j < k ==> IsJsWhitespace(s[j])
    ensures k < |s| ==> !IsJsWhitespace(s[k])
    decreases |s| - i
  {
    if i < |s| && IsJsWhitespace(s[i]) then LeadingBlanks(s, i + 1) else i
  }

  /** The index where the run of white space ending at `j` starts. */
  function TrailingBlanks(s: string, j: nat): (k: nat)
    requires j <= |s|
    ensures k <= j
    ensures forall m :: k <= m < j ==> IsJsWhitespace(s[m])
    ensures k > 0 ==> !IsJsWhitespace(s[k - 1])
    decreases j
  {
    if j > 0 && IsJsWhitespace(s[j - 1]) then TrailingBlanks(s, j - 1) else j
  }

  /** `name.trim()`: the name without leading and trailing white space. */
  function Trim(s: string): (r: string)
    ensures r != [] ==> !IsJsWhitespace(r[0]) && !IsJsWhitespace(r[|r| - 1])
    ensures r == "" <==> Blank(s)
  {
    var lo := LeadingBlanks(s, 0);
    if lo == |s| then ""
    else
      var hi := TrailingBlanks(s, |s|);
      assert lo < hi;
      s[lo..hi]
  }

  /** The preset `handleSavePreset` creates at time `now` (milliseconds): the name as typed,
      untrimmed. */
  function NewPreset(name: string, config: DetectionConfig, now: nat): (p: Preset)
    ensures StartsWith(p.id, CustomPrefix) && p.name == name && p.config == config
    ensures p.description == CustomDescription
  {
    Preset(CustomPrefix + NatToString(now), name, CustomDescription, config)
  }

  // ---------------------------------------------------------------------------------------
  // The panel's state and handlers

  class ConfigPanel {
    var localConfig: DetectionConfig
    var customPresets: seq<Preset>
    var presetName: string
    var showSavePreset: bool
    var savedNotification: bool
    var isExpanded: bool
    /** Browser storage, key to stored value. */
    var storage: map<string, StoredValue>
    /** The values handed to `onConfigChange`, oldest first. */
    var notified: seq<DetectionConfig>

    /** The storage key holds exactly the custom list. */
    predicate Mirrored()
      reads this
    {
      StorageKey in storage && storage[StorageKey] == PresetList(customPresets)
    }

    /** Mounting with the parent's `config` over the current storage contents. */
    constructor (config: DetectionConfig, stored: map<string, StoredValue>)
      ensures localConfig == config && customPresets == [] && presetName == ""
      ensures !showSavePreset && !savedNotification && !isExpanded
      ensures storage == stored && notified == []
    {
      localConfig, customPresets, presetName := config, [], "";
      showSavePreset, savedNotification, isExpanded := false, false, false;
      storage, notified := stored, [];
    }

    /** The mount effect: take the stored list when the key holds one that parses. */
    method LoadOnMount()
      modifies this
      ensures StorageKey in storage && storage[StorageKey].PresetList? ==>
        customPresets == storage[StorageKey].presets && Mirrored()
      ensures !(StorageKey in storage && storage[StorageKey].PresetList?) ==> customPresets == old(customPresets)
      ensures storage == old(storage) && localConfig == old(localConfig) && notified == old(notified)
      ensures presetName == old(presetName) && showSavePreset == old(showSavePreset)
      ensures savedNotification == old(savedNotification) && isExpanded == old(isExpanded)
    {
      if StorageKey in storage {
        match storage[StorageKey]
        case PresetList(ps) => customPresets := ps;
        case Unparsable(_) =>
      }
    }

    /** The prop-sync effect: a new `config` from the parent replaces the local one. */
    method ConfigProp(config: DetectionConfig)
      modifies this
      ensures localConfig == config
      ensures customPresets == old(customPresets) && storage == old(storage) && notified == old(notified)
      ensures presetName == old(presetName) && showSavePreset == old(showSavePreset)
      ensures savedNotification == old(savedNotification) && isExpanded == old(isExpanded)
    {
      localConfig := config;
    }

    /** `handleConfigChange(field, value)`, reached only from the controls. */
    method ConfigChange(field: ConfigField, value: int)
      requires FieldInRange(field, value)
      modifies this
      ensures localConfig == WithField(old(localConfig), field, value)
      ensures notified == old(notified) + [localConfig]
      ensures old(InRange(localConfig)) ==> InRange(localConfig)
      ensures customPresets == old(customPresets) && storage == old(storage)
      ensures presetName == old(presetName) && showSavePreset == old(showSavePreset)
      ensures savedNotification == old(savedNotification) && isExpanded == old(isExpanded)
    {
      if InRange(localConfig) {
        WithFieldKeepsRange(localConfig, field, value);
      }
      localConfig := WithField(localConfig, field, value);
      notified := notified + [localConfig];
    }

    /** `handlePresetSelect(preset)`. */
    method SelectPreset(preset: Preset)
      modifies this
      ensures localConfig == preset.config && notified == old(notified) + [preset.config]
      ensures IsActive(preset)
      ensures customPresets == old(customPresets) && storage == old(storage)
      ensures presetName == old(presetName) && showSavePreset == old(showSavePreset)
      ensures savedNotification == old(savedNotification) && isExpanded == old(isExpanded)
    {
      localConfig := preset.config;
      notified := notified + [preset.config];
    }

    /** `handleResetToDefault()`: the Balanced configuration. */
    method ResetToDefault()
      modifies this
      ensures localConfig == DetectionConfig(25, 45, 300, 640) == DefaultPresets[0].config
      ensures IsActive(DefaultPresets[0])
      ensures notified == old(notified) + [localConfig]
      ensures customPresets == old(customPresets) && storage == old(storage)
      ensures presetName == old(presetName) && showSavePreset == old(showSavePreset)
      ensures savedNotification == old(savedNotification) && isExpanded == old(isExpanded)
    {
      localConfig := DefaultPresets[0].config;
      notified := notified + [localConfig];
    }

    /** `handleSavePreset()` at time `now`: a blank name changes nothing; otherwise one preset
        holding the current configuration is appended and the list is stored. */
    method SavePreset(now: nat)
      modifies this
      ensures Blank(old(presetName)) ==>
        && customPresets == old(customPresets) && storage == old(storage)
        && presetName == old(presetName) && showSavePreset == old(showSavePreset)
        && savedNotification == old(savedNotification)
      ensures !Blank(old(presetName)) ==>
        && customPresets == old(customPresets) + [NewPreset(old(presetName), old(localConfig), now)]
        && storage == old(storage)[StorageKey := PresetList(customPresets)]
        && Mirrored()
        && presetName == "" && !showSavePreset && savedNotification
      ensures localConfig == old(localConfig) && notified == old(notified) && isExpanded == old(isExpanded)
    {
      var trimmed := Trim(presetName);
      assert trimmed == "" <==> Blank(old(presetName));
      if trimmed != "" {
        var preset := NewPreset(presetName, localConfig, now);
        var list := customPresets + [preset];
        customPresets, storage := list, storage[StorageKey := PresetList(list)];
        presetName, showSavePreset, savedNotification := "", false, true;
      }
    }

    /** The three-second timer started by a save. */
    method NotificationExpired()
      modifies this
      ensures !savedNotification
      ensures customPresets == old(customPresets) && storage == old(storage) && localConfig == old(localConfig)
      ensures presetName == old(presetName) && showSavePreset == old(showSavePreset)
      ensures notified == old(notified) && isExpanded == old(isExpanded)
    {
      savedNotification := false;
    }

    /** `handleDeletePreset(id)`: every custom preset with that id goes, the list is stored. */
    method DeletePreset(id: string)
      modifies this
      ensures customPresets == RemoveId(old(customPresets), id)
      ensures storage == old(storage)[StorageKey := PresetList(customPresets)] && Mirrored()
      ensures localConfig == old(localConfig) && notified == old(notified)
      ensures presetName == old(presetName) && showSavePreset == old(showSavePreset)
      ensures savedNotification == old(savedNotification) && isExpanded == old(isExpanded)
    {
      customPresets := RemoveId(customPresets, id);
      storage := storage[StorageKey := PresetList(customPresets)];
    }

    /** Typing in the name box; the save button, the cancel button, the header toggle. */
    method SetPresetName(name: string)
      modifies this
      ensures presetName == name
      ensures customPresets == old(customPresets) && storage == old(storage) && localConfig == old(localConfig)
      ensures showSavePreset == old(showSavePreset) && savedNotification == old(savedNotification)
      ensures notified == old(notified) && isExpanded == old(isExpanded)
    {
      presetName := name;
    }

    method ToggleSaveForm()
      modifies this
      ensures showSavePreset == !old(showSavePreset)
      ensures customPresets == old(customPresets) && storage == old(storage) && localConfig == old(localConfig)
      ensures presetName == old(presetName) && savedNotification == old(savedNotification)
      ensures notified == old(notified) && isExpanded == old(isExpanded)
    {
      showSavePreset := !showSavePreset;
    }

    method CancelSave()
      modifies this
      ensures !showSavePreset && presetName == ""
      ensures customPresets == old(customPresets) && storage == old(storage) && localConfig == old(localConfig)
      ensures savedNotification == old(savedNotification)
      ensures notified == old(notified) && isExpanded == old(isExpanded)
    {
      showSavePreset := false;
      presetName := "";
    }

    method ToggleExpanded()
      modifies this
      ensures isExpanded == !old(isExpanded)
      ensures customPresets == old(customPresets) && storage == old(storage) && localConfig == old(localConfig)
      ensures presetName == old(presetName) && showSavePreset == old(showSavePreset)
      ensures savedNotification == old(savedNotification) && notified == old(notified)
    {
      isExpanded := !isExpanded;
    }

    /** Whether the save button is enabled. */
    function CanSave(): (r: bool)
      reads this
      ensures r <==> !Blank(presetName)
    {
      Trim(presetName) != ""
    }

    /** Whether a preset card is highlighted as the active one: the two configurations
        serialise to the same JSON text, which for one flat record of four numbers in a fixed
        key order means field by field equality, so exactly when they are the same
        configuration. */
    predicate IsActive(preset: Preset)
      reads this
      ensures IsActive(preset) <==> localConfig == preset.config
    {
      var same := forall f: ConfigField :: FieldOf(localConfig, f) == FieldOf(preset.config, f);
      assert same ==>
        && FieldOf(localConfig, Confidence) == FieldOf(preset.config, Confidence)
        && FieldOf(localConfig, Iou) == FieldOf(preset.config, Iou)
        && FieldOf(localConfig, MaxDetections) == FieldOf(preset.config, MaxDetections)
        && FieldOf(localConfig, ImageSize) == FieldOf(preset.config, ImageSize);
      same
    }
  }

  /** A name of spaces and a non-breaking space counts as blank, a padded name does not. */
  lemma BlankExamples()
    ensures Trim(" \U{00A0}\t") == ""
    ensures Trim("  a ") == "a"
  {
    assert LeadingBlanks(" \U{00A0}\t", 0) == 3;
    assert LeadingBlanks("  a ", 0) == 2 && TrailingBlanks("  a ", 4) == 3;
  }
}
