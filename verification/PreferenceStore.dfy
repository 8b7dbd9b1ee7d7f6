/** Interface preferences as a JSON value (model.rs). */
module PreferenceStore {
  import opened Wrappers
  import opened Model
  import opened Records
  import opened Stored
  import SourceStore

  type i32 = x: int | -0x8000_0000 <= x < 0x8000_0000

  datatype Preferences = Preferences(
    width: i32, height: i32, maximized: bool, offeredCaptureNodes: seq<string>, gainLocked: bool,
    trayIconColor: string, extra: Fields)

  const PREFERENCE_KEYS := {
    "width", "height", "maximized", "offered_capture_nodes", "gain_locked", "tray_icon_color"}

  /** Geometry must be a whole number that fits, and is raised to its least size. */
  function TakeSize(fields: Fields, key: string, default: i32, minimum: i32): Result<i32> {
    if key !in fields then Ok(default)
    else if !fields[key].Integer? || !(-0x8000_0000 <= fields[key].i < 0x8000_0000) then Err(Invalid)
    else Ok(if fields[key].i < minimum then minimum else fields[key].i)
  }

  function TakeOffered(fields: Fields): Result<seq<string>> {
    if "offered_capture_nodes" in fields then SourceStore.DecodeNames(fields["offered_capture_nodes"]) else Ok([])
  }

  function DecodePreferences(v: Json): Result<Preferences> {
    var fields :- ObjectOf(v);
    var width :- TakeSize(fields, "width", 1280, 820);
    var height :- TakeSize(fields, "height", 720, 480);
    var maximized :- TakeBool(fields, "maximized", false);
    var gainLocked :- TakeBool(fields, "gain_locked", false);
    var color :- TakeString(fields, "tray_icon_color", "white");
    if color != "white" && color != "black" then Err(Invalid)
    else
      var offered :- TakeOffered(fields);
      Ok(Preferences(width, height, maximized, offered, gainLocked, color, fields - PREFERENCE_KEYS))
  }

  function PreferenceFields(p: Preferences): Fields {
    map["width" := Integer(p.width), "height" := Integer(p.height), "maximized" := Bool(p.maximized),
        "offered_capture_nodes" := SourceStore.EncodeNames(p.offeredCaptureNodes),
        "gain_locked" := Bool(p.gainLocked), "tray_icon_color" := String(p.trayIconColor)]
  }

  function EncodePreferences(p: Preferences): Result<Json> { Ok(Object(PreferenceFields(p) + p.extra)) }

  predicate GoodPreferences(p: Preferences) {
    && p.width >= 820 && p.height >= 480 && (p.trayIconColor == "white" || p.trayIconColor == "black")
    && p.extra.Keys !! PREFERENCE_KEYS
  }

  lemma PreferencesGood(v: Json)
    ensures DecodePreferences(v).Ok? ==> GoodPreferences(DecodePreferences(v).value)
  {}

  lemma PreferencesBack(p: Preferences)
    requires GoodPreferences(p)
    ensures DecodePreferences(EncodePreferences(p).value) == Ok(p)
  {
    SourceStore.NamesBack(p.offeredCaptureNodes);
    var f := EncodePreferences(p).value.fields;
    FieldsHave(p);
    hide PreferenceFields, SourceStore.EncodeNames, SourceStore.DecodeNames;
    assert f - PREFERENCE_KEYS == p.extra;
    assert forall k :: k in PREFERENCE_KEYS ==> f[k] == PreferenceFields(p)[k];
  }

  lemma FieldsHave(p: Preferences)
    ensures var f := PreferenceFields(p);
      && f.Keys == PREFERENCE_KEYS && f["width"] == Integer(p.width) && f["height"] == Integer(p.height)
      && f["maximized"] == Bool(p.maximized) && f["gain_locked"] == Bool(p.gainLocked)
      && f["offered_capture_nodes"] == SourceStore.EncodeNames(p.offeredCaptureNodes)
      && f["tray_icon_color"] == String(p.trayIconColor)
  {}

  /** Preferences that were ever loaded reload as they are. */
  lemma PreferenceLaw()
    ensures CodecLaw(DecodePreferences, EncodePreferences)
  {
    hide DecodePreferences, EncodePreferences;
    forall v, p | DecodePreferences(v) == Ok(p)
      ensures EncodePreferences(p).Ok? && DecodePreferences(EncodePreferences(p).value) == Ok(p)
    {
      PreferencesGood(v);
      PreferencesBack(p);
      Encodes(p);
    }
  }

  lemma Encodes(p: Preferences)
    ensures EncodePreferences(p).Ok?
  {}
}
