/** Scenes as a JSON value (scenes.rs): every member is optional but the name, absent and
    empty sections differ, and nothing unknown is accepted. Section maps compare without
    order. */
module SceneStore {
  import opened Wrappers
  import opened Model
  import opened Records
  import opened Stored

  datatype LevelPatch = LevelPatch(volume: Option<real>, muted: Option<bool>)

  datatype HardwarePatch = HardwarePatch(
    gainRaw: Option<nat>, mute: Option<bool>, hpVolumeDb: Option<real>, lowImpedance: Option<bool>,
    monitorMix: Option<nat>)

  datatype Scene = Scene(
    name: string, sources: Option<map<string, LevelPatch>>, cells: Option<map<string, LevelPatch>>,
    outputs: Option<map<string, Option<string>>>, volumes: Option<map<string, LevelPatch>>,
    hardware: Option<map<string, HardwarePatch>>)

  // ---------------------------------------------------------------- optional members

  predicate NonEmptyKey(k: string) { k != "" }

  /** `mapping`: an object without empty keys. */
  function Mapping(v: Json): Result<Fields> {
    if v.Object? && "" !in v.fields then Ok(v.fields) else Err(Invalid)
  }

  function OptNumber(fields: Fields, key: string, low: real, high: real): Result<Option<real>> {
    if key !in fields then Ok(None)
    else if AsReal(fields[key]).Some? && low <= AsReal(fields[key]).value <= high then Ok(AsReal(fields[key]))
    else Err(Invalid)
  }

  function OptInteger(fields: Fields, key: string): Result<Option<nat>> {
    if key !in fields then Ok(None)
    else if fields[key].Integer? && 0 <= fields[key].i <= 65535 then Ok(Some(fields[key].i))
    else Err(Invalid)
  }

  function OptBool(fields: Fields, key: string): Result<Option<bool>> {
    if key !in fields then Ok(None) else if fields[key].Bool? then Ok(Some(fields[key].b)) else Err(Invalid)
  }

  function Member<T>(key: string, value: Option<T>, encode: T -> Json): Fields {
    if value.Some? then map[key := encode(value.value)] else map[]
  }

  function ANumber(n: real): Json { Number(n) }

  function AnInteger(i: nat): Json { Integer(i) }

  function ABool(b: bool): Json { Bool(b) }

  // ---------------------------------------------------------------- patches

  /** Source patches call the number `level`, cell and volume patches `volume`. */
  function DecodeLevelPatch(key: string, v: Json): Result<LevelPatch> {
    var fields :- Mapping(v);
    var volume :- OptNumber(fields, key, 0.0, 1.0);
    var muted :- OptBool(fields, "muted");
    if fields.Keys <= {key, "muted"} then Ok(LevelPatch(volume, muted)) else Err(Invalid)
  }

  function EncodeLevelPatch(key: string, p: LevelPatch): Json {
    Object(Member(key, p.volume, ANumber) + Member("muted", p.muted, ABool))
  }

  predicate GoodLevelPatch(p: LevelPatch) {
    p.volume.Some? ==> 0.0 <= p.volume.value <= 1.0
  }

  lemma LevelPatchGood(key: string, v: Json)
    ensures DecodeLevelPatch(key, v).Ok? ==> GoodLevelPatch(DecodeLevelPatch(key, v).value)
  {}

  lemma LevelPatchBack(key: string, p: LevelPatch)
    requires GoodLevelPatch(p) && key != "muted" && key != ""
    ensures DecodeLevelPatch(key, EncodeLevelPatch(key, p)) == Ok(p)
  {}

  const HARDWARE_KEYS := {"gain_raw", "mute", "hp_volume_db", "low_impedance", "monitor_mix"}

  function DecodeHardware(v: Json): Result<HardwarePatch> {
    var fields :- Mapping(v);
    var gainRaw :- OptInteger(fields, "gain_raw");
    var mute :- OptBool(fields, "mute");
    var hpVolumeDb :- OptNumber(fields, "hp_volume_db", -128.0, 0.0);
    var lowImpedance :- OptBool(fields, "low_impedance");
    var monitorMix :- OptInteger(fields, "monitor_mix");
    if fields.Keys <= HARDWARE_KEYS then Ok(HardwarePatch(gainRaw, mute, hpVolumeDb, lowImpedance, monitorMix))
      else Err(Invalid)
  }

  function InputFields(p: HardwarePatch): Fields {
    Member("gain_raw", p.gainRaw, AnInteger) + Member("mute", p.mute, ABool) + Member("low_impedance", p.lowImpedance,
      ABool)
  }

  function OutputFields(p: HardwarePatch): Fields {
    Member("hp_volume_db", p.hpVolumeDb, ANumber) + Member("monitor_mix", p.monitorMix, AnInteger)
  }

  function EncodeHardware(p: HardwarePatch): Json { Object(InputFields(p) + OutputFields(p)) }

  predicate GoodHardware(p: HardwarePatch) {
    && (p.gainRaw.Some? ==> p.gainRaw.value <= 65535) && (p.monitorMix.Some? ==> p.monitorMix.value <= 65535)
    && (p.hpVolumeDb.Some? ==> -128.0 <= p.hpVolumeDb.value <= 0.0)
  }

  lemma HardwareGood(v: Json)
    ensures DecodeHardware(v).Ok? ==> GoodHardware(DecodeHardware(v).value)
  {}

  /** A member is there exactly when the option has a value. */
  predicate HasMember(f: Fields, key: string, present: bool, v: Json) {
    if present then key in f && f[key] == v else key !in f
  }

  lemma InputFieldsHave(p: HardwarePatch)
    ensures var f := InputFields(p);
      && f.Keys <= {"gain_raw", "mute", "low_impedance"}
      && HasMember(f, "gain_raw", p.gainRaw.Some?, if p.gainRaw.Some? then Integer(p.gainRaw.value) else Null)
      && HasMember(f, "mute", p.mute.Some?, if p.mute.Some? then Bool(p.mute.value) else Null)
      && HasMember(f, "low_impedance", p.lowImpedance.Some?, if p.lowImpedance.Some? then Bool(p.lowImpedance.value)
        else Null)
  {}

  lemma OutputFieldsHave(p: HardwarePatch)
    ensures var f := OutputFields(p);
      && f.Keys <= {"hp_volume_db", "monitor_mix"}
      && HasMember(f, "hp_volume_db", p.hpVolumeDb.Some?, if p.hpVolumeDb.Some? then Number(p.hpVolumeDb.value)
        else Null)
      && HasMember(f, "monitor_mix", p.monitorMix.Some?, if p.monitorMix.Some? then Integer(p.monitorMix.value)
        else Null)
  {}

  lemma HardwareBack(p: HardwarePatch)
    requires GoodHardware(p)
    ensures DecodeHardware(EncodeHardware(p)) == Ok(p)
  {
    InputFieldsHave(p);
    OutputFieldsHave(p);
    hide InputFields, OutputFields;
    var f := EncodeHardware(p).fields;
    assert "" !in f && f.Keys <= HARDWARE_KEYS;
  }

  function DecodeOutput(v: Json): Result<Option<string>> {
    match v
    case Null => Ok(None)
    case String(s) => Ok(Some(s))
    case _ => Err(Invalid)
  }

  function EncodeOutput(o: Option<string>): Json { if o.Some? then String(o.value) else Null }

  // ---------------------------------------------------------------- sections

  function Section<T>(fields: Fields, key: string, decode: Json -> Result<T>): Result<Option<map<string, T>>> {
    if key !in fields then Ok(None)
    else
      var entries :- Mapping(fields[key]);
      var all :- DecodeAll(entries, NonEmptyKey, decode);
      Ok(Some(all))
  }

  function EncodeSection<T>(m: map<string, T>, encode: T -> Json): Json { Object(EncodeAll(m, encode)) }

  function SectionMember<T>(key: string, m: Option<map<string, T>>, encode: T -> Json): Fields {
    if m.Some? then map[key := EncodeSection(m.value, encode)] else map[]
  }

  predicate GoodSection<T>(m: Option<map<string, T>>, good: T -> bool) {
    m.Some? ==> "" !in m.value && forall k :: k in m.value ==> good(m.value[k])
  }

  lemma SectionGood<T>(fields: Fields, key: string, decode: Json -> Result<T>, good: T -> bool)
    requires forall v :: decode(v).Ok? ==> good(decode(v).value)
    ensures Section(fields, key, decode).Ok? ==> GoodSection(Section(fields, key, decode).value, good)
  {}

  lemma SectionBack<T>(fields: Fields, key: string, m: Option<map<string, T>>, good: T -> bool,
      decode: Json -> Result<T>, encode: T -> Json)
    requires GoodSection(m, good) && forall t :: good(t) ==> decode(encode(t)) == Ok(t)
    requires key in fields <==> m.Some?
    requires m.Some? ==> fields[key] == EncodeSection(m.value, encode)
    ensures Section(fields, key, decode) == Ok(m)
  {
    if m.Some? {
      AllBack(m.value, NonEmptyKey, decode, encode);
      assert EncodeAll(m.value, encode).Keys == m.value.Keys;
    }
  }

  // ---------------------------------------------------------------- scenes

  const SCENE_KEYS := {"name", "sources", "cells", "outputs", "volumes", "hardware"}

  function SourceDecoder(): Json -> Result<LevelPatch> { v => DecodeLevelPatch("level", v) }

  function SourceEncoder(): LevelPatch -> Json { p => EncodeLevelPatch("level", p) }

  function VolumeDecoder(): Json -> Result<LevelPatch> { v => DecodeLevelPatch("volume", v) }

  function VolumeEncoder(): LevelPatch -> Json { p => EncodeLevelPatch("volume", p) }

  function Any(o: Option<string>): bool { true }

  /** A cell key has something on both sides of its last dot. */
  predicate IsSceneCell(key: string) {
    exists i :: 0 < i < |key| - 1 && key[i] == '.' && '.' !in key[i + 1..]
  }

  predicate CellsKeyed(s: Scene) {
    s.cells.Some? ==> forall k :: k in s.cells.value ==> IsSceneCell(k)
  }

  /** `Scene::validate`. */
  predicate GoodScene(s: Scene) {
    && GoodSection(s.sources, GoodLevelPatch) && GoodSection(s.cells, GoodLevelPatch) && GoodSection(s.outputs, Any)
    && GoodSection(s.volumes, GoodLevelPatch) && GoodSection(s.hardware, GoodHardware) && CellsKeyed(s)
  }

  function TakeName(fields: Fields): Result<string> {
    if "name" in fields && fields["name"].String? then Ok(fields["name"].s) else Err(Invalid)
  }

  function DecodeScene(v: Json): Result<Scene> {
    var fields :- Mapping(v);
    var name :- TakeName(fields);
    var sources :- Section(fields, "sources", SourceDecoder());
    var cells :- Section(fields, "cells", VolumeDecoder());
    var outputs :- Section(fields, "outputs", DecodeOutput);
    var volumes :- Section(fields, "volumes", VolumeDecoder());
    var hardware :- Section(fields, "hardware", DecodeHardware);
    var scene := Scene(name, sources, cells, outputs, volumes, hardware);
    if fields.Keys <= SCENE_KEYS && CellsKeyed(scene) then Ok(scene) else Err(Invalid)
  }

  function SendFields(s: Scene): Fields {
    SectionMember("sources", s.sources, SourceEncoder()) + SectionMember("cells", s.cells, VolumeEncoder())
  }

  function MixFields(s: Scene): Fields {
    SectionMember("outputs", s.outputs, EncodeOutput) + SectionMember("volumes", s.volumes, VolumeEncoder())
  }

  function UnitFields(s: Scene): Fields {
    map["name" := String(s.name)] + SectionMember("hardware", s.hardware, EncodeHardware)
  }

  function SceneFields(s: Scene): Fields { SendFields(s) + MixFields(s) + UnitFields(s) }

  function EncodeScene(s: Scene): Json { Object(SceneFields(s)) }

  lemma SceneGood(v: Json)
    ensures DecodeScene(v).Ok? ==> GoodScene(DecodeScene(v).value)
  {
    if DecodeScene(v).Ok? {
      var fields := v.fields;
      forall j ensures DecodeLevelPatch("level", j).Ok? ==> GoodLevelPatch(DecodeLevelPatch("level", j).value) {
        LevelPatchGood("level", j);
      }
      forall j ensures DecodeLevelPatch("volume", j).Ok? ==> GoodLevelPatch(DecodeLevelPatch("volume", j).value) {
        LevelPatchGood("volume", j);
      }
      forall j ensures DecodeHardware(j).Ok? ==> GoodHardware(DecodeHardware(j).value) {
        HardwareGood(j);
      }
      SectionGood(fields, "sources", SourceDecoder(), GoodLevelPatch);
      SectionGood(fields, "cells", VolumeDecoder(), GoodLevelPatch);
      SectionGood(fields, "outputs", DecodeOutput, Any);
      SectionGood(fields, "volumes", VolumeDecoder(), GoodLevelPatch);
      SectionGood(fields, "hardware", DecodeHardware, GoodHardware);
      hide Section, GoodSection, CellsKeyed;
    }
  }

  predicate HasSection<T>(f: Fields, key: string, m: Option<map<string, T>>, encode: T -> Json) {
    if m.Some? then key in f && f[key] == EncodeSection(m.value, encode) else key !in f
  }

  lemma SendFieldsHave(s: Scene)
    ensures var f := SendFields(s);
      && f.Keys <= {"sources", "cells"}
      && HasSection(f, "sources", s.sources, SourceEncoder()) && HasSection(f, "cells", s.cells, VolumeEncoder())
  {
    hide EncodeSection, SourceEncoder, VolumeEncoder;
  }

  lemma MixFieldsHave(s: Scene)
    ensures var f := MixFields(s);
      && f.Keys <= {"outputs", "volumes"}
      && HasSection(f, "outputs", s.outputs, EncodeOutput) && HasSection(f, "volumes", s.volumes, VolumeEncoder())
  {
    hide EncodeSection, VolumeEncoder, EncodeOutput;
  }

  lemma UnitFieldsHave(s: Scene)
    ensures var f := UnitFields(s);
      && f.Keys <= {"name", "hardware"} && "name" in f && f["name"] == String(s.name)
      && HasSection(f, "hardware", s.hardware, EncodeHardware)
  {
    hide EncodeSection, EncodeHardware;
  }

  lemma SceneFieldsHave(s: Scene)
    ensures var f := SceneFields(s);
      && f.Keys <= SCENE_KEYS && "" !in f && "name" in f && f["name"] == String(s.name)
      && HasSection(f, "sources", s.sources, SourceEncoder()) && HasSection(f, "cells", s.cells, VolumeEncoder())
      && HasSection(f, "outputs", s.outputs, EncodeOutput) && HasSection(f, "volumes", s.volumes, VolumeEncoder())
      && HasSection(f, "hardware", s.hardware, EncodeHardware)
  {
    SendFieldsHave(s);
    MixFieldsHave(s);
    UnitFieldsHave(s);
    hide EncodeSection, SourceEncoder, VolumeEncoder, EncodeOutput, EncodeHardware, SendFields, MixFields, UnitFields;
  }

  lemma PatchesBack()
    ensures forall p :: GoodLevelPatch(p) ==> SourceDecoder()(SourceEncoder()(p)) == Ok(p)
    ensures forall p :: GoodLevelPatch(p) ==> VolumeDecoder()(VolumeEncoder()(p)) == Ok(p)
    ensures forall p :: GoodHardware(p) ==> DecodeHardware(EncodeHardware(p)) == Ok(p)
    ensures forall o :: Any(o) ==> DecodeOutput(EncodeOutput(o)) == Ok(o)
  {
    forall p | GoodLevelPatch(p)
      ensures SourceDecoder()(SourceEncoder()(p)) == Ok(p)
      ensures VolumeDecoder()(VolumeEncoder()(p)) == Ok(p)
    {
      LevelPatchBack("level", p);
      LevelPatchBack("volume", p);
    }
    forall p | GoodHardware(p) ensures DecodeHardware(EncodeHardware(p)) == Ok(p) {
      HardwareBack(p);
    }
  }

  lemma SceneBack(s: Scene)
    requires GoodScene(s)
    ensures DecodeScene(EncodeScene(s)) == Ok(s)
  {
    hide EncodeSection, SourceEncoder, VolumeEncoder, EncodeOutput, EncodeHardware, SourceDecoder, VolumeDecoder,
      DecodeHardware, DecodeOutput, Section, GoodSection, SceneFields, CellsKeyed, GoodLevelPatch, GoodHardware, Any;
    SceneFieldsHave(s);
    var f := SceneFields(s);
    PatchesBack();
    SectionBack(f, "sources", s.sources, GoodLevelPatch, SourceDecoder(), SourceEncoder());
    SectionBack(f, "cells", s.cells, GoodLevelPatch, VolumeDecoder(), VolumeEncoder());
    SectionBack(f, "outputs", s.outputs, Any, DecodeOutput, EncodeOutput);
    SectionBack(f, "volumes", s.volumes, GoodLevelPatch, VolumeDecoder(), VolumeEncoder());
    SectionBack(f, "hardware", s.hardware, GoodHardware, DecodeHardware, EncodeHardware);
  }

  // ---------------------------------------------------------------- the store

  type Scenes = map<string, Scene>

  /** Scene identifiers are any nonempty strings. */
  function DecodeStore(v: Json): Result<Scenes> {
    var root :- Mapping(v);
    if root.Keys != {"scenes"} then Err(Invalid)
    else
      var entries :- Mapping(root["scenes"]);
      DecodeAll(entries, NonEmptyKey, DecodeScene)
  }

  predicate GoodScenes(scenes: Scenes) {
    "" !in scenes && forall k :: k in scenes ==> GoodScene(scenes[k])
  }

  /** Scenes edited in memory are checked again before they are written. */
  function EncodeStore(scenes: Scenes): Result<Json> {
    if forall k :: k in scenes ==> GoodScene(scenes[k])
    then Ok(Object(map["scenes" := EncodeSection(scenes, EncodeScene)]))
    else Err(Invalid)
  }

  lemma StoreGood(v: Json)
    ensures DecodeStore(v).Ok? ==> GoodScenes(DecodeStore(v).value)
  {
    forall j ensures DecodeScene(j).Ok? ==> GoodScene(DecodeScene(j).value) {
      SceneGood(j);
    }
    hide DecodeScene, GoodScene;
  }

  lemma StoreBack(scenes: Scenes)
    requires GoodScenes(scenes)
    ensures EncodeStore(scenes).Ok? && DecodeStore(EncodeStore(scenes).value) == Ok(scenes)
  {
    hide DecodeScene, GoodScene, EncodeScene;
    forall k | k in scenes ensures DecodeScene(EncodeScene(scenes[k])) == Ok(scenes[k]) {
      SceneBack(scenes[k]);
    }
    AllBack(scenes, NonEmptyKey, DecodeScene, EncodeScene);
    assert EncodeAll(scenes, EncodeScene).Keys == scenes.Keys;
  }

  /** Scenes that were ever loaded reload as they are. */
  lemma SceneLaw()
    ensures CodecLaw(DecodeStore, EncodeStore)
  {
    hide DecodeStore, EncodeStore, GoodScenes;
    forall v, scenes | DecodeStore(v) == Ok(scenes)
      ensures EncodeStore(scenes).Ok? && DecodeStore(EncodeStore(scenes).value) == Ok(scenes)
    {
      StoreGood(v);
      StoreBack(scenes);
    }
  }
}
