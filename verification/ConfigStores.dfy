/** The five state files together (store.rs). */
module ConfigStores {
  import opened Wrappers
  import opened Model
  import opened Records
  import opened Stored
  import SourceStore
  import MixStore
  import MatrixStore
  import PreferenceStore
  import SceneStore

  function DefaultMix(name: string, subtitle: string, icon: string, sink: string): Mix {
    Mix(name, "OpenWave " + name, subtitle, icon, sink, map[])
  }

  const PERSONAL := DefaultMix("Personal Mix", "What you hear", "audio-headphones-symbolic", "openwave_personal_mix")
  const CHAT := DefaultMix("Chat Mix", "Send to voice apps", "system-users-symbolic", "openwave_chat_mix")
  const RECORD := DefaultMix("Record Mix", "Send to OBS or a recorder", "media-record-symbolic", "openwave_record_mix")

  const DEFAULT_MIXES: MixStore.Mixes :=
    OrderedMap(["personal", "chat", "record"], map["personal" := PERSONAL, "chat" := CHAT, "record" := RECORD])

  lemma NotPrefix(prefix: string, s: string, i: nat)
    requires i < |prefix| && i < |s| && prefix[i] != s[i]
    ensures !(prefix <= s)
  {}

  lemma FreeSink(sink: string)
    requires |sink| > 10 && (sink[9] == 'p' || sink[9] == 'r' || (sink[9] == 'c' && sink[10] == 'h'))
    ensures !("openwave_src_" <= sink) && !("openwave_loop_" <= sink) && !("openwave_capture_" <= sink)
  {
    NotPrefix("openwave_src_", sink, 9);
    NotPrefix("openwave_loop_", sink, 9);
    NotPrefix("openwave_capture_", sink, if sink[9] == 'c' then 10 else 9);
  }

  lemma PersonalSink()
    ensures MixStore.MixSink("openwave_personal_mix")
  {
    assert "openwave_personal_mix"[|MixStore.PREFIX|..] == "personal_mix";
    FreeSink("openwave_personal_mix");
  }

  lemma ChatSink()
    ensures MixStore.MixSink("openwave_chat_mix")
  {
    assert "openwave_chat_mix"[|MixStore.PREFIX|..] == "chat_mix";
    FreeSink("openwave_chat_mix");
  }

  lemma RecordSink()
    ensures MixStore.MixSink("openwave_record_mix")
  {
    assert "openwave_record_mix"[|MixStore.PREFIX|..] == "record_mix";
    FreeSink("openwave_record_mix");
  }

  lemma SinksDiffer()
    ensures PERSONAL.sink != CHAT.sink && PERSONAL.sink != RECORD.sink && CHAT.sink != RECORD.sink
    ensures PERSONAL.extra == CHAT.extra == RECORD.extra == map[]
  {
    assert PERSONAL.sink[9] == 'p' && CHAT.sink[9] == 'c' && RECORD.sink[9] == 'r';
  }

  lemma IdsStable()
    ensures StableId("personal") && StableId("chat") && StableId("record")
  {}

  lemma ThreeGood(a: string, x: Mix, b: string, y: Mix, c: string, z: Mix)
    requires StableId(a) && StableId(b) && StableId(c)
    requires MixStore.MixSink(x.sink) && MixStore.MixSink(y.sink) && MixStore.MixSink(z.sink)
    requires x.sink != y.sink && x.sink != z.sink && y.sink != z.sink
    requires x.extra == y.extra == z.extra == map[]
    ensures MixStore.GoodMixes(map[a := x, b := y, c := z])
  {
    hide MixStore.MixSink, StableId;
  }

  lemma DefaultsGood()
    ensures MixStore.GoodMixes(DEFAULT_MIXES.at)
  {
    hide MixStore.MixSink, StableId, MixStore.GoodMixes;
    PersonalSink();
    ChatSink();
    RecordSink();
    SinksDiffer();
    IdsStable();
    ThreeGood("personal", PERSONAL, "chat", CHAT, "record", RECORD);
  }

  lemma DefaultsReload()
    ensures MixStore.EncodeMixes(DEFAULT_MIXES).Ok?
    ensures MixStore.DecodeMixes(MixStore.EncodeMixes(DEFAULT_MIXES).value) == Ok(DEFAULT_MIXES)
  {
    DefaultsGood();
    hide MixStore.GoodMixes, MixStore.LoadUpTo;
    MixStore.ReloadUpTo(DEFAULT_MIXES, 3);
    MixStore.AllFirst(DEFAULT_MIXES);
  }

  /** A store opened on `file`: what the file decodes to, or read-only with the file as it
      was when it cannot be read or decoded. */
  ghost predicate Opened<T(!new), J(!new)>(s: Stored<T, J>, file: File<J>, decoded: Result<T>)
    reads s
  {
    && (file.Unreadable? || (file.Holds? && decoded.Err?) ==> s.unreadable == Some(CorruptStore) && s.file == file)
    && (file.Holds? && decoded.Ok? ==> s.unreadable.None? && s.file == file && s.value == decoded.value)
  }

  function DecodedIn<T, J>(file: File<J>, decode: J -> Result<T>): Result<T> {
    if file.Holds? then decode(file.json) else Err(Io)
  }

  method LoadSources(parse: ParseNumber, file: File<Document>) returns (s: Stored<SourceStore.Sources, Document>)
    ensures fresh(s) && s.Valid() && s.file == file
      && Opened(s, file, DecodedIn(file, doc => SourceStore.DecodeSources(parse, doc)))
  {
    SourceStore.SourceLaw(parse);
    hide CodecLaw;
    var none: SourceStore.Sources := OrderedMap([], map[]);
    s := new Stored(file, none, doc => SourceStore.DecodeSources(parse, doc), SourceStore.EncodeSources, false);
  }

  /** Only the mixes are seeded. */
  method LoadMixes(file: File<Document>) returns (s: Stored<MixStore.Mixes, Document>)
    ensures fresh(s) && s.Valid() && Opened(s, file, DecodedIn(file, MixStore.DecodeMixes))
    ensures s.decode == MixStore.DecodeMixes && (s.unreadable.None? ==> s.file.Holds?)
    ensures file.Missing? && s.unreadable.None? ==> s.value == DEFAULT_MIXES
  {
    MixStore.MixLaw();
    DefaultsReload();
    hide CodecLaw, MixStore.DecodeMixes, MixStore.EncodeMixes;
    s := new Stored(file, DEFAULT_MIXES, MixStore.DecodeMixes, MixStore.EncodeMixes, true);
  }

  method LoadMatrix(parse: ParseNumber, file: File<Json>) returns (s: Stored<MatrixStore.MatrixMaps, Json>)
    ensures fresh(s) && s.Valid() && s.file == file
      && Opened(s, file, DecodedIn(file, j => MatrixStore.DecodeMatrix(parse, j)))
  {
    MatrixStore.MatrixLaw(parse);
    hide CodecLaw;
    s := new Stored(file, MatrixStore.MatrixMaps(map[], map[], map[], map[]),
                    j => MatrixStore.DecodeMatrix(parse, j), MatrixStore.EncodeMatrix, false);
  }

  method LoadPreferences(file: File<Json>) returns (s: Stored<PreferenceStore.Preferences, Json>)
    ensures fresh(s) && s.Valid() && s.file == file
      && Opened(s, file, DecodedIn(file, PreferenceStore.DecodePreferences))
  {
    PreferenceStore.PreferenceLaw();
    hide CodecLaw;
    s := new Stored(file, PreferenceStore.Preferences(1280, 720, false, [], false, "white", map[]),
                    PreferenceStore.DecodePreferences, PreferenceStore.EncodePreferences, false);
  }

  method LoadScenes(file: File<Json>) returns (s: Stored<SceneStore.Scenes, Json>)
    ensures fresh(s) && s.Valid() && s.file == file && Opened(s, file, DecodedIn(file, SceneStore.DecodeStore))
  {
    SceneStore.SceneLaw();
    hide CodecLaw;
    s := new Stored(file, map[], SceneStore.DecodeStore, SceneStore.EncodeStore, false);
  }

  class ConfigStore {
    const sources: Stored<SourceStore.Sources, Document>
    const mixes: Stored<MixStore.Mixes, Document>
    const matrix: Stored<MatrixStore.MatrixMaps, Json>
    const preferences: Stored<PreferenceStore.Preferences, Json>
    const scenes: Stored<SceneStore.Scenes, Json>

    ghost predicate Valid()
      reads this, sources, mixes, matrix, preferences, scenes
    {
      && sources.Valid() && mixes.Valid() && matrix.Valid() && preferences.Valid() && scenes.Valid()
      && mixes.decode == MixStore.DecodeMixes && (mixes.unreadable.None? ==> mixes.file.Holds?)
    }

    /** Every store keeps the reload law from the start, and a file that cannot be read or
        decoded stays as it is, read-only. */
    constructor Load(
      parse: ParseNumber, sourceFile: File<Document>, mixFile: File<Document>, matrixFile: File<Json>,
      preferenceFile: File<Json>, sceneFile: File<Json>)
      ensures Valid()
      ensures Opened(sources, sourceFile, DecodedIn(sourceFile, doc => SourceStore.DecodeSources(parse, doc)))
      ensures Opened(mixes, mixFile, DecodedIn(mixFile, MixStore.DecodeMixes))
      ensures Opened(matrix, matrixFile, DecodedIn(matrixFile, j => MatrixStore.DecodeMatrix(parse, j)))
      ensures Opened(preferences, preferenceFile, DecodedIn(preferenceFile, PreferenceStore.DecodePreferences))
      ensures Opened(scenes, sceneFile, DecodedIn(sceneFile, SceneStore.DecodeStore))
    {
      var so := LoadSources(parse, sourceFile);
      var mi := LoadMixes(mixFile);
      var ma := LoadMatrix(parse, matrixFile);
      var pr := LoadPreferences(preferenceFile);
      var sc := LoadScenes(sceneFile);
      sources, mixes, matrix, preferences, scenes := so, mi, ma, pr, sc;
    }

    /** Mixes that could not be read are not served from the defaults; those that are served
        are what a reload of their file would give, each with a sink of its own. */
    method DesiredMixes() returns (r: MixStore.Mixes)
      requires Valid()
      ensures mixes.unreadable.Some? ==> r.keys == [] && r.at == map[]
      ensures mixes.unreadable.None? ==> mixes.file.Holds? && MixStore.DecodeMixes(mixes.file.json) == Ok(r)
      ensures MixStore.GoodMixes(r.at)
    {
      hide MixStore.DecodeMixes, MixStore.MixSink;
      r := if mixes.unreadable.None? then mixes.value else OrderedMap([], map[]);
    }
  }
}
