/** The matrix as a JSON value (model.rs): cells under dotted keys, outputs and volumes in
    sections, the single output of old files, and whatever else was there. Maps compare
    without order, as the crate's equality does. */
module MatrixStore {
  import opened Wrappers
  import opened Model
  import opened Records
  import opened Stored

  datatype MatrixMaps = MatrixMaps(
    cells: map<string, LevelState>, outputs: map<string, string>, volumes: map<string, LevelState>, extra: Fields)

  const RESERVED := {"outputs", "output", "volumes"}

  // ---------------------------------------------------------------- levels

  function DecodeLevel(parse: ParseNumber, v: Json, default: Option<real>): Result<LevelState> {
    var fields :- ObjectOf(v);
    var volume :- if "volume" in fields then LegacyNumber(parse, fields["volume"])
                  else if default.Some? then Ok(default.value) else Err(Invalid);
    var muted :- TakeBool(fields, "muted", false);
    Ok(LevelState(volume, muted, fields - {"volume", "muted"}))
  }

  function LevelDecoder(parse: ParseNumber, default: Option<real>): Json -> Result<LevelState> {
    v => DecodeLevel(parse, v, default)
  }

  function EncodeLevel(s: LevelState): Json {
    Object(map["volume" := Number(s.volume), "muted" := Bool(s.muted)] + s.extra)
  }

  predicate GoodLevel(s: LevelState) {
    0.0 <= s.volume <= 1.0 && "volume" !in s.extra && "muted" !in s.extra
  }

  lemma LevelBack(parse: ParseNumber, s: LevelState, default: Option<real>)
    requires GoodLevel(s)
    ensures DecodeLevel(parse, EncodeLevel(s), default) == Ok(s)
  {
    var fields := EncodeLevel(s).fields;
    assert fields["volume"] == Number(s.volume) && fields["muted"] == Bool(s.muted);
    assert fields - {"volume", "muted"} == s.extra;
  }

  lemma LevelGood(parse: ParseNumber, v: Json, default: Option<real>)
    requires default.Some? ==> 0.0 <= default.value <= 1.0
    ensures DecodeLevel(parse, v, default).Ok? ==> GoodLevel(DecodeLevel(parse, v, default).value)
  {}

  // ---------------------------------------------------------------- the matrix

  predicate IsCellKey(key: string) {
    exists i :: 0 <= i < |key| && key[i] == '.' && StableId(key[..i]) && StableId(key[i + 1..])
  }

  function DecodeOutput(v: Json): Result<string> {
    if v.String? && v.s != "" then Ok(v.s) else Err(Invalid)
  }

  function EncodeOutput(sink: string): Json { String(sink) }

  function SectionOf(fields: Fields, key: string): Result<Fields> {
    if key in fields then ObjectOf(fields[key]) else Ok(map[])
  }

  /** The output of old files belongs to the personal mix, unless that has one already. */
  function WithLegacy(outputs: Fields, fields: Fields): Fields {
    if "output" in fields && fields["output"].String? && "personal" !in outputs
    then outputs["personal" := fields["output"]] else outputs
  }

  function DecodeMatrix(parse: ParseNumber, v: Json): Result<MatrixMaps> {
    var fields :- ObjectOf(v);
    var stored :- SectionOf(fields, "outputs");
    var outputs :- DecodeAll(WithLegacy(stored, fields), StableId, DecodeOutput);
    var masters :- SectionOf(fields, "volumes");
    var volumes :- DecodeAll(masters, StableId, LevelDecoder(parse, None));
    var dotted := map k | k in fields && k !in RESERVED && '.' in k :: fields[k];
    var cells :- DecodeAll(dotted, IsCellKey, LevelDecoder(parse, Some(0.0)));
    Ok(MatrixMaps(cells, outputs, volumes, map k | k in fields && k !in RESERVED && '.' !in k :: fields[k]))
  }

  function EncodeMatrix(m: MatrixMaps): Result<Json> {
    Ok(Object(m.extra + EncodeAll(m.cells, EncodeLevel)
       + map["outputs" := Object(EncodeAll(m.outputs, EncodeOutput)),
             "volumes" := Object(EncodeAll(m.volumes, EncodeLevel))]))
  }

  predicate GoodMatrix(m: MatrixMaps) {
    && (forall k :: k in m.cells ==> IsCellKey(k) && GoodLevel(m.cells[k]))
    && (forall k :: k in m.outputs ==> StableId(k) && m.outputs[k] != "")
    && (forall k :: k in m.volumes ==> StableId(k) && GoodLevel(m.volumes[k]))
    && (forall k :: k in m.extra ==> k !in RESERVED && '.' !in k)
  }

  lemma MatrixGood(parse: ParseNumber, v: Json)
    ensures DecodeMatrix(parse, v).Ok? ==> GoodMatrix(DecodeMatrix(parse, v).value)
  {
    forall j, default: Option<real> | default.Some? ==> default.value == 0.0
      ensures DecodeLevel(parse, j, default).Ok? ==> GoodLevel(DecodeLevel(parse, j, default).value)
    {
      LevelGood(parse, j, default);
    }
    hide DecodeLevel, GoodLevel, IsCellKey, StableId;
  }

  lemma LevelsBack(parse: ParseNumber, m: map<string, LevelState>, good: string -> bool, default: Option<real>)
    requires forall k :: k in m ==> good(k) && GoodLevel(m[k])
    ensures DecodeAll(EncodeAll(m, EncodeLevel), good, LevelDecoder(parse, default)) == Ok(m)
  {
    forall k | k in m ensures LevelDecoder(parse, default)(EncodeLevel(m[k])) == Ok(m[k]) {
      LevelBack(parse, m[k], default);
    }
    AllBack(m, good, LevelDecoder(parse, default), EncodeLevel);
  }

  lemma EncodedFields(m: MatrixMaps, fields: Fields)
    requires GoodMatrix(m) && EncodeMatrix(m) == Ok(Object(fields))
    ensures "output" !in fields
    ensures "outputs" in fields && fields["outputs"] == Object(EncodeAll(m.outputs, EncodeOutput))
    ensures "volumes" in fields && fields["volumes"] == Object(EncodeAll(m.volumes, EncodeLevel))
    ensures (map k | k in fields && k !in RESERVED && '.' in k :: fields[k]) == EncodeAll(m.cells, EncodeLevel)
    ensures (map k | k in fields && k !in RESERVED && '.' !in k :: fields[k]) == m.extra
  {
    hide EncodeLevel, GoodLevel, IsCellKey, StableId, EncodeAll;
    KeysKept(m.cells);
    forall k | k in m.cells ensures '.' in k && k !in RESERVED {
      CellKeyDotted(k);
    }
    Partition(m, fields, EncodeAll(m.cells, EncodeLevel));
  }

  lemma KeysKept(cells: map<string, LevelState>)
    ensures EncodeAll(cells, EncodeLevel).Keys == cells.Keys
  {}

  lemma MatrixBack(parse: ParseNumber, m: MatrixMaps)
    requires GoodMatrix(m)
    ensures DecodeMatrix(parse, EncodeMatrix(m).value) == Ok(m)
  {
    hide EncodeMatrix, LevelDecoder, EncodeLevel, GoodLevel, IsCellKey, StableId, DecodeAll, EncodeAll, DecodeOutput;
    EncodedObject(m);
    EncodedFields(m, EncodeMatrix(m).value.fields);
    AllBack(m.outputs, StableId, DecodeOutput, EncodeOutput) by {
      OutputsBack(m.outputs);
    }
    LevelsBack(parse, m.volumes, StableId, None);
    LevelsBack(parse, m.cells, IsCellKey, Some(0.0));
  }

  lemma EncodedObject(m: MatrixMaps)
    ensures EncodeMatrix(m).Ok? && EncodeMatrix(m).value.Object?
  {}

  lemma OutputsBack(outputs: map<string, string>)
    requires forall k :: k in outputs ==> outputs[k] != ""
    ensures forall k :: k in outputs ==> DecodeOutput(EncodeOutput(outputs[k])) == Ok(outputs[k])
  {}

  lemma CellKeyDotted(k: string)
    requires IsCellKey(k)
    ensures '.' in k && k !in RESERVED
  {
    assert '.' !in "outputs" && '.' !in "output" && '.' !in "volumes";
  }

  lemma Partition(m: MatrixMaps, fields: Fields, cells: Fields)
    requires cells.Keys == m.cells.Keys
    requires "outputs" in fields && "volumes" in fields
    requires fields == m.extra + cells + map["outputs" := fields["outputs"], "volumes" := fields["volumes"]]
    requires forall k :: k in m.cells ==> '.' in k && k !in RESERVED
    requires forall k :: k in m.extra ==> k !in RESERVED && '.' !in k
    ensures (map k | k in fields && k !in RESERVED && '.' in k :: fields[k]) == cells
    ensures (map k | k in fields && k !in RESERVED && '.' !in k :: fields[k]) == m.extra
    ensures "output" !in fields
  {
    assert "output" in RESERVED;
  }

  /** What is written is what a reload decodes. */
  lemma MatrixLaw(parse: ParseNumber)
    ensures CodecLaw(j => DecodeMatrix(parse, j), EncodeMatrix)
  {
    forall j, m | DecodeMatrix(parse, j) == Ok(m)
      ensures EncodeMatrix(m).Ok? && DecodeMatrix(parse, EncodeMatrix(m).value) == Ok(m)
    {
      MatrixGood(parse, j);
      MatrixBack(parse, m);
    }
  }

  /** An old file as a newer version stores it: the output with those of the other mixes,
      unless the personal mix has one of its own. */
  function Migrated(fields: Fields): Fields {
    if SectionOf(fields, "outputs").Err? then fields
    else (fields - {"output"})["outputs" := Object(WithLegacy(SectionOf(fields, "outputs").value, fields))]
  }

  lemma MigratedRest(fields: Fields)
    ensures var now := Migrated(fields);
      && (map k | k in now && k !in RESERVED && '.' in k :: now[k]) ==
        (map k | k in fields && k !in RESERVED && '.' in k :: fields[k])
      && (map k | k in now && k !in RESERVED && '.' !in k :: now[k]) ==
        (map k | k in fields && k !in RESERVED && '.' !in k :: fields[k])
  {
    var now := Migrated(fields);
    forall k | k !in RESERVED
      ensures (k in now <==> k in fields) && (k in now ==> now[k] == fields[k])
    {}
    hide Migrated;
    assert (map k | k in now && k !in RESERVED && '.' in k :: now[k]) ==
      (map k | k in fields && k !in RESERVED && '.' in k :: fields[k]);
    assert (map k | k in now && k !in RESERVED && '.' !in k :: now[k]) ==
      (map k | k in fields && k !in RESERVED && '.' !in k :: fields[k]);
  }

  lemma MigratedSections(fields: Fields)
    requires SectionOf(fields, "outputs").Ok?
    ensures var now := Migrated(fields);
      && SectionOf(now, "volumes") == SectionOf(fields, "volumes")
      && SectionOf(now, "outputs") == Ok(WithLegacy(SectionOf(fields, "outputs").value, fields))
      && WithLegacy(SectionOf(now, "outputs").value, now) == SectionOf(now, "outputs").value
  {}

  lemma SameMatrix(parse: ParseNumber, a: Fields, b: Fields)
    requires SectionOf(a, "volumes") == SectionOf(b, "volumes")
    requires SectionOf(a, "outputs").Ok? && SectionOf(b, "outputs").Ok?
    requires WithLegacy(SectionOf(a, "outputs").value, a) == WithLegacy(SectionOf(b, "outputs").value, b)
    requires (map k | k in a && k !in RESERVED && '.' in k :: a[k]) ==
      (map k | k in b && k !in RESERVED && '.' in k :: b[k])
    requires (map k | k in a && k !in RESERVED && '.' !in k :: a[k]) ==
      (map k | k in b && k !in RESERVED && '.' !in k :: b[k])
    ensures DecodeMatrix(parse, Object(a)) == DecodeMatrix(parse, Object(b))
  {
    hide DecodeAll, LevelDecoder, SectionOf, WithLegacy, IsCellKey, StableId;
  }

  /** Reading an old file is reading it migrated, errors included; and once it is written
      again nothing of the old form is left. */
  lemma LegacyOutput(parse: ParseNumber, fields: Fields)
    ensures DecodeMatrix(parse, Object(fields)) == DecodeMatrix(parse, Object(Migrated(fields)))
    ensures DecodeMatrix(parse, Object(fields)).Ok? ==>
      "output" !in EncodeMatrix(DecodeMatrix(parse, Object(fields)).value).value.fields
  {
    if SectionOf(fields, "outputs").Ok? {
      MigratedRest(fields);
      MigratedSections(fields);
      hide Migrated, DecodeMatrix, WithLegacy, SectionOf;
      SameMatrix(parse, fields, Migrated(fields));
    }
    hide Migrated, DecodeMatrix, EncodeMatrix, GoodMatrix;
    if DecodeMatrix(parse, Object(fields)).Ok? {
      var m := DecodeMatrix(parse, Object(fields)).value;
      MatrixGood(parse, Object(fields));
      EncodedObject(m);
      EncodedFields(m, EncodeMatrix(m).value.fields);
    }
  }

  /** The output of an old file is kept for the personal mix unless that has its own. */
  lemma LegacyPersonal(parse: ParseNumber, fields: Fields, legacy: string)
    requires "output" in fields && fields["output"] == String(legacy)
    requires DecodeMatrix(parse, Object(fields)).Ok?
    ensures var m := DecodeMatrix(parse, Object(fields)).value;
      && "personal" in m.outputs
      && (SectionOf(fields, "outputs").value.Keys !! {"personal"} ==> m.outputs["personal"] == legacy)
      && ("personal" in SectionOf(fields, "outputs").value ==>
            String(m.outputs["personal"]) == SectionOf(fields, "outputs").value["personal"])
  {
    hide DecodeLevel, IsCellKey, StableId;
  }
}
