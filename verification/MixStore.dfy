/** Mixes as a JSON value (model.rs): defaults, sinks that are ours, unreserved and used
    once, unknown members kept. */
module MixStore {
  import opened Wrappers
  import opened Model
  import opened Records
  import opened Stored

  type Mixes = Ordered<string, Mix>

  const MIX_KEYS := {"id", "name", "description", "subtitle", "icon_name", "sink"}

  const PREFIX := "openwave_"

  /** Names under our prefix that no mix may take: intakes, routes and captures have them. */
  predicate MixSink(sink: string) {
    && PREFIX <= sink && StableId(sink[|PREFIX|..])
    && !("openwave_src_" <= sink) && !("openwave_loop_" <= sink) && !("openwave_capture_" <= sink)
  }

  function DecodeMix(id: string, v: Json): Result<Mix> {
    var fields :- ObjectOf(v);
    var stated :- TakeString(fields, "id", id);
    if stated != id then Err(Invalid)
    else
      var name :- TakeString(fields, "name", id);
      var description :- TakeString(fields, "description", "OpenWave " + name);
      var subtitle :- TakeString(fields, "subtitle", "");
      var iconName :- TakeString(fields, "icon_name", "audio-speakers-symbolic");
      var sink :- TakeString(fields, "sink", "openwave_mix_" + id);
      if MixSink(sink) then Ok(Mix(name, description, subtitle, iconName, sink, fields - MIX_KEYS)) else Err(Invalid)
  }

  function MixFields(id: string, m: Mix): Fields {
    map["id" := String(id), "name" := String(m.name), "description" := String(m.description),
        "subtitle" := String(m.subtitle), "icon_name" := String(m.iconName), "sink" := String(m.sink)]
  }

  function EncodeMix(id: string, m: Mix): Json { Object(MixFields(id, m) + m.extra) }

  predicate GoodMix(m: Mix) { MixSink(m.sink) && m.extra.Keys !! MIX_KEYS }

  lemma MixGood(id: string, v: Json)
    ensures DecodeMix(id, v).Ok? ==> GoodMix(DecodeMix(id, v).value)
  {}

  lemma MixFieldsHave(id: string, m: Mix)
    ensures var f := MixFields(id, m);
      && f.Keys == MIX_KEYS && f["id"] == String(id) && f["name"] == String(m.name)
      && f["description"] == String(m.description) && f["subtitle"] == String(m.subtitle)
      && f["icon_name"] == String(m.iconName) && f["sink"] == String(m.sink)
  {}

  lemma MixBack(id: string, m: Mix)
    requires GoodMix(m)
    ensures DecodeMix(id, EncodeMix(id, m)) == Ok(m)
  {
    MixFieldsHave(id, m);
    var f := EncodeMix(id, m).fields;
    hide MixFields, MixSink;
    assert f - MIX_KEYS == m.extra;
    assert forall k :: k in MIX_KEYS ==> f[k] == MixFields(id, m)[k];
  }

  // ---------------------------------------------------------------- all of them

  predicate Taken(at: map<string, Mix>, sink: string) {
    exists id :: id in at && at[id].sink == sink
  }

  lemma TakenNext(at: map<string, Mix>, id: string, m: Mix)
    requires id !in at
    ensures forall sink :: Taken(at[id := m], sink) <==> Taken(at, sink) || m.sink == sink
  {
    var after := at[id := m];
    forall sink
      ensures Taken(after, sink) <==> Taken(at, sink) || m.sink == sink
    {
      if k :| k in at && at[k].sink == sink {
        assert after[k].sink == sink;
      }
      assert after[id] == m;
    }
  }

  function LoadUpTo(all: Ordered<string, Json>, n: nat): Result<map<string, Mix>>
    requires n <= |all.keys|
  {
    if n == 0 then Ok(map[])
    else
      var before :- LoadUpTo(all, n - 1);
      if !StableId(all.keys[n - 1]) then Err(Invalid)
      else
        var m :- DecodeMix(all.keys[n - 1], all.at[all.keys[n - 1]]);
        if Taken(before, m.sink) then Err(Invalid)
        else Ok(before[all.keys[n - 1] := m])
  }

  /** Every mix is good and has a sink of its own. */
  ghost predicate GoodMixes(at: map<string, Mix>) {
    && (forall id :: id in at ==> StableId(id) && GoodMix(at[id]))
    && (forall a, b :: a in at && b in at && a != b ==> at[a].sink != at[b].sink)
  }

  lemma OneMoreGood(before: map<string, Mix>, id: string, m: Mix)
    requires GoodMixes(before) && StableId(id) && GoodMix(m) && !Taken(before, m.sink)
    ensures GoodMixes(before[id := m])
  {
    hide GoodMix, StableId;
    assert forall k :: k in before ==> before[k].sink != m.sink;
  }

  /** The last step of a load that succeeded. */
  lemma LoadStep(all: Ordered<string, Json>, n: nat)
    requires 0 < n <= |all.keys| && LoadUpTo(all, n).Ok?
    ensures var id := all.keys[n - 1];
      var m := DecodeMix(id, all.at[id]);
      && LoadUpTo(all, n - 1).Ok? && StableId(id) && m.Ok? && !Taken(LoadUpTo(all, n - 1).value, m.value.sink)
      && LoadUpTo(all, n).value == LoadUpTo(all, n - 1).value[id := m.value]
  {
    hide StableId, DecodeMix, Taken;
  }

  lemma PrefixNext(keys: seq<string>, n: nat)
    requires 0 < n <= |keys|
    ensures forall id :: id in keys[..n] <==> id in keys[..n - 1] || id == keys[n - 1]
  {
    assert keys[..n] == keys[..n - 1] + [keys[n - 1]];
  }

  lemma {:induction false} LoadedKeys(all: Ordered<string, Json>, n: nat)
    requires n <= |all.keys| && LoadUpTo(all, n).Ok?
    ensures forall id :: id in LoadUpTo(all, n).value <==> id in all.keys[..n]
  {
    if n > 0 {
      hide LoadUpTo, DecodeMix, StableId, Taken;
      LoadStep(all, n);
      LoadedKeys(all, n - 1);
      PrefixNext(all.keys, n);
    }
  }

  lemma {:induction false} LoadedGood(all: Ordered<string, Json>, n: nat)
    requires n <= |all.keys| && LoadUpTo(all, n).Ok?
    ensures GoodMixes(LoadUpTo(all, n).value)
  {
    if n > 0 {
      hide StableId, DecodeMix, GoodMix, GoodMixes, Taken, LoadUpTo;
      var id := all.keys[n - 1];
      LoadStep(all, n);
      LoadedGood(all, n - 1);
      MixGood(id, all.at[id]);
      OneMoreGood(LoadUpTo(all, n - 1).value, id, DecodeMix(id, all.at[id]).value);
    }
  }

  function DecodeMixes(doc: Document): (r: Result<Mixes>)
    ensures r.Ok? ==> GoodMixes(r.value.at)
  {
    if doc.NotAnObject? then Err(Invalid)
    else
      var at :- LoadUpTo(doc.all, |doc.all.keys|);
      LoadedGood(doc.all, |doc.all.keys|);
      LoadedKeys(doc.all, |doc.all.keys|);
      assert doc.all.keys[..|doc.all.keys|] == doc.all.keys;
      Ok(OrderedMap(doc.all.keys, at))
  }

  /** `normalize_mixes`: each sink may be taken once. */
  method NormalizeMixes(doc: Document) returns (r: Result<Mixes>)
    ensures r == DecodeMixes(doc)
  {
    hide DecodeMix, StableId, GoodMixes, Taken, LoadUpTo;
    if doc.NotAnObject? {
      return Err(Invalid);
    }
    var mixes: map<string, Mix>, sinks: set<string> := map[], {};
    NoneTaken();
    NoneLoaded(doc.all);
    for i := 0 to |doc.all.keys|
      invariant LoadUpTo(doc.all, i) == Ok(mixes)
      invariant forall sink :: sink in sinks <==> Taken(mixes, sink)
      invariant forall id :: id in mixes <==> id in doc.all.keys[..i]
    {
      var id := doc.all.keys[i];
      assert doc.all.keys[..i + 1] == doc.all.keys[..i] + [id];
      var decoded := DecodeMix(id, doc.all.at[id]);
      if !StableId(id) || decoded.Err? || decoded.value.sink in sinks {
        LoadFails(doc.all, i + 1, mixes);
        LoadStops(doc.all, i + 1, |doc.all.keys|);
        return Err(Invalid);
      }
      LoadNext(doc.all, i + 1, mixes, decoded.value);
      TakenNext(mixes, id, decoded.value);
      mixes := mixes[id := decoded.value];
      sinks := sinks + {decoded.value.sink};
    }
    assert doc.all.keys[..|doc.all.keys|] == doc.all.keys;
    r := Ok(OrderedMap(doc.all.keys, mixes));
  }

  lemma NoneLoaded(all: Ordered<string, Json>)
    ensures LoadUpTo(all, 0) == Ok(map[])
  {}

  lemma LoadFails(all: Ordered<string, Json>, n: nat, before: map<string, Mix>)
    requires 0 < n <= |all.keys| && LoadUpTo(all, n - 1) == Ok(before)
    requires
      var decoded := DecodeMix(all.keys[n - 1], all.at[all.keys[n - 1]]);
      !StableId(all.keys[n - 1]) || decoded.Err? || Taken(before, decoded.value.sink)
    ensures LoadUpTo(all, n) == Err(Invalid)
  {
    hide StableId, Taken, MixSink;
  }

  lemma NoneTaken()
    ensures forall sink :: !Taken(map[], sink)
  {}

  lemma {:induction false} LoadStops(all: Ordered<string, Json>, n: nat, m: nat)
    requires n <= m <= |all.keys| && LoadUpTo(all, n).Err?
    ensures LoadUpTo(all, m) == LoadUpTo(all, n)
  {
    hide DecodeMix, StableId;
    if n < m {
      LoadStops(all, n, m - 1);
    }
  }

  // ---------------------------------------------------------------- reloading

  function EncodeMixes(mixes: Mixes): Result<Document> {
    Ok(Members(EncodedAll(mixes)))
  }

  function EncodedAll(mixes: Mixes): (all: Ordered<string, Json>)
    ensures all.keys == mixes.keys
    ensures forall id :: id in mixes.at ==> id in all.at && all.at[id] == EncodeMix(id, mixes.at[id])
  {
    OrderedMap(mixes.keys, map id | id in mixes.at :: EncodeMix(id, mixes.at[id]))
  }

  function FirstMixes(mixes: Mixes, n: nat): map<string, Mix>
    requires n <= |mixes.keys|
  {
    map id | id in mixes.keys[..n] :: mixes.at[id]
  }

  lemma FirstNext(mixes: Mixes, n: nat)
    requires n < |mixes.keys| && GoodMixes(mixes.at)
    ensures var id := mixes.keys[n];
      && FirstMixes(mixes, n + 1) == FirstMixes(mixes, n)[id := mixes.at[id]]
      && !Taken(FirstMixes(mixes, n), mixes.at[id].sink)
  {
    assert mixes.keys[..n + 1] == mixes.keys[..n] + [mixes.keys[n]];
    hide GoodMix, StableId;
  }

  lemma LoadNext(all: Ordered<string, Json>, n: nat, before: map<string, Mix>, m: Mix)
    requires 0 < n <= |all.keys| && LoadUpTo(all, n - 1) == Ok(before)
    requires StableId(all.keys[n - 1]) && DecodeMix(all.keys[n - 1], all.at[all.keys[n - 1]]) == Ok(m)
    requires !Taken(before, m.sink)
    ensures LoadUpTo(all, n) == Ok(before[all.keys[n - 1] := m])
  {
    hide DecodeMix, StableId, Taken;
  }

  lemma OneGood(mixes: Mixes, n: nat)
    requires n < |mixes.keys| && GoodMixes(mixes.at)
    ensures StableId(mixes.keys[n]) && GoodMix(mixes.at[mixes.keys[n]])
  {}

  lemma {:induction false} ReloadUpTo(mixes: Mixes, n: nat)
    requires n <= |mixes.keys| && GoodMixes(mixes.at)
    ensures LoadUpTo(EncodedAll(mixes), n) == Ok(FirstMixes(mixes, n))
  {
    hide DecodeMix, EncodeMix, GoodMix, GoodMixes, StableId, LoadUpTo, FirstMixes, EncodedAll, Taken;
    if n == 0 {
      NoneLoaded(EncodedAll(mixes));
      NoneFirst(mixes);
    } else {
      var id := mixes.keys[n - 1];
      ReloadUpTo(mixes, n - 1);
      FirstNext(mixes, n - 1);
      OneGood(mixes, n - 1);
      MixBack(id, mixes.at[id]);
      LoadNext(EncodedAll(mixes), n, FirstMixes(mixes, n - 1), mixes.at[id]);
    }
  }

  lemma NoneFirst(mixes: Mixes)
    ensures FirstMixes(mixes, 0) == map[]
  {}

  lemma AllFirst(mixes: Mixes)
    ensures FirstMixes(mixes, |mixes.keys|) == mixes.at
  {
    assert mixes.keys[..|mixes.keys|] == mixes.keys;
  }

  lemma MixesBack(doc: Document, mixes: Mixes)
    requires DecodeMixes(doc) == Ok(mixes)
    ensures EncodeMixes(mixes).Ok? && DecodeMixes(EncodeMixes(mixes).value) == Ok(mixes)
  {
    hide LoadUpTo, GoodMixes, EncodeMix;
    ReloadUpTo(mixes, |mixes.keys|);
    AllFirst(mixes);
  }

  /** Mixes that were ever loaded reload as they are. */
  lemma MixLaw()
    ensures CodecLaw(DecodeMixes, EncodeMixes)
  {
    hide DecodeMixes, EncodeMixes;
    forall doc, mixes: Mixes | DecodeMixes(doc) == Ok(mixes)
      ensures EncodeMixes(mixes).Ok? && DecodeMixes(EncodeMixes(mixes).value) == Ok(mixes)
    {
      MixesBack(doc, mixes);
    }
  }
}
