/** Sources as a JSON value (model.rs): defaults, legacy bindings, unknown members kept,
    and the group rule every loaded set of sources obeys. */
module SourceStore {
  import opened Wrappers
  import opened Numbers
  import opened Strings
  import opened Model
  import opened Records
  import opened FxCodec
  import opened Stored

  type Sources = Ordered<string, Source>

  const SOURCE_KEYS := {
    "id", "kind", "match_app_name", "match_app_names", "name", "icon_name", "node_name", "group",
    "level", "muted", "protected", "fx"}

  // ---------------------------------------------------------------- bindings

  /** `normalize_bindings`: trimmed, without blanks, each at its first place. */
  function NormalizeBindings(names: seq<string>): seq<string> {
    if names == [] then []
    else
      var before, last := NormalizeBindings(names[..|names| - 1]), Trim(names[|names| - 1]);
      if last == "" || last in before then before else before + [last]
  }

  predicate NormalBindings(names: seq<string>) {
    Distinct(names) && forall i :: 0 <= i < |names| ==> names[i] != "" && Trim(names[i]) == names[i]
  }

  lemma {:induction false} BindingsNormal(names: seq<string>)
    ensures NormalBindings(NormalizeBindings(names))
    ensures forall n :: n in NormalizeBindings(names) <==>
      n != "" && exists i :: 0 <= i < |names| && Trim(names[i]) == n
  {
    if names != [] {
      var before, last := names[..|names| - 1], names[|names| - 1];
      BindingsNormal(before);
      TrimTwice(last);
      hide Trim;
      assert names == before + [last];
      forall n
        ensures n in NormalizeBindings(names) <==> n != "" && exists i :: 0 <= i < |names| && Trim(names[i]) == n
      {
        if i :| 0 <= i < |names| && Trim(names[i]) == n {
          assert i < |before| ==> before[i] == names[i];
        }
        if n == Trim(last) {
          assert Trim(names[|names| - 1]) == n;
        }
        if i :| 0 <= i < |before| && Trim(before[i]) == n {
          assert names[i] == before[i];
        }
      }
    }
  }

  lemma {:induction false} NormalStays(names: seq<string>)
    requires NormalBindings(names)
    ensures NormalizeBindings(names) == names
  {
    if names != [] {
      var before, last := names[..|names| - 1], names[|names| - 1];
      NormalStays(before);
      assert names == before + [last];
    }
  }

  function DecodeNames(v: Json): Result<seq<string>> {
    if v.Array? && forall i :: 0 <= i < |v.items| ==> v.items[i].String?
    then Ok(seq(|v.items|, i requires 0 <= i < |v.items| => v.items[i].s))
    else Err(Invalid)
  }

  function EncodeNames(names: seq<string>): Json {
    Array(seq(|names|, i requires 0 <= i < |names| => String(names[i])))
  }

  lemma NamesBack(names: seq<string>)
    ensures DecodeNames(EncodeNames(names)) == Ok(names)
  {
    var items := EncodeNames(names).items;
    assert seq(|items|, i requires 0 <= i < |items| => items[i].s) == names;
  }

  /** A list of names, or the single one of old files. */
  function TakeBindings(fields: Fields): Result<seq<string>> {
    if "match_app_names" in fields && fields["match_app_names"] != Null then DecodeNames(fields["match_app_names"])
    else
      var legacy :- TakeString(fields, "match_app_name", "");
      Ok([legacy])
  }

  // ---------------------------------------------------------------- one source

  function DecodeKind(name: string): Result<SourceKind> {
    if name == "app" then Ok(App) else if name == "device" then Ok(Device) else Err(Invalid)
  }

  function EncodeKind(kind: SourceKind): string { if kind == App then "app" else "device" }

  function DefaultIcon(kind: SourceKind): string {
    if kind == Device then "audio-input-microphone-symbolic" else "applications-multimedia-symbolic"
  }

  function TakeFx(fields: Fields): Result<Option<FxSettings>> {
    if "fx" !in fields then Ok(None)
    else
      var fx :- DecodeFx(fields["fx"]);
      Ok(Some(fx))
  }

  function TakeLevel(parse: ParseNumber, fields: Fields): Result<real> {
    if "level" in fields then LegacyNumber(parse, fields["level"]) else Ok(1.0)
  }

  /** One source as stored, before the group rule. */
  function DecodeSource(parse: ParseNumber, id: string, v: Json): Result<Source> {
    var fields :- ObjectOf(v);
    var stated :- TakeString(fields, "id", id);
    if stated != id then Err(Invalid)
    else
      var kindName :- TakeString(fields, "kind", "app");
      var kind :- DecodeKind(kindName);
      var bindings :- TakeBindings(fields);
      var name :- TakeString(fields, "name", id);
      var iconName :- TakeString(fields, "icon_name", DefaultIcon(kind));
      var nodeName :- TakeString(fields, "node_name", "");
      var group :- TakeString(fields, "group", "");
      var level :- TakeLevel(parse, fields);
      var muted :- TakeBool(fields, "muted", false);
      var isProtected :- TakeBool(fields, "protected", false);
      var fx :- TakeFx(fields);
      Ok(Source(kind, name, iconName, NormalizeBindings(bindings), nodeName, level, muted, isProtected,
                Trim(group), fx, fields - SOURCE_KEYS))
  }

  function SourceFields(id: string, s: Source): Fields {
    map[
      "id" := String(id), "kind" := String(EncodeKind(s.kind)), "name" := String(s.name),
      "icon_name" := String(s.iconName), "match_app_names" := EncodeNames(s.matchAppNames),
      "node_name" := String(s.nodeName), "level" := Number(s.level), "muted" := Bool(s.muted),
      "protected" := Bool(s.isProtected), "group" := String(s.group)]
  }

  function FxField(fx: Option<FxSettings>): Fields {
    if fx.Some? then map["fx" := EncodeFx(fx.value)] else map[]
  }

  function EncodeSource(id: string, s: Source): Json {
    Object(SourceFields(id, s) + FxField(s.fx) + s.extra)
  }

  predicate GoodSource(s: Source) {
    && 0.0 <= s.level <= 1.0 && Trim(s.group) == s.group && NormalBindings(s.matchAppNames)
    && (s.fx.Some? ==> GoodFx(s.fx.value)) && s.extra.Keys !! SOURCE_KEYS
  }

  lemma LevelGood(parse: ParseNumber, fields: Fields)
    ensures TakeLevel(parse, fields).Ok? ==> 0.0 <= TakeLevel(parse, fields).value <= 1.0
  {}

  lemma FxFieldGood(fields: Fields)
    ensures TakeFx(fields).Ok? && TakeFx(fields).value.Some? ==> GoodFx(TakeFx(fields).value.value)
  {
    if "fx" in fields {
      FxGood(fields["fx"]);
      hide DecodeFx, GoodFx;
    }
  }

  lemma SourceGood(parse: ParseNumber, id: string, v: Json)
    ensures DecodeSource(parse, id, v).Ok? ==> GoodSource(DecodeSource(parse, id, v).value)
  {
    hide NormalizeBindings, NormalBindings, Trim, GoodFx, TakeBindings, DecodeKind, TakeLevel, TakeFx, TakeString,
      TakeBool;
    if DecodeSource(parse, id, v).Ok? {
      var fields := v.fields;
      LevelGood(parse, fields);
      FxFieldGood(fields);
      BindingsNormal(TakeBindings(fields).value);
      TrimTwice(TakeString(fields, "group", "").value);
    }
  }

  lemma SourceFieldsHave(id: string, s: Source)
    ensures var f := SourceFields(id, s);
      && f.Keys == SOURCE_KEYS - {"fx", "match_app_name"}
      && f["id"] == String(id) && f["kind"] == String(EncodeKind(s.kind)) && f["name"] == String(s.name)
      && f["icon_name"] == String(s.iconName) && f["match_app_names"] == EncodeNames(s.matchAppNames)
      && f["node_name"] == String(s.nodeName) && f["level"] == Number(s.level) && f["muted"] == Bool(s.muted)
      && f["protected"] == Bool(s.isProtected) && f["group"] == String(s.group)
  {}

  lemma EncodedSource(id: string, s: Source, f: Fields)
    requires GoodSource(s) && EncodeSource(id, s) == Object(f)
    ensures f - SOURCE_KEYS == s.extra
    ensures SOURCE_KEYS - {"fx", "match_app_name"} <= f.Keys
    ensures "fx" in f <==> s.fx.Some?
    ensures s.fx.Some? ==> f["fx"] == EncodeFx(s.fx.value)
    ensures forall k :: k in SOURCE_KEYS - {"fx", "match_app_name"} ==> f[k] == SourceFields(id, s)[k]
  {
    SourceFieldsHave(id, s);
    hide SourceFields, EncodeFx, GoodFx, NormalBindings, Trim;
    assert forall k :: k in s.extra ==> k !in SOURCE_KEYS;
    assert "fx" in SOURCE_KEYS;
  }

  lemma SourceBack(parse: ParseNumber, id: string, s: Source)
    requires GoodSource(s)
    ensures DecodeSource(parse, id, EncodeSource(id, s)) == Ok(s)
  {
    hide SourceFields, EncodeSource, EncodeFx, DecodeFx, NormalizeBindings, Trim, EncodeNames, DecodeNames, GoodFx;
    EncodedIsObject(id, s);
    var f := EncodeSource(id, s).fields;
    EncodedSource(id, s, f);
    SourceFieldsHave(id, s);
    NamesBack(s.matchAppNames);
    NamesNotNull(s.matchAppNames);
    NormalStays(s.matchAppNames);
    if s.fx.Some? {
      FxBack(s.fx.value);
    }
  }

  /** An old source as a newer version stores it: its one binding in a list. */
  function Migrated(fields: Fields): Fields {
    if "match_app_names" in fields && fields["match_app_names"] != Null then fields - {"match_app_name"}
    else if "match_app_name" in fields && fields["match_app_name"].String? then
      (fields - {"match_app_name"})["match_app_names" := EncodeNames([fields["match_app_name"].s])]
    else fields
  }

  predicate SameAt(a: Fields, b: Fields, k: string) {
    (k in a <==> k in b) && (k in a ==> a[k] == b[k])
  }

  lemma SameSource(parse: ParseNumber, id: string, a: Fields, b: Fields)
    requires SameAt(a, b, "id") && SameAt(a, b, "kind") && SameAt(a, b, "name") && SameAt(a, b, "icon_name")
    requires SameAt(a, b, "node_name") && SameAt(a, b, "group") && SameAt(a, b, "level") && SameAt(a, b, "muted")
    requires SameAt(a, b, "protected") && SameAt(a, b, "fx")
    requires a - SOURCE_KEYS == b - SOURCE_KEYS && TakeBindings(a) == TakeBindings(b)
    ensures DecodeSource(parse, id, Object(a)) == DecodeSource(parse, id, Object(b))
  {
    assert TakeLevel(parse, a) == TakeLevel(parse, b) && TakeFx(a) == TakeFx(b);
    assert TakeString(a, "id", id) == TakeString(b, "id", id)
      && TakeString(a, "kind", "app") == TakeString(b, "kind", "app");
    assert forall name :: TakeString(a, "icon_name", name) == TakeString(b, "icon_name", name);
    assert TakeString(a, "name", id) == TakeString(b, "name", id)
      && TakeString(a, "group", "") == TakeString(b, "group", "");
    assert TakeString(a, "node_name", "") == TakeString(b, "node_name", "");
    assert TakeBool(a, "muted", false) == TakeBool(b, "muted", false);
    assert TakeBool(a, "protected", false) == TakeBool(b, "protected", false);
    hide TakeString, TakeBool, TakeLevel, TakeFx, TakeBindings, NormalizeBindings, Trim, DecodeKind, DefaultIcon,
      SameAt;
  }

  lemma MigratedKeeps(fields: Fields, k: string)
    requires k != "match_app_name" && k != "match_app_names"
    ensures SameAt(fields, Migrated(fields), k)
  {}

  lemma MigratedExtra(fields: Fields)
    ensures fields - SOURCE_KEYS == Migrated(fields) - SOURCE_KEYS
  {
    var now := Migrated(fields);
    assert "match_app_name" in SOURCE_KEYS && "match_app_names" in SOURCE_KEYS;
    forall k | k !in SOURCE_KEYS
      ensures SameAt(fields, now, k)
    {
      MigratedKeeps(fields, k);
    }
    hide Migrated;
    assert fields - SOURCE_KEYS == now - SOURCE_KEYS;
  }

  lemma MigratedBindings(fields: Fields)
    ensures TakeBindings(fields) == TakeBindings(Migrated(fields))
  {
    if "match_app_name" in fields && fields["match_app_name"].String? {
      NamesBack([fields["match_app_name"].s]);
    }
    hide DecodeNames, EncodeNames;
    if !("match_app_names" in fields && fields["match_app_names"] != Null) && "match_app_name" in fields
      && fields["match_app_name"].String? {
      assert Migrated(fields)["match_app_names"] == EncodeNames([fields["match_app_name"].s]);
      NamesNotNull([fields["match_app_name"].s]);
    }
  }

  /** Reading an old source is reading it migrated, errors included. */
  lemma LegacySource(parse: ParseNumber, id: string, fields: Fields)
    ensures DecodeSource(parse, id, Object(fields)) == DecodeSource(parse, id, Object(Migrated(fields)))
  {
    MigratedExtra(fields);
    MigratedBindings(fields);
    MigratedKeeps(fields, "id");
    MigratedKeeps(fields, "kind");
    MigratedKeeps(fields, "name");
    MigratedKeeps(fields, "icon_name");
    MigratedKeeps(fields, "node_name");
    MigratedKeeps(fields, "group");
    MigratedKeeps(fields, "level");
    MigratedKeeps(fields, "muted");
    MigratedKeeps(fields, "protected");
    MigratedKeeps(fields, "fx");
    hide Migrated, DecodeSource, SameAt, TakeBindings;
    SameSource(parse, id, fields, Migrated(fields));
  }

  lemma NamesNotNull(names: seq<string>)
    ensures EncodeNames(names) != Null
  {}

  lemma EncodedIsObject(id: string, s: Source)
    ensures EncodeSource(id, s).Object?
  {}

  // ---------------------------------------------------------------- all of them

  /** What the first sources made: the records, and the groups with an open member. */
  datatype Loaded = Loaded(at: map<string, Source>, open: set<string>)

  function Opens(s: Source): bool { !s.muted && s.group != "" }

  function WithSource(l: Loaded, id: string, s: Source): Loaded {
    Loaded(l.at[id := s.(muted := s.muted || (Opens(s) && s.group in l.open))],
           if Opens(s) then l.open + {s.group} else l.open)
  }

  function LoadUpTo(parse: ParseNumber, all: Ordered<string, Json>, n: nat): Result<Loaded>
    requires n <= |all.keys|
  {
    if n == 0 then Ok(Loaded(map[], {}))
    else
      var before :- LoadUpTo(parse, all, n - 1);
      if !StableId(all.keys[n - 1]) then Err(Invalid)
      else
        var s :- DecodeSource(parse, all.keys[n - 1], all.at[all.keys[n - 1]]);
        Ok(WithSource(before, all.keys[n - 1], s))
  }

  lemma {:induction false} LoadedKeys(parse: ParseNumber, all: Ordered<string, Json>, n: nat)
    requires n <= |all.keys| && LoadUpTo(parse, all, n).Ok?
    ensures forall id :: id in LoadUpTo(parse, all, n).value.at <==> id in all.keys[..n]
    ensures forall id :: id in LoadUpTo(parse, all, n).value.at ==> StableId(id)
  {
    hide StableId, DecodeSource;
    if n > 0 {
      LoadedKeys(parse, all, n - 1);
      assert all.keys[..n] == all.keys[..n - 1] + [all.keys[n - 1]];
    }
  }

  function DecodeSources(parse: ParseNumber, doc: Document): (r: Result<Sources>)
    ensures r.Ok? ==> doc.Members? && r.value.keys == doc.all.keys && LoadUpTo(parse, doc.all, |doc.all.keys|).Ok?
  {
    if doc.NotAnObject? then Err(Invalid)
    else
      var loaded :- LoadUpTo(parse, doc.all, |doc.all.keys|);
      LoadedKeys(parse, doc.all, |doc.all.keys|);
      assert doc.all.keys[..|doc.all.keys|] == doc.all.keys;
      Ok(OrderedMap(doc.all.keys, loaded.at))
  }

  /** `normalize_sources`. */
  method NormalizeSources(parse: ParseNumber, doc: Document) returns (r: Result<Sources>)
    ensures r == DecodeSources(parse, doc)
  {
    hide DecodeSource, StableId;
    if doc.NotAnObject? {
      return Err(Invalid);
    }
    var sources: map<string, Source>, openGroups: set<string> := map[], {};
    ghost var whole := LoadUpTo(parse, doc.all, |doc.all.keys|);
    for i := 0 to |doc.all.keys|
      invariant LoadUpTo(parse, doc.all, i) == Ok(Loaded(sources, openGroups))
    {
      var id := doc.all.keys[i];
      if !StableId(id) {
        LoadStops(parse, doc.all, i + 1, |doc.all.keys|);
        return Err(Invalid);
      }
      var decoded := DecodeSource(parse, id, doc.all.at[id]);
      if decoded.Err? {
        LoadStops(parse, doc.all, i + 1, |doc.all.keys|);
        return Err(decoded.code);
      }
      var source := decoded.value;
      var muted := source.muted;
      if !muted && source.group != "" {
        if source.group in openGroups {
          muted := true;
        }
        openGroups := openGroups + {source.group};
      }
      sources := sources[id := source.(muted := muted)];
    }
    LoadedKeys(parse, doc.all, |doc.all.keys|);
    assert doc.all.keys[..|doc.all.keys|] == doc.all.keys;
    r := Ok(OrderedMap(doc.all.keys, sources));
  }

  lemma {:induction false} LoadStops(parse: ParseNumber, all: Ordered<string, Json>, n: nat, m: nat)
    requires n <= m <= |all.keys| && LoadUpTo(parse, all, n).Err?
    ensures LoadUpTo(parse, all, m) == LoadUpTo(parse, all, n)
  {
    hide DecodeSource, StableId, WithSource;
    if n < m {
      LoadStops(parse, all, n, m - 1);
    }
  }

  // ---------------------------------------------------------------- the group rule

  /** The open groups are those of the unmuted sources, each of which is alone in its own. */
  ghost predicate Grouped(l: Loaded) {
    && ExclusiveGroups(l.at)
    && (forall g :: g in l.open <==> exists id :: id in l.at && Opens(l.at[id]) && l.at[id].group == g)
    && (forall id :: id in l.at ==> GoodSource(l.at[id]))
  }

  lemma StaysGrouped(l: Loaded, id: string, s: Source)
    requires Grouped(l) && id !in l.at && GoodSource(s)
    ensures Grouped(WithSource(l, id, s))
  {
    hide GoodSource;
    var after := WithSource(l, id, s);
    GoodMuted(s);
    forall g
      ensures g in after.open <==> exists o :: o in after.at && Opens(after.at[o]) && after.at[o].group == g
    {
      if o :| o in l.at && Opens(l.at[o]) && l.at[o].group == g {
        assert after.at[o] == l.at[o];
      }
      if Opens(s) && s.group == g && g !in l.open {
        assert Opens(after.at[id]) && after.at[id].group == g;
      }
    }
    forall a, b | a in after.at && b in after.at && a != b && after.at[a].group == after.at[b].group != ""
      ensures after.at[a].muted || after.at[b].muted
    {
      if a == id && Opens(l.at[b]) {
        assert l.at[b].group in l.open;
      } else if b == id && Opens(l.at[a]) {
        assert l.at[a].group in l.open;
      }
    }
  }

  lemma GoodMuted(s: Source)
    requires GoodSource(s)
    ensures GoodSource(s.(muted := true)) && GoodSource(s.(muted := s.muted))
  {}

  lemma {:induction false} LoadedGrouped(parse: ParseNumber, all: Ordered<string, Json>, n: nat)
    requires n <= |all.keys| && LoadUpTo(parse, all, n).Ok?
    ensures Grouped(LoadUpTo(parse, all, n).value)
  {
    hide DecodeSource, GoodSource, StableId, Grouped;
    if n > 0 {
      LoadedGrouped(parse, all, n - 1);
      LoadedKeys(parse, all, n - 1);
      var id := all.keys[n - 1];
      assert id !in all.keys[..n - 1];
      SourceGood(parse, id, all.at[id]);
      StaysGrouped(LoadUpTo(parse, all, n - 1).value, id, DecodeSource(parse, id, all.at[id]).value);
    } else {
      NoneGrouped();
    }
  }

  lemma NoneGrouped()
    ensures Grouped(Loaded(map[], {}))
  {}

  /** Whatever was stored, at most one member of a nonempty group comes up open. */
  lemma LoadedExclusive(parse: ParseNumber, doc: Document)
    requires DecodeSources(parse, doc).Ok?
    ensures ExclusiveGroups(DecodeSources(parse, doc).value.at)
    ensures forall id :: id in DecodeSources(parse, doc).value.at ==>
      StableId(id) && GoodSource(DecodeSources(parse, doc).value.at[id])
  {
    LoadedGrouped(parse, doc.all, |doc.all.keys|);
    LoadedKeys(parse, doc.all, |doc.all.keys|);
    hide LoadUpTo, GoodSource, ExclusiveGroups;
  }

  /** Only the mute of a source is ever changed: it stays open exactly when it was stored
      open and no source before it was stored open in the same group. */
  lemma {:induction false} FirstStaysOpen(parse: ParseNumber, all: Ordered<string, Json>, n: nat, k: nat)
    requires k < n <= |all.keys| && LoadUpTo(parse, all, n).Ok?
    ensures forall j :: 0 <= j < n ==> DecodeSource(parse, all.keys[j], all.at[all.keys[j]]).Ok?
    ensures var at := LoadUpTo(parse, all, n).value.at;
      var s := DecodeSource(parse, all.keys[k], all.at[all.keys[k]]).value;
      && all.keys[k] in at
      && at[all.keys[k]] == s.(muted := s.muted || (Opens(s) && OpenBefore(parse, all, k, s.group)))
  {
    hide DecodeSource, StableId;
    DecodedBefore(parse, all, n);
    if k < n - 1 {
      FirstStaysOpen(parse, all, n - 1, k);
      assert all.keys[k] != all.keys[n - 1];
    } else {
      OpenIs(parse, all, k);
    }
  }

  /** Some source before the k-th is stored open in the group. */
  predicate OpenBefore(parse: ParseNumber, all: Ordered<string, Json>, k: nat, group: string)
    requires k <= |all.keys|
  {
    exists j :: 0 <= j < k && StoredOpen(parse, all, j, group)
  }

  predicate StoredOpen(parse: ParseNumber, all: Ordered<string, Json>, j: nat, group: string)
    requires j < |all.keys|
  {
    var s := DecodeSource(parse, all.keys[j], all.at[all.keys[j]]);
    s.Ok? && Opens(s.value) && s.value.group == group
  }

  lemma {:induction false} DecodedBefore(parse: ParseNumber, all: Ordered<string, Json>, n: nat)
    requires n <= |all.keys| && LoadUpTo(parse, all, n).Ok?
    ensures forall j :: 0 <= j < n ==> DecodeSource(parse, all.keys[j], all.at[all.keys[j]]).Ok?
  {
    hide DecodeSource, StableId;
    if n > 0 {
      DecodedBefore(parse, all, n - 1);
    }
  }

  lemma {:induction false} OpenIs(parse: ParseNumber, all: Ordered<string, Json>, n: nat)
    requires n <= |all.keys| && LoadUpTo(parse, all, n).Ok?
    ensures forall g :: g in LoadUpTo(parse, all, n).value.open <==> OpenBefore(parse, all, n, g)
  {
    hide DecodeSource, StableId;
    if n > 0 {
      OpenIs(parse, all, n - 1);
      forall g
        ensures g in LoadUpTo(parse, all, n).value.open <==> OpenBefore(parse, all, n, g)
      {
        if OpenBefore(parse, all, n - 1, g) {
          var j :| 0 <= j < n - 1 && StoredOpen(parse, all, j, g);
          assert OpenBefore(parse, all, n, g);
        }
        if StoredOpen(parse, all, n - 1, g) {
          assert OpenBefore(parse, all, n, g);
        }
      }
    }
  }

  // ---------------------------------------------------------------- reloading

  function EncodeSources(sources: Sources): Result<Document> {
    Ok(Members(EncodedAll(sources)))
  }

  function EncodedAll(sources: Sources): (all: Ordered<string, Json>)
    ensures all.keys == sources.keys
    ensures forall id :: id in sources.at ==> id in all.at && all.at[id] == EncodeSource(id, sources.at[id])
  {
    OrderedMap(sources.keys, map id | id in sources.at :: EncodeSource(id, sources.at[id]))
  }

  /** The groups open among the first n sources. */
  predicate OpenAmong(sources: Sources, n: nat, group: string)
    requires n <= |sources.keys|
  {
    exists j :: 0 <= j < n && Opens(sources.at[sources.keys[j]]) && sources.at[sources.keys[j]].group == group
  }

  lemma OpenNext(sources: Sources, n: nat)
    requires n < |sources.keys| && ExclusiveGroups(sources.at)
    ensures var s := sources.at[sources.keys[n]];
      && (Opens(s) ==> !OpenAmong(sources, n, s.group))
      && (forall g :: OpenAmong(sources, n + 1, g) <==> OpenAmong(sources, n, g) || (Opens(s) && s.group == g))
  {}

  function FirstSources(sources: Sources, n: nat): map<string, Source>
    requires n <= |sources.keys|
  {
    map id | id in sources.keys[..n] :: sources.at[id]
  }

  lemma FirstNext(sources: Sources, n: nat)
    requires n < |sources.keys|
    ensures var id := sources.keys[n];
      FirstSources(sources, n + 1) == FirstSources(sources, n)[id := sources.at[id]]
  {
    assert sources.keys[..n + 1] == sources.keys[..n] + [sources.keys[n]];
  }

  lemma {:induction false} ReloadUpTo(parse: ParseNumber, sources: Sources, n: nat)
    requires n <= |sources.keys|
    requires ExclusiveGroups(sources.at)
    requires forall id :: id in sources.at ==> StableId(id) && GoodSource(sources.at[id])
    ensures var r := LoadUpTo(parse, EncodedAll(sources), n);
      && r.Ok?
      && r.value.at == FirstSources(sources, n)
      && (forall g :: g in r.value.open <==> OpenAmong(sources, n, g))
  {
    hide DecodeSource, EncodeSource, GoodSource, StableId, ExclusiveGroups, LoadUpTo, FirstSources, OpenAmong,
      EncodedAll, Opens;
    var all := EncodedAll(sources);
    if n == 0 {
      ReloadNone(parse, sources);
    } else {
      var id := sources.keys[n - 1];
      ReloadUpTo(parse, sources, n - 1);
      SourceBack(parse, id, sources.at[id]);
      OpenNext(sources, n - 1);
      FirstNext(sources, n - 1);
      assert LoadUpTo(parse, all, n - 1).Ok?;
      LoadNext(parse, all, n, LoadUpTo(parse, all, n - 1).value, sources.at[id]);
    }
  }

  lemma ReloadNone(parse: ParseNumber, sources: Sources)
    ensures LoadUpTo(parse, EncodedAll(sources), 0) == Ok(Loaded(FirstSources(sources, 0), {}))
    ensures forall g :: !OpenAmong(sources, 0, g)
  {}

  lemma LoadNext(parse: ParseNumber, all: Ordered<string, Json>, n: nat, before: Loaded, s: Source)
    requires 0 < n <= |all.keys| && LoadUpTo(parse, all, n - 1) == Ok(before)
    requires StableId(all.keys[n - 1]) && DecodeSource(parse, all.keys[n - 1], all.at[all.keys[n - 1]]) == Ok(s)
    requires Opens(s) ==> s.group !in before.open
    ensures LoadUpTo(parse, all, n) ==
      Ok(Loaded(before.at[all.keys[n - 1] := s], if Opens(s) then before.open + {s.group} else before.open))
  {
    hide DecodeSource, StableId;
  }

  lemma SourcesBack(parse: ParseNumber, doc: Document, sources: Sources)
    requires DecodeSources(parse, doc) == Ok(sources)
    ensures EncodeSources(sources).Ok? && DecodeSources(parse, EncodeSources(sources).value) == Ok(sources)
  {
    hide LoadUpTo, ExclusiveGroups, GoodSource, StableId, EncodeSource;
    LoadedExclusive(parse, doc);
    ReloadUpTo(parse, sources, |sources.keys|);
    assert sources.keys[..|sources.keys|] == sources.keys;
    assert FirstSources(sources, |sources.keys|) == sources.at;
  }

  /** Sources that were ever loaded reload as they are. */
  lemma SourceLaw(parse: ParseNumber)
    ensures CodecLaw(doc => DecodeSources(parse, doc), EncodeSources)
  {
    hide DecodeSources, EncodeSources;
    forall doc, sources: Sources | DecodeSources(parse, doc) == Ok(sources)
      ensures EncodeSources(sources).Ok? && DecodeSources(parse, EncodeSources(sources).value) == Ok(sources)
    {
      SourcesBack(parse, doc, sources);
    }
  }
}
