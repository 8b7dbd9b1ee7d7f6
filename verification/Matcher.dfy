/** Which source claims a stream (routing.rs): an index by bound name against the rule it
    implements. Normalisation of names (whitespace, case folding) is a parameter. */
module Matcher {
  import opened Wrappers
  import opened Model
  import opened Strings

  /** A stream and its four names, the most specific first, already normalised. */
  datatype Stream = Stream(identity: NodeIdentity, names: seq<string>)

  type Normalize = string -> string

  /** `NormalizedStream::new`: application, node, binary and the binary's file name. */
  function NewStream(norm: Normalize, identity: NodeIdentity, app: string, node: string, binary: string): Stream {
    Stream(identity, [norm(app), norm(node), norm(binary), norm(FileName(binary))])
  }

  function FileName(path: string): string {
    if path == [] || path[|path| - 1] == '/' then [] else FileName(path[..|path| - 1]) + [path[|path| - 1]]
  }

  // ---------------------------------------------------------------- the rule

  predicate BoundName(norm: Normalize, bound: seq<string>, name: string) {
    name != "" && exists i :: 0 <= i < |bound| && norm(bound[i]) == name
  }

  predicate Binds(norm: Normalize, sources: map<string, Source>, id: string, name: string) {
    id in sources && sources[id].kind == App && BoundName(norm, sources[id].matchAppNames, name)
  }

  predicate CatchesAll(sources: map<string, Source>, id: string) {
    id in sources && sources[id].kind == App && sources[id].CatchAll()
  }

  ghost predicate LeastBinder(norm: Normalize, sources: map<string, Source>, name: string, id: string) {
    Binds(norm, sources, id, name) && forall other :: Binds(norm, sources, other, name) ==> !Less(other, id)
  }

  ghost predicate Unbound(norm: Normalize, sources: map<string, Source>, name: string) {
    forall id :: !Binds(norm, sources, id, name)
  }

  ghost predicate LeastCatchAll(sources: map<string, Source>, id: string) {
    CatchesAll(sources, id) && forall other :: CatchesAll(sources, other) ==> !Less(other, id)
  }

  ghost predicate IsFallback(sources: map<string, Source>, fallback: Option<string>) {
    match fallback
    case Some(id) => LeastCatchAll(sources, id)
    case None => forall id :: !CatchesAll(sources, id)
  }

  /** The rule: the least source binding the first name that any source binds, else the
      least source that catches all. The order of the sources has no part in it. */
  ghost predicate Owns(norm: Normalize, sources: map<string, Source>, names: seq<string>, owner: Option<string>) {
    if names == [] then IsFallback(sources, owner)
    else if Unbound(norm, sources, names[0]) then Owns(norm, sources, names[1..], owner)
    else owner.Some? && LeastBinder(norm, sources, names[0], owner.value)
  }

  lemma {:induction false} OwnerUnique(norm: Normalize, sources: map<string, Source>, names: seq<string>,
      a: Option<string>, b: Option<string>)
    requires Owns(norm, sources, names, a) && Owns(norm, sources, names, b)
    ensures a == b
  {
    if a.Some? && b.Some? {
      LessTotal(a.value, b.value);
    }
    if names != [] && Unbound(norm, sources, names[0]) {
      OwnerUnique(norm, sources, names[1..], a, b);
    }
  }

  // ---------------------------------------------------------------- the index

  function Lookup(bindings: map<string, string>, fallback: Option<string>, names: seq<string>): Option<string> {
    if names == [] then fallback
    else if names[0] in bindings then Some(bindings[names[0]])
    else Lookup(bindings, fallback, names[1..])
  }

  /** Every bound name has its least binder. */
  ghost predicate Indexed(norm: Normalize, sources: map<string, Source>, bindings: map<string, string>) {
    && (forall name :: name in bindings ==> LeastBinder(norm, sources, name, bindings[name]))
    && (forall name :: name !in bindings ==> Unbound(norm, sources, name))
  }

  lemma {:induction false} LookupOwns(
    norm: Normalize, sources: map<string, Source>, bindings: map<string, string>, fallback: Option<string>,
    names: seq<string>)
    requires Indexed(norm, sources, bindings) && IsFallback(sources, fallback)
    ensures Owns(norm, sources, names, Lookup(bindings, fallback, names))
  {
    if names != [] {
      LookupOwns(norm, sources, bindings, fallback, names[1..]);
      if names[0] in bindings {
        assert LeastBinder(norm, sources, names[0], bindings[names[0]]);
        assert Binds(norm, sources, bindings[names[0]], names[0]);
      }
    }
  }

  /** The bindings hold the least identifier of each name among the pairs seen so far. */
  ghost predicate Least(bindings: map<string, string>, pairs: set<(string, string)>) {
    && (forall name :: name in bindings ==> (name, bindings[name]) in pairs)
    && (forall pair :: pair in pairs ==> pair.0 in bindings && !Less(pair.1, bindings[pair.0]))
  }

  function Bound(bindings: map<string, string>, name: string, id: string): map<string, string> {
    if name in bindings && !Less(id, bindings[name]) then bindings else bindings[name := id]
  }

  lemma LeastGrows(bindings: map<string, string>, pairs: set<(string, string)>, name: string, id: string)
    requires Least(bindings, pairs)
    ensures Least(Bound(bindings, name, id), pairs + {(name, id)})
  {
    var after := Bound(bindings, name, id);
    LessTotal(id, id);
    forall pair | pair in pairs
      ensures pair.0 in after && !Less(pair.1, after[pair.0])
    {
      if pair.0 == name && after[name] == id && Less(pair.1, id) {
        if Less(id, bindings[name]) {
          LessTrans(pair.1, id, bindings[name]);
        }
      }
    }
  }

  class NormalizedMatcher {
    const norm: Normalize
    ghost const sources: map<string, Source>
    const keys: seq<string>
    const bindings: map<string, string>
    const fallback: Option<string>

    ghost predicate Valid() {
      && Indexed(norm, sources, bindings) && IsFallback(sources, fallback)
      && Distinct(keys) && (forall id :: id in sources <==> id in keys)
    }

    constructor (norm: Normalize, all: Ordered<string, Source>)
      ensures Valid() && this.norm == norm && sources == all.at && keys == all.keys
    {
      hide Less, BoundName;
      var table: map<string, string> := map[];
      var rest: Option<string> := None;
      ghost var pairs: set<(string, string)> := {};
      for i := 0 to |all.keys|
        invariant Least(table, pairs)
        invariant forall pair :: pair in pairs <==> pair.1 in all.keys[..i] && Binds(norm, all.at, pair.1, pair.0)
        invariant rest.Some? ==> rest.value in all.keys[..i] && CatchesAll(all.at, rest.value)
        invariant forall k :: 0 <= k < i && CatchesAll(all.at, all.keys[k]) ==>
          rest.Some? && !Less(all.keys[k], rest.value)
      {
        var id := all.keys[i];
        var source := all.at[id];
        assert all.keys[..i + 1] == all.keys[..i] + [id];
        if source.kind == App {
          ghost var was := rest;
          if source.CatchAll() && (rest.None? || Less(id, rest.value)) {
            rest := Some(id);
          }
          StillLeast(all, i, was, rest);
          table, pairs := BindAll(norm, all, i, table, pairs);
        }
      }
      LessAll(all, rest);
      PairsIndex(norm, all, table, pairs);
      this.norm, sources, keys, bindings, fallback := norm, all.at, all.keys, table, rest;
    }

    /** `owner`. */
    method Owner(stream: Stream) returns (owner: Option<string>)
      requires Valid()
      ensures Owns(norm, sources, stream.names, owner)
      ensures owner == Lookup(bindings, fallback, stream.names)
      ensures owner.Some? ==> owner.value in keys
    {
      LookupOwns(norm, sources, bindings, fallback, stream.names);
      OwnerKnown(norm, sources, stream.names, Lookup(bindings, fallback, stream.names));
      var i := 0;
      while i < |stream.names|
        invariant i <= |stream.names|
        invariant Lookup(bindings, fallback, stream.names) == Lookup(bindings, fallback, stream.names[i..])
      {
        if stream.names[i] in bindings {
          return Some(bindings[stream.names[i]]);
        }
        i := i + 1;
      }
      owner := fallback;
    }

    /** `claim_normalized`: every source has a list, and each stream is appended to the
        list of its owner the first time it is seen. */
    method Claim(streams: seq<Stream>) returns (claims: Ordered<string, seq<NodeIdentity>>)
      requires Valid()
      ensures claims.keys == keys
      ensures forall id :: id in keys ==> claims.at[id] == ClaimedBy(bindings, fallback, streams, id)
    {
      hide ClaimedBy, SeenIn, Owns, Lookup;
      NothingClaimed(bindings, fallback);
      var lists: map<string, seq<NodeIdentity>> := map id | id in keys :: [];
      var seen: set<NodeIdentity> := {};
      for i := 0 to |streams|
        invariant forall identity :: identity in seen <==> SeenIn(streams[..i], identity)
        invariant forall id :: id in lists <==> id in keys
        invariant forall id :: id in keys ==> lists[id] == ClaimedBy(bindings, fallback, streams[..i], id)
      {
        var stream := streams[i];
        SeenNext(streams, i);
        forall id | id in keys
          ensures ClaimedBy(bindings, fallback, streams[..i + 1], id) ==
            if Sighting(bindings, fallback, streams, id, i)
            then ClaimedBy(bindings, fallback, streams[..i], id) + [stream.identity]
            else ClaimedBy(bindings, fallback, streams[..i], id)
        {
          ClaimedNext(bindings, fallback, streams, id, i);
        }
        if stream.identity !in seen {
          var owner := Owner(stream);
          if owner.Some? {
            lists := lists[owner.value := lists[owner.value] + [stream.identity]];
          }
        }
        seen := seen + {stream.identity};
      }
      assert streams[..|streams|] == streams;
      claims := OrderedMap(keys, lists);
    }
  }

  lemma SeenNext(streams: seq<Stream>, i: nat)
    requires i < |streams|
    ensures forall identity :: SeenIn(streams[..i + 1], identity) <==>
      SeenIn(streams[..i], identity) || streams[i].identity == identity
  {
    var less, more := streams[..i], streams[..i + 1];
    forall identity
      ensures SeenIn(more, identity) <==> SeenIn(less, identity) || streams[i].identity == identity
    {
      if k :| 0 <= k < |less| && less[k].identity == identity {
        assert more[k].identity == identity;
      }
      assert more[i] == streams[i];
      if k :| 0 <= k < |more| && more[k].identity == identity && k != i {
        assert less[k].identity == identity;
      }
    }
  }

  lemma ClaimedNext(bindings: map<string, string>, fallback: Option<string>, streams: seq<Stream>, id: string, i: nat)
    requires i < |streams|
    ensures ClaimedBy(bindings, fallback, streams[..i + 1], id) ==
      if Sighting(bindings, fallback, streams, id, i)
      then ClaimedBy(bindings, fallback, streams[..i], id) + [streams[i].identity]
      else ClaimedBy(bindings, fallback, streams[..i], id)
  {
    assert streams[..i + 1][..i] == streams[..i];
    ClaimedStep(bindings, fallback, streams[..i + 1], id);
    SamePrefix(bindings, fallback, streams, id, i + 1, i);
    hide ClaimedBy, Sighting;
  }

  lemma NothingClaimed(bindings: map<string, string>, fallback: Option<string>)
    ensures forall id :: ClaimedBy(bindings, fallback, [], id) == []
    ensures forall identity :: !SeenIn([], identity)
  {}

  /** The names one source binds, entered one by one. */
  method BindAll(norm: Normalize, all: Ordered<string, Source>, i: nat, table: map<string, string>,
      ghost pairs: set<(string, string)>)
    returns (after: map<string, string>, ghost more: set<(string, string)>)
    requires i < |all.keys| && all.at[all.keys[i]].kind == App
    requires Least(table, pairs)
    requires forall pair :: pair in pairs <==> pair.1 in all.keys[..i] && Binds(norm, all.at, pair.1, pair.0)
    ensures Least(after, more)
    ensures forall pair :: pair in more <==> pair.1 in all.keys[..i + 1] && Binds(norm, all.at, pair.1, pair.0)
  {
    hide Less, Least;
    var id := all.keys[i];
    var bound := all.at[id].matchAppNames;
    after, more := table, pairs;
    for j := 0 to |bound|
      invariant Least(after, more)
      invariant forall pair :: pair in more <==>
        pair in pairs || (pair.1 == id && BoundName(norm, bound[..j], pair.0))
    {
      var name := norm(bound[j]);
      assert bound[..j + 1] == bound[..j] + [bound[j]];
      BoundNameGrows(norm, bound[..j], bound[j]);
      if name != "" {
        LeastGrows(after, more, name, id);
        after, more := Bound(after, name, id), more + {(name, id)};
      }
    }
    assert bound[..|bound|] == bound;
    assert all.keys[..i + 1] == all.keys[..i] + [id];
  }

  lemma BoundNameGrows(norm: Normalize, bound: seq<string>, last: string)
    ensures forall name :: BoundName(norm, bound + [last], name) <==>
      BoundName(norm, bound, name) || (name != "" && norm(last) == name)
  {
    forall name
      ensures BoundName(norm, bound + [last], name) <==>
        BoundName(norm, bound, name) || (name != "" && norm(last) == name)
    {
      var both := bound + [last];
      assert both[|bound|] == last;
      if BoundName(norm, bound, name) {
        var i :| 0 <= i < |bound| && norm(bound[i]) == name;
        assert both[i] == bound[i];
      }
    }
  }

  lemma StillLeast(all: Ordered<string, Source>, i: nat, was: Option<string>, now: Option<string>)
    requires i < |all.keys|
    requires forall k :: 0 <= k < i && CatchesAll(all.at, all.keys[k]) ==> was.Some? && !Less(all.keys[k], was.value)
    requires now == was || (now == Some(all.keys[i]) && (was.None? || Less(all.keys[i], was.value)))
    requires now == was && CatchesAll(all.at, all.keys[i]) ==> was.Some? && !Less(all.keys[i], was.value)
    ensures forall k :: 0 <= k <= i && CatchesAll(all.at, all.keys[k]) ==> now.Some? && !Less(all.keys[k], now.value)
  {
    forall k | 0 <= k <= i && CatchesAll(all.at, all.keys[k])
      ensures now.Some? && !Less(all.keys[k], now.value)
    {
      if now != was {
        LessTotal(all.keys[i], all.keys[i]);
        if k < i && Less(all.keys[k], all.keys[i]) {
          LessTrans(all.keys[k], all.keys[i], was.value);
        }
      }
    }
  }

  lemma LessAll(all: Ordered<string, Source>, rest: Option<string>)
    requires rest.Some? ==> CatchesAll(all.at, rest.value)
    requires forall k :: 0 <= k < |all.keys| && CatchesAll(all.at, all.keys[k]) ==>
      rest.Some? && !Less(all.keys[k], rest.value)
    ensures IsFallback(all.at, rest)
  {
    forall id | CatchesAll(all.at, id)
      ensures rest.Some? && !Less(id, rest.value)
    {
      var k :| 0 <= k < |all.keys| && all.keys[k] == id;
    }
  }

  lemma PairsIndex(norm: Normalize, all: Ordered<string, Source>, table: map<string, string>,
      pairs: set<(string, string)>)
    requires Least(table, pairs)
    requires forall pair :: pair in pairs <==> pair.1 in all.keys[..|all.keys|] && Binds(norm, all.at, pair.1, pair.0)
    ensures Indexed(norm, all.at, table)
  {
    hide Less, BoundName;
    forall name, id | Binds(norm, all.at, id, name)
      ensures (name, id) in pairs && name in table && !Less(id, table[name])
    {
      assert id in all.keys && all.keys[..|all.keys|] == all.keys;
      assert (name, id).1 == id;
    }
    forall name | name in table
      ensures LeastBinder(norm, all.at, name, table[name])
    {
      assert (name, table[name]) in pairs;
    }
  }

  lemma {:induction false} OwnerKnown(norm: Normalize, sources: map<string, Source>, names: seq<string>,
      owner: Option<string>)
    requires Owns(norm, sources, names, owner)
    ensures owner.Some? ==> owner.value in sources && sources[owner.value].kind == App
  {
    if names != [] && Unbound(norm, sources, names[0]) {
      OwnerKnown(norm, sources, names[1..], owner);
    }
  }

  // ---------------------------------------------------------------- claims

  predicate SeenIn(streams: seq<Stream>, identity: NodeIdentity) {
    exists k :: 0 <= k < |streams| && streams[k].identity == identity
  }

  function ClaimedBy(bindings: map<string, string>, fallback: Option<string>, streams: seq<Stream>,
      id: string): seq<NodeIdentity> {
    if streams == [] then []
    else
      var before, last := streams[..|streams| - 1], streams[|streams| - 1];
      var claimed := ClaimedBy(bindings, fallback, before, id);
      if !SeenIn(before, last.identity) && Lookup(bindings, fallback, last.names) == Some(id)
      then claimed + [last.identity] else claimed
  }

  /** Position p is the first sighting of a stream that `id` owns. */
  predicate Sighting(bindings: map<string, string>, fallback: Option<string>, streams: seq<Stream>, id: string, p: nat)
    requires p < |streams|
  {
    !SeenIn(streams[..p], streams[p].identity) && Lookup(bindings, fallback, streams[p].names) == Some(id)
  }

  /** Exactly the sightings, in order. */
  ghost predicate Sightings(bindings: map<string, string>, fallback: Option<string>, streams: seq<Stream>, id: string,
      at: seq<nat>) {
    && (forall i :: 0 <= i < |at| ==> at[i] < |streams| && Sighting(bindings, fallback, streams, id, at[i]))
    && (forall i, j :: 0 <= i < j < |at| ==> at[i] < at[j])
    && (forall p :: 0 <= p < |streams| && Sighting(bindings, fallback, streams, id, p) ==> p in at)
  }

  lemma SamePrefix(bindings: map<string, string>, fallback: Option<string>, streams: seq<Stream>, id: string, n: nat,
      p: nat)
    requires p < n <= |streams|
    ensures Sighting(bindings, fallback, streams[..n], id, p) == Sighting(bindings, fallback, streams, id, p)
  {
    assert streams[..n][..p] == streams[..p];
  }

  lemma SightingsGrow(
    bindings: map<string, string>, fallback: Option<string>, streams: seq<Stream>, id: string, rest: seq<nat>,
    at: seq<nat>)
    requires |streams| > 0 && Sightings(bindings, fallback, streams[..|streams| - 1], id, rest)
    requires at == if Sighting(bindings, fallback, streams, id, |streams| - 1) then rest + [|streams| - 1] else rest
    ensures Sightings(bindings, fallback, streams, id, at)
  {
    hide Sighting;
    var n := |streams| - 1;
    forall i | 0 <= i < |at|
      ensures at[i] < |streams| && Sighting(bindings, fallback, streams, id, at[i])
    {
      if i < |rest| {
        SamePrefix(bindings, fallback, streams, id, n, rest[i]);
      }
    }
    forall p | 0 <= p < |streams| && Sighting(bindings, fallback, streams, id, p)
      ensures p in at
    {
      if p < n {
        SamePrefix(bindings, fallback, streams, id, n, p);
        assert p in rest;
      } else {
        assert at[|rest|] == n;
      }
    }
  }

  /** One more stream: its list grows by the stream exactly when it is a sighting. */
  lemma ClaimedStep(bindings: map<string, string>, fallback: Option<string>, streams: seq<Stream>, id: string)
    requires streams != []
    ensures var n := |streams| - 1;
      var rest := ClaimedBy(bindings, fallback, streams[..n], id);
      ClaimedBy(bindings, fallback, streams, id) ==
        if Sighting(bindings, fallback, streams, id, n) then rest + [streams[n].identity] else rest
  {
    hide SeenIn, Lookup;
  }

  /** A source's list is exactly the first sightings of the streams it owns, in order. */
  lemma {:induction false} ClaimsAreSightings(
    bindings: map<string, string>, fallback: Option<string>, streams: seq<Stream>, id: string) returns (at: seq<nat>)
    ensures Sightings(bindings, fallback, streams, id, at)
    ensures |at| == |ClaimedBy(bindings, fallback, streams, id)|
    ensures forall i :: 0 <= i < |at| ==>
      at[i] < |streams| && ClaimedBy(bindings, fallback, streams, id)[i] == streams[at[i]].identity
  {
    at := [];
    if streams != [] {
      hide ClaimedBy, Sighting, Sightings;
      var n := |streams| - 1;
      var rest := ClaimsAreSightings(bindings, fallback, streams[..n], id);
      ClaimedStep(bindings, fallback, streams, id);
      at := if Sighting(bindings, fallback, streams, id, n) then rest + [n] else rest;
      SightingsGrow(bindings, fallback, streams, id, rest, at);
    }
  }

  lemma SeenBefore(streams: seq<Stream>, x: nat, y: nat)
    requires x < y < |streams|
    ensures SeenIn(streams[..y], streams[x].identity)
  {
    assert streams[..y][x] == streams[x];
  }

  lemma FirstIsOne(streams: seq<Stream>, x: nat, y: nat)
    requires x < |streams| && y < |streams| && streams[x].identity == streams[y].identity
    requires !SeenIn(streams[..x], streams[x].identity) && !SeenIn(streams[..y], streams[y].identity)
    ensures x == y
  {
    if x < y {
      SeenBefore(streams, x, y);
    } else if y < x {
      SeenBefore(streams, y, x);
    }
  }

  /** Two sources never claim the same stream, and none claims it twice. */
  lemma ClaimedOnce(bindings: map<string, string>, fallback: Option<string>, streams: seq<Stream>, a: string, b: string,
      i: nat, j: nat)
    requires i < |ClaimedBy(bindings, fallback, streams, a)| && j < |ClaimedBy(bindings, fallback, streams, b)|
    requires ClaimedBy(bindings, fallback, streams, a)[i] == ClaimedBy(bindings, fallback, streams, b)[j]
    ensures a == b && i == j
  {
    hide ClaimedBy;
    var p := ClaimsAreSightings(bindings, fallback, streams, a);
    var q := ClaimsAreSightings(bindings, fallback, streams, b);
    FirstIsOne(streams, p[i], q[j]);
    FirstIsOne(streams, p[i], p[j]);
  }

  /** Every stream with an owner is claimed. */
  lemma OwnedIsClaimed(bindings: map<string, string>, fallback: Option<string>, streams: seq<Stream>, id: string,
      p: nat)
    requires p < |streams| && Sighting(bindings, fallback, streams, id, p)
    ensures streams[p].identity in ClaimedBy(bindings, fallback, streams, id)
  {
    hide ClaimedBy, Sighting;
    var at := ClaimsAreSightings(bindings, fallback, streams, id);
    var i :| 0 <= i < |at| && at[i] == p;
  }
}
