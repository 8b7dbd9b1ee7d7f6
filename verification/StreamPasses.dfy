/** What one pass of the mixer does with every stream, step by step, and what a run of
    passes keeps (mixer.rs). */
module StreamPasses {
  import opened Wrappers
  import opened Model
  import opened Strings
  import opened Outputs
  import opened StreamServers

  /** A stream that the snapshot still describes correctly. */
  ghost predicate Fresh(g: Graph, p: Place, id: NodeIdentity) {
    var s := StreamIn(g.streams, id);
    if id in p.streams then s.Some? && s.value == Stream(id, Some(p.streams[id]))
    else s.Some? ==> s.value == Stream(id, None)
  }

  /** An intake, or an owned sink that is being given up. */
  predicate Held(sink: string, sinks: map<string, OwnedSink>, kept: set<string>) {
    IntakeName(sink) || (sink in sinks && sink !in kept)
  }

  /** The sink of this name is one we loaded here, by its owner token. */
  predicate Ours(g: Graph, sinks: map<string, OwnedSink>, sink: string) {
    sink in sinks && sinks[sink].cookie == g.cookie && g.Owned(sink, sinks[sink].owner)
  }

  function OriginOf(was: Ledger, id: NodeIdentity): Option<string> {
    if id in was then was[id] else None
  }

  /** Nothing held the stream and no record of it is left; or it is back where it came
      from, with no record; or its sink is retained and its record is as it was, because
      the move was refused, there is nowhere to go, or the sink is not provably ours. A
      refused move may have sent it home all the same. */
  ghost predicate Resolved(
    id: NodeIdentity, p: Place, sinks: map<string, OwnedSink>, kept: set<string>,
    was: Ledger, now: Ledger, g: Graph, retained: set<string>, refused: set<NodeIdentity>)
  {
    var s, home := StreamIn(g.streams, id), HomeFor(g, OriginOf(was, id));
    if s.None? || s.value.sink.None? || !Held(s.value.sink.value, sinks, kept) then
      id !in now && (id in p.streams ==> !Held(p.streams[id], sinks, kept))
    else
      || (id !in now && home.Some? && id in p.streams && p.streams[id] == home.value)
      || (SameEntry(was, now, id) && s.value.sink.value in retained && id in p.streams
          && (p.streams[id] == s.value.sink.value || Some(p.streams[id]) == home)
          && if home.None? || !Ours(g, sinks, s.value.sink.value) then p.streams[id] == s.value.sink.value
            else id in refused)
  }

  ghost predicate SameEntry(was: Ledger, now: Ledger, id: NodeIdentity) {
    (id in now <==> id in was) && (id in now ==> now[id] == was[id])
  }

  /** Where an unclaimed stream goes: its origin if that is one output, else the default. */
  function HomeFor(g: Graph, origin: Option<string>): Option<string> {
    if origin.Some? && !OpenWaveName(origin.value) && |NamedOutputs(g.outputs, origin.value)| == 1 then origin
    else match Resolve("auto", WithoutWave(g.outputs), g.default, None)
      case Ok(Monitor(o)) => Some(o.nodeName)
      case _ => None
  }

  function NamedOutputs(outputs: seq<Output>, name: string): seq<Output> {
    if outputs == [] then []
    else (if outputs[0].nodeName == name then [outputs[0]] else []) + NamedOutputs(outputs[1..], name)
  }

  function WithoutWave(outputs: seq<Output>): seq<Output> {
    seq(|outputs|, i requires 0 <= i < |outputs| => outputs[i].(isWave := false))
  }

  /** Streams are only ever sent back to sinks that are not OpenWave's. */
  lemma HomeIsOutside(g: Graph, origin: Option<string>)
    ensures HomeFor(g, origin).Some? ==> !OpenWaveName(HomeFor(g, origin).value)
  {
    ResolveIs("auto", WithoutWave(g.outputs), g.default, None);
  }

  ghost predicate SamePlace(p: Place, q: Place, id: NodeIdentity) {
    (id in p.streams <==> id in q.streams) && (id in p.streams ==> p.streams[id] == q.streams[id])
  }

  ghost predicate OnlyMoves(p: Place, q: Place, id: NodeIdentity) {
    forall other :: other != id ==> SamePlace(p, q, other)
  }

  ghost predicate SameEntries(was: Ledger, now: Ledger, except: set<NodeIdentity>) {
    forall id :: id !in except ==> SameEntry(was, now, id)
  }

  function OriginIn(p: Place, id: NodeIdentity): Option<string> {
    if id in p.streams then Origin(Some(p.streams[id])) else None
  }

  /** OpenWave has something to put back: its own move, or a stray on a sink being given up. */
  ghost predicate Owing(p: Place, sinks: map<string, OwnedSink>, kept: set<string>, moved: Ledger, id: NodeIdentity) {
    id in moved || (id in p.streams && p.streams[id] in sinks && p.streams[id] !in kept)
  }

  /** Midway through restoring `all`: those done are resolved, nothing else has changed. */
  ghost predicate Restoring(
    g: Graph, p0: Place, p: Place, sinks: map<string, OwnedSink>, kept: set<string>, m0: Ledger, m: Ledger,
    all: set<NodeIdentity>, todo: set<NodeIdentity>, retained: set<string>, refused: set<NodeIdentity>)
  {
    && (forall id :: id !in all || id in todo ==> SamePlace(p0, p, id) && SameEntry(m0, m, id))
    && (forall id :: id in all && id !in todo ==> Resolved(id, p, sinks, kept, m0, m, g, retained, refused))
  }

  lemma RestoringStart(
    g: Graph, p: Place, sinks: map<string, OwnedSink>, kept: set<string>, m: Ledger, all: set<NodeIdentity>)
    ensures Restoring(g, p, p, sinks, kept, m, m, all, all, {}, {})
  {}

  lemma RestoringPick(
    g: Graph, p0: Place, p: Place, sinks: map<string, OwnedSink>, kept: set<string>, m0: Ledger, m: Ledger,
    all: set<NodeIdentity>, todo: set<NodeIdentity>, retained: set<string>, refused: set<NodeIdentity>,
    id: NodeIdentity)
    requires Restoring(g, p0, p, sinks, kept, m0, m, all, todo, retained, refused) && id in todo && Fresh(g, p0, id)
    ensures Fresh(g, p, id) && OriginOf(m, id) == OriginOf(m0, id)
  {
    assert SameEntry(m0, m, id);
    assert SamePlace(p0, p, id);
  }

  lemma RestoringStep(
    g: Graph, p0: Place, p1: Place, p2: Place, sinks: map<string, OwnedSink>, kept: set<string>,
    m0: Ledger, m1: Ledger, m2: Ledger, all: set<NodeIdentity>, todo: set<NodeIdentity>,
    r1: set<string>, r2: set<string>, f1: set<NodeIdentity>, f: set<NodeIdentity>, f2: set<NodeIdentity>,
    id: NodeIdentity,
    retain: set<string>)
    requires Restoring(g, p0, p1, sinks, kept, m0, m1, all, todo, r1, f1) && id in todo && todo <= all
    requires OnlyMoves(p1, p2, id) && SameEntries(m1, m2, {id}) && r2 == r1 + retain && f1 <= f2
    requires Resolved(id, p2, sinks, kept, m1, m2, g, retain, f) && f <= f2
    ensures Restoring(g, p0, p2, sinks, kept, m0, m2, all, todo - {id}, r2, f2)
  {
    forall other | other !in all || other in todo - {id}
      ensures SamePlace(p0, p2, other) && SameEntry(m0, m2, other)
    {
      assert SamePlace(p0, p1, other) && SameEntry(m0, m1, other);
      assert other != id ==> SamePlace(p1, p2, other) && SameEntry(m1, m2, other);
    }
    forall other | other in all && other !in todo - {id}
      ensures Resolved(other, p2, sinks, kept, m0, m2, g, r2, f2)
    {
      if other == id {
        assert SameEntry(m0, m1, id);
      } else {
        assert Resolved(other, p1, sinks, kept, m0, m1, g, r1, f1);
        assert SamePlace(p1, p2, other) && SameEntry(m1, m2, other);
      }
    }
  }

  lemma RestoringEnd(
    g: Graph, p0: Place, p: Place, sinks: map<string, OwnedSink>, kept: set<string>, m0: Ledger, m: Ledger,
    all: set<NodeIdentity>, wanted: set<NodeIdentity>, strays: set<NodeIdentity>, retained: set<string>,
    refused: set<NodeIdentity>)
    requires Restoring(g, p0, p, sinks, kept, m0, m, all, {}, retained, refused) && all == m0.Keys + strays - wanted
    requires strays == Strays(g, sinks, kept, m0)
    requires Plain(g) && forall id :: id !in wanted ==> Fresh(g, p0, id)
    ensures forall id :: id in wanted || !Owing(p0, sinks, kept, m0, id) ==>
      SamePlace(p0, p, id) && SameEntry(m0, m, id)
    ensures forall id :: id !in wanted && Owing(p0, sinks, kept, m0, id) ==>
      Resolved(id, p, sinks, kept, m0, m, g, retained, refused)
    ensures m.Keys <= m0.Keys && forall id :: id in m ==> m[id] == m0[id]
  {
    RestoreCovers(g, p0, sinks, kept, m0);
    forall id | id in m
      ensures id in m0 && m[id] == m0[id]
    {
      if id in all {
        assert Resolved(id, p, sinks, kept, m0, m, g, retained, refused);
      } else {
        assert SameEntry(m0, m, id);
      }
    }
  }

  // Streams that reached an owned sink without an OpenWave move.
  function Strays(g: Graph, sinks: map<string, OwnedSink>, kept: set<string>, moved: Ledger): set<NodeIdentity> {
    set s | s in g.streams && s.identity !in moved
      && s.sink.Some? && s.sink.value in sinks && s.sink.value !in kept :: s.identity
  }

  function IdsOf(g: Graph): set<NodeIdentity> {
    set s | s in g.streams :: s.identity
  }

  lemma StraysListed(g: Graph, sinks: map<string, OwnedSink>, kept: set<string>, moved: Ledger)
    ensures Strays(g, sinks, kept, moved) <= IdsOf(g)
  {}

  /** A listing says one thing of each stream. */
  ghost predicate Plain(g: Graph) {
    forall s, t :: s in g.streams && t in g.streams && s.identity == t.identity ==> s == t
  }

  lemma RestoreCovers(g: Graph, p: Place, sinks: map<string, OwnedSink>, kept: set<string>, moved: Ledger)
    requires Plain(g)
    ensures forall id :: Fresh(g, p, id) ==>
      (Owing(p, sinks, kept, moved, id) <==> id in moved.Keys + Strays(g, sinks, kept, moved))
  {
    forall id | Fresh(g, p, id)
      ensures Owing(p, sinks, kept, moved, id) <==> id in moved.Keys + Strays(g, sinks, kept, moved)
    {
      StreamInIs(g.streams, id);
    }
  }

  /** What one app source claims; `ready` if its intake may be used. */
  datatype Claims = Claims(intake: string, ready: bool, ids: seq<NodeIdentity>)

  function IdSet(ids: seq<NodeIdentity>): set<NodeIdentity> {
    set id | id in ids
  }

  function ClaimedIds(claims: seq<Claims>): seq<NodeIdentity> {
    if claims == [] then [] else ClaimedIds(claims[..|claims| - 1]) + claims[|claims| - 1].ids
  }

  lemma {:induction false} ClaimedPrefix(claims: seq<Claims>, n: nat)
    requires n <= |claims|
    ensures ClaimedIds(claims[..n]) <= ClaimedIds(claims)
  {
    if n < |claims| {
      var init := claims[..|claims| - 1];
      ClaimedPrefix(init, n);
      assert init[..n] == claims[..n];
    } else {
      assert claims[..n] == claims;
    }
  }

  lemma ClaimedNext(claims: seq<Claims>, i: nat)
    requires i < |claims|
    ensures ClaimedIds(claims[..i + 1]) == ClaimedIds(claims[..i]) + claims[i].ids
  {
    var part := claims[..i + 1];
    assert part[..|part| - 1] == claims[..i];
  }

  // No stream is claimed twice, so a source's claims are fresh until it is reached.
  lemma ClaimedSplit(claims: seq<Claims>, i: nat)
    requires i < |claims| && Distinct(ClaimedIds(claims))
    ensures ClaimedIds(claims[..i + 1]) == ClaimedIds(claims[..i]) + claims[i].ids
    ensures Distinct(claims[i].ids) && forall id :: id in claims[i].ids ==> id !in ClaimedIds(claims[..i])
  {
    hide ClaimedIds, Distinct;
    ClaimedNext(claims, i);
    ClaimedPrefix(claims, i + 1);
    DistinctParts(ClaimedIds(claims), ClaimedIds(claims[..i]), claims[i].ids);
  }

  lemma DistinctParts<T>(all: seq<T>, a: seq<T>, b: seq<T>)
    requires Distinct(all) && a + b <= all
    ensures Distinct(b) && forall x :: x in b ==> x !in a
  {
    assert forall j :: 0 <= j < |a| ==> all[j] == a[j];
    assert forall j :: 0 <= j < |b| ==> all[|a| + j] == b[j];
  }

  lemma StillFresh(g: Graph, p: Place, q: Place, done: seq<NodeIdentity>, ids: seq<NodeIdentity>)
    requires forall id :: id !in done ==> Fresh(g, p, id)
    requires forall id :: id !in ids ==> SamePlace(p, q, id)
    ensures forall id :: id !in done + ids ==> Fresh(g, q, id)
  {
    forall id | id !in done + ids
      ensures Fresh(g, q, id)
    {
      assert Fresh(g, p, id) && SamePlace(p, q, id);
    }
  }

  lemma AllFresh(g: Graph, p: Place)
    requires Truthful(g, p)
    ensures Plain(g) && forall id :: Fresh(g, p, id)
    ensures forall id :: StreamIn(g.streams, id).Some? ==> id.cookie == g.cookie
  {
    forall id
      ensures Fresh(g, p, id)
      ensures StreamIn(g.streams, id).Some? ==> id.cookie == g.cookie
    {
      TruthfulStream(g, p, id);
      StreamInIs(g.streams, id);
    }
  }

  predicate Playing(g: Graph, name: string) {
    exists s :: s in g.streams && s.sink == Some(name)
  }

  lemma NothingPlays(g: Graph, p: Place, name: string)
    requires Truthful(g, p) && !Playing(g, name)
    ensures forall id :: id in p.streams ==> p.streams[id] != name
  {}

  lemma NothingOwed(
    g: Graph, p0: Place, p: Place, sinks: map<string, OwnedSink>, was: Ledger, now: Ledger,
    retained: set<string>, refused: set<NodeIdentity>)
    requires forall id :: Owing(p0, sinks, {}, was, id) ==> Resolved(id, p, sinks, {}, was, now, g, retained, refused)
    requires now.Keys <= was.Keys
    ensures retained == {} ==> now == map[]
  {
    if retained == {} {
      forall id | id in now
        ensures false
      {
        assert Owing(p0, sinks, {}, was, id);
      }
    }
  }

  /** A claimed stream plays into the intake, or its move there was refused; one that was
      not there is left alone. */
  ghost predicate Into(p: Place, q: Place, id: NodeIdentity, intake: string, refused: set<NodeIdentity>) {
    if id in p.streams then
      id in q.streams && (q.streams[id] == intake || (q.streams[id] == p.streams[id] && id in refused))
    else id !in q.streams
  }

  /** A move of a stream that we hold, out of a sink that is provably ours, to its home. */
  ghost predicate Homeward(m: Move, g: Graph, sinks: map<string, OwnedSink>, kept: set<string>,
      origin: Option<string>) {
    m.from.Some? && Held(m.from.value, sinks, kept) && Ours(g, sinks, m.from.value) && HomeFor(g, origin) == Some(m.to)
  }

  /** Claims end no trip. One that they begin starts from where the stream was, and is
      told of exactly if no move of that stream was refused. */
  ghost predicate Begun(was: Trips, now: Trips, p: Place, ids: set<NodeIdentity>, refused: set<NodeIdentity>) {
    && (forall id :: id in was ==> id in now && now[id].origin == was[id].origin && now[id].told == was[id].told)
    && (forall id :: id in now && id !in was ==>
          id in ids && now[id].origin == OriginIn(p, id) && (now[id].told <==> id !in refused))
  }

  lemma NoneBegun(h: Trips, p: Place, refused: set<NodeIdentity>)
    ensures Begun(h, h, p, {}, refused)
  {}

  lemma BegunMore(
    h0: Trips, h1: Trips, h2: Trips, p0: Place, p1: Place, done: set<NodeIdentity>, ids: set<NodeIdentity>,
    moves: seq<Move>, more: seq<Move>, n: nat)
    requires n <= |moves| && moves <= more && done !! ids
    requires Begun(h0, h1, p0, done, RefusedSince(moves, n)) && Begun(h1, h2, p1, ids, RefusedSince(more, |moves|))
    requires forall id :: id in ids ==> SamePlace(p0, p1, id)
    requires forall m :: m in moves[n..] ==> m.stream !in ids
    requires forall m :: m in more[|moves|..] ==> m.stream in ids
    ensures Begun(h0, h2, p0, done + ids, RefusedSince(more, n))
  {
    MovesSplit(moves, more, n);
  }

  /** Trips end only with the stream off the intakes. */
  ghost predicate EndedOff(was: Trips, now: Trips, p: Place, ids: set<NodeIdentity>) {
    && now.Keys <= was.Keys
    && forall id :: id in was ==> (id in now && now[id] == was[id]) || (id in ids && !OnIntake(p, id))
  }

  lemma NoneEnded(h: Trips, p: Place)
    ensures EndedOff(h, h, p, {})
  {}

  lemma EndedAmong(was: Trips, now: Trips, p: Place, ids: set<NodeIdentity>, more: set<NodeIdentity>)
    requires EndedOff(was, now, p, ids) && ids <= more
    ensures EndedOff(was, now, p, more)
  {}

  lemma EndedMore(h0: Trips, h1: Trips, h2: Trips, p1: Place, p2: Place, done: set<NodeIdentity>, id: NodeIdentity)
    requires EndedOff(h0, h1, p1, done) && EndedOff(h1, h2, p2, {id}) && OnlyMoves(p1, p2, id) && id !in done
    ensures EndedOff(h0, h2, p2, done + {id})
  {
    forall x | x in h0 && !(x in h2 && h2[x] == h0[x])
      ensures x in done + {id} && !OnIntake(p2, x)
    {
      if x in done {
        assert SamePlace(p1, p2, x);
      }
    }
  }

  lemma PlacesRefl(p: Place)
    ensures forall id :: SamePlace(p, p, id)
  {}

  lemma StillHere(g: Graph, p: Place, q: Place, id: NodeIdentity)
    requires Fresh(g, p, id) && SamePlace(p, q, id)
    ensures Fresh(g, q, id) && OriginIn(p, id) == OriginIn(q, id)
  {}

  lemma NoneRefused(moves: seq<Move>)
    ensures RefusedSince(moves, |moves|) == {} && moves[|moves|..] == []
  {}

  lemma MovesSplit(moves: seq<Move>, more: seq<Move>, n: nat)
    requires moves <= more && n <= |moves|
    ensures more[n..] == moves[n..] + more[|moves|..]
  {}

  lemma ClaimedMore(
    p0: Place, p1: Place, p2: Place, intake: string, done: seq<NodeIdentity>, id: NodeIdentity,
    moves: seq<Move>, more: seq<Move>, n: nat)
    requires n <= |moves| && moves <= more && id !in done
    requires forall x :: x in done ==> Into(p0, p1, x, intake, RefusedSince(moves, n))
    requires forall x :: x !in done ==> SamePlace(p0, p1, x)
    requires Into(p1, p2, id, intake, RefusedSince(more, |moves|)) && OnlyMoves(p1, p2, id)
    ensures forall x :: x in done + [id] ==> Into(p0, p2, x, intake, RefusedSince(more, n))
    ensures forall x :: x !in done + [id] ==> SamePlace(p0, p2, x)
    ensures more[n..] == moves[n..] + more[|moves|..]
  {
    RefusedMore(moves, more, n);
    MovesSplit(moves, more, n);
    hide RefusedSince;
    forall x | x in done + [id]
      ensures Into(p0, p2, x, intake, RefusedSince(more, n))
    {
      if x == id {
        assert SamePlace(p0, p1, id);
      } else {
        assert x in done && SamePlace(p1, p2, x);
      }
    }
    forall x | x !in done + [id]
      ensures SamePlace(p0, p2, x)
    {
      assert x !in done && x != id && SamePlace(p0, p1, x) && SamePlace(p1, p2, x);
    }
  }

  // ---------------------------------------------------------------- a pass

  /** One ready claim of this stream, for this move. */
  ghost predicate Claiming(claims: seq<Claims>, m: Move) {
    exists c :: c in claims && c.ready && m.stream in c.ids && m.to == c.intake && m.from != Some(c.intake)
  }

  predicate Ready(claims: seq<Claims>, n: nat, id: NodeIdentity)
    requires n <= |claims|
  {
    exists k :: 0 <= k < n && claims[k].ready && id in claims[k].ids
  }

  /** The first `n` claims are done: their streams are in, and no others have moved. */
  ghost predicate ClaimsMade(claims: seq<Claims>, n: nat, p: Place, q: Place, refused: set<NodeIdentity>)
    requires n <= |claims|
  {
    && (forall k, id :: 0 <= k < n && claims[k].ready && id in claims[k].ids ==>
      Into(p, q, id, claims[k].intake, refused))
    && (forall id :: !Ready(claims, n, id) ==> SamePlace(p, q, id))
  }

  ghost predicate RecordsMade(claims: seq<Claims>, n: nat, p: Place, was: Ledger, now: Ledger)
    requires n <= |claims|
  {
    && (forall id :: id in was ==> id in now && now[id] == was[id])
    && (forall id :: id in now && id !in was ==> Ready(claims, n, id) && now[id] == OriginIn(p, id))
  }

  lemma ClaimsStart(claims: seq<Claims>, p: Place, m: Ledger, h: Trips, refused: set<NodeIdentity>)
    ensures ClaimsMade(claims, 0, p, p, refused) && RecordsMade(claims, 0, p, m, m)
    ensures Begun(h, h, p, IdSet(ClaimedIds(claims[..0])), refused)
  {
    assert claims[..0] == [];
  }

  lemma {:induction false} ClaimedHas(claims: seq<Claims>, i: nat, k: nat, id: NodeIdentity)
    requires k < i <= |claims| && id in claims[k].ids
    ensures id in ClaimedIds(claims[..i])
  {
    hide ClaimedIds;
    ClaimedNext(claims, k);
    assert id in ClaimedIds(claims[..k + 1]);
    ClaimedPrefix(claims[..i], k + 1);
    assert claims[..i][..k + 1] == claims[..k + 1];
    var a, b := ClaimedIds(claims[..k + 1]), ClaimedIds(claims[..i]);
    var j :| 0 <= j < |a| && a[j] == id;
    assert b[j] == id;
  }

  lemma NotYetClaimed(claims: seq<Claims>, i: nat)
    requires i < |claims| && forall id :: id in claims[i].ids ==> id !in ClaimedIds(claims[..i])
    ensures forall id :: id in claims[i].ids ==> !Ready(claims, i, id)
  {
    forall id, k | id in claims[i].ids && 0 <= k < i && id in claims[k].ids
      ensures false
    {
      ClaimedHas(claims, i, k, id);
    }
  }

  lemma ClaimsNext(g: Graph, claims: seq<Claims>, i: nat, p0: Place, p1: Place, refused: set<NodeIdentity>)
    requires i < |claims| && forall id :: id in claims[i].ids ==> id !in ClaimedIds(claims[..i])
    requires ClaimsMade(claims, i, p0, p1, refused) && forall id :: Fresh(g, p0, id)
    ensures forall id :: id in claims[i].ids ==> Fresh(g, p1, id) && SamePlace(p0, p1, id)
  {
    NotYetClaimed(claims, i);
    forall id | id in claims[i].ids
      ensures Fresh(g, p1, id) && SamePlace(p0, p1, id)
    {
      StillHere(g, p0, p1, id);
    }
  }

  lemma ClaimsStep(
    claims: seq<Claims>, i: nat, p0: Place, p1: Place, p2: Place, moves: seq<Move>, more: seq<Move>, n: nat)
    requires i < |claims| && claims[i].ready && n <= |moves| && moves <= more
    requires forall id :: id in claims[i].ids ==> id !in ClaimedIds(claims[..i]) && SamePlace(p0, p1, id)
    requires ClaimsMade(claims, i, p0, p1, RefusedSince(moves, n))
    requires forall id :: id in claims[i].ids ==> Into(p1, p2, id, claims[i].intake, RefusedSince(more, |moves|))
    requires forall id :: id !in claims[i].ids ==> SamePlace(p1, p2, id)
    ensures ClaimsMade(claims, i + 1, p0, p2, RefusedSince(more, n))
  {
    RefusedMore(moves, more, n);
    hide RefusedSince;
    forall k, id | 0 <= k < i + 1 && claims[k].ready && id in claims[k].ids
      ensures Into(p0, p2, id, claims[k].intake, RefusedSince(more, n))
    {
      if k < i {
        ClaimedHas(claims, i, k, id);
        assert SamePlace(p1, p2, id);
      } else {
        assert SamePlace(p0, p1, id);
      }
    }
    forall id | !Ready(claims, i + 1, id)
      ensures SamePlace(p0, p2, id)
    {
      assert !Ready(claims, i, id) && id !in claims[i].ids;
      assert SamePlace(p0, p1, id) && SamePlace(p1, p2, id);
    }
  }

  lemma RecordsStep(claims: seq<Claims>, i: nat, p0: Place, p1: Place, m0: Ledger, m1: Ledger, m2: Ledger)
    requires i < |claims| && claims[i].ready && RecordsMade(claims, i, p0, m0, m1)
    requires forall id :: id in claims[i].ids ==> SamePlace(p0, p1, id)
    requires forall id :: id in m1 ==> id in m2 && m2[id] == m1[id]
    requires forall id :: id in m2 && id !in m1 ==> id in claims[i].ids && m2[id] == OriginIn(p1, id)
    ensures RecordsMade(claims, i + 1, p0, m0, m2)
  {
    forall id | id in m2 && id !in m0
      ensures Ready(claims, i + 1, id) && m2[id] == OriginIn(p0, id)
    {
      if id in m1 {
        assert Ready(claims, i, id);
      } else {
        assert SamePlace(p0, p1, id) && claims[i].ready && id in claims[i].ids;
      }
    }
  }

  lemma BegunStep(
    claims: seq<Claims>, i: nat, h0: Trips, h1: Trips, h2: Trips, p0: Place, p1: Place,
    moves: seq<Move>, more: seq<Move>, n: nat)
    requires i < |claims| && n <= |moves| && moves <= more
    requires ClaimedIds(claims[..i + 1]) == ClaimedIds(claims[..i]) + claims[i].ids
    requires forall id :: id in claims[i].ids ==> id !in ClaimedIds(claims[..i]) && SamePlace(p0, p1, id)
    requires Begun(h0, h1, p0, IdSet(ClaimedIds(claims[..i])), RefusedSince(moves, n))
    requires Begun(h1, h2, p1, IdSet(claims[i].ids), RefusedSince(more, |moves|))
    requires forall m :: m in moves[n..] ==> m.stream in ClaimedIds(claims[..i])
    requires forall m :: m in more[|moves|..] ==> m.stream in claims[i].ids
    ensures Begun(h0, h2, p0, IdSet(ClaimedIds(claims[..i + 1])), RefusedSince(more, n))
  {
    var done, ids := IdSet(ClaimedIds(claims[..i])), IdSet(claims[i].ids);
    hide Begun, SamePlace, RefusedSince;
    BegunMore(h0, h1, h2, p0, p1, done, ids, moves, more, n);
    assert IdSet(ClaimedIds(claims[..i + 1])) == done + ids;
  }

  lemma ClaimingStep(claims: seq<Claims>, i: nat, moves: seq<Move>, more: seq<Move>, n: nat)
    requires i < |claims| && claims[i].ready && n <= |moves| && moves <= more
    requires ClaimedIds(claims[..i + 1]) == ClaimedIds(claims[..i]) + claims[i].ids
    requires forall m :: m in moves[n..] ==> Claiming(claims, m) && m.stream in ClaimedIds(claims[..i])
    requires forall m :: m in more[|moves|..] ==>
      m.stream in claims[i].ids && m.to == claims[i].intake && m.from != Some(claims[i].intake)
    ensures forall m :: m in more[n..] ==> Claiming(claims, m) && m.stream in ClaimedIds(claims[..i + 1])
  {
    MovesSplit(moves, more, n);
    forall m | m in more[|moves|..]
      ensures Claiming(claims, m)
    {
      assert claims[i] in claims;
    }
  }

  lemma ClaimsSkip(
    claims: seq<Claims>, i: nat, p0: Place, p1: Place, m0: Ledger, m1: Ledger, refused: set<NodeIdentity>)
    requires i < |claims| && !claims[i].ready
    requires ClaimsMade(claims, i, p0, p1, refused) && RecordsMade(claims, i, p0, m0, m1)
    ensures ClaimsMade(claims, i + 1, p0, p1, refused) && RecordsMade(claims, i + 1, p0, m0, m1)
  {
    forall id
      ensures Ready(claims, i, id) <==> Ready(claims, i + 1, id)
    {
      if Ready(claims, i, id) {
        var k :| 0 <= k < i && claims[k].ready && id in claims[k].ids;
        assert k < i + 1;
      }
    }
  }

  lemma BegunSkip(claims: seq<Claims>, i: nat, h0: Trips, h1: Trips, p0: Place, refused: set<NodeIdentity>)
    requires i < |claims| && ClaimedIds(claims[..i + 1]) == ClaimedIds(claims[..i]) + claims[i].ids
    requires Begun(h0, h1, p0, IdSet(ClaimedIds(claims[..i])), refused)
    ensures Begun(h0, h1, p0, IdSet(ClaimedIds(claims[..i + 1])), refused)
  {}

  /** What a pass saw and did: the listing, where streams played then and once every stream
      had been dealt with, the sinks and records it began with, the names retained, the
      streams of which a move was refused and whether the pass got to its end. */
  datatype Sight = Sight(
    graph: Graph, before: Place, after: Place, sinks: map<string, OwnedSink>, was: Ledger,
    retained: set<string>, refused: set<NodeIdentity>, whole: bool)

  function KeptNames(claims: seq<Claims>, mixes: set<string>): set<string> {
    mixes + set c | c in claims :: c.intake
  }

  /** The listing is true of where streams played, and what was known of another server is not used. */
  ghost predicate Seen(s: Sight, cookie: Option<nat>, moved: Ledger) {
    Truthful(s.graph, s.before) && s.was == if cookie in {None, Some(s.graph.cookie)} then moved else map[]
  }

  /** What a pass does with one stream: a claim brings it into its intake; a claim that is
      not ready, or nothing at all to do with us, leaves it alone; otherwise it goes home,
      if the pass gets that far. */
  ghost predicate Conducted(id: NodeIdentity, claims: seq<Claims>, kept: set<string>, s: Sight, now: Ledger) {
    if Ready(claims, |claims|, id) then
      && (forall k :: 0 <= k < |claims| && claims[k].ready && id in claims[k].ids ==>
            Into(s.before, s.after, id, claims[k].intake, s.refused))
      && (id in s.was ==> id in now && now[id] == s.was[id])
      && (id !in s.was && id in now ==> now[id] == OriginIn(s.before, id))
    else if !s.whole || id in ClaimedIds(claims) || !Owing(s.before, s.sinks, kept, s.was, id) then
      SamePlace(s.before, s.after, id) && SameEntry(s.was, now, id)
    else Resolved(id, s.after, s.sinks, kept, s.was, now, s.graph, s.retained, s.refused)
  }

  /** Every move has its reason. */
  ghost predicate Warranted(m: Move, claims: seq<Claims>, kept: set<string>, s: Sight) {
    Claiming(claims, m)
    || (m.stream !in ClaimedIds(claims) && Homeward(m, s.graph, s.sinks, kept, OriginOf(s.was, m.stream)))
  }

  lemma ReadyIsClaimed(claims: seq<Claims>, id: NodeIdentity)
    requires Ready(claims, |claims|, id)
    ensures id in ClaimedIds(claims)
  {
    var k :| 0 <= k < |claims| && claims[k].ready && id in claims[k].ids;
    ClaimedHas(claims, |claims|, k, id);
    assert claims[..|claims|] == claims;
  }

  lemma UnclaimedFresh(g: Graph, claims: seq<Claims>, p: Place, q: Place, refused: set<NodeIdentity>)
    requires ClaimsMade(claims, |claims|, p, q, refused) && forall id :: Fresh(g, p, id)
    ensures forall id :: id !in ClaimedIds(claims) ==> Fresh(g, q, id)
  {
    forall id | id !in ClaimedIds(claims)
      ensures Fresh(g, q, id)
    {
      if Ready(claims, |claims|, id) {
        ReadyIsClaimed(claims, id);
      }
      StillHere(g, p, q, id);
    }
  }

  lemma AllConducted(
    claims: seq<Claims>, kept: set<string>, s: Sight, p1: Place, m1: Ledger, now: Ledger,
    moves: seq<Move>, more: seq<Move>, n: nat)
    requires n <= |moves| && moves <= more && s.refused == RefusedSince(more, n) && s.whole
    requires ClaimsMade(claims, |claims|, s.before, p1, RefusedSince(moves, n))
    requires RecordsMade(claims, |claims|, s.before, s.was, m1)
    requires forall id :: id in ClaimedIds(claims) || !Owing(p1, s.sinks, kept, m1, id) ==>
      SamePlace(p1, s.after, id) && SameEntry(m1, now, id)
    requires forall id :: id !in ClaimedIds(claims) && Owing(p1, s.sinks, kept, m1, id) ==>
      Resolved(id, s.after, s.sinks, kept, m1, now, s.graph, s.retained, RefusedSince(more, |moves|))
    ensures forall id :: Conducted(id, claims, kept, s, now)
  {
    RefusedMore(moves, more, n);
    hide RefusedSince, Conducted, Resolved, Owing, SamePlace, SameEntry, Into, Ready;
    forall id
      ensures Conducted(id, claims, kept, s, now)
    {
      if Ready(claims, |claims|, id) {
        ReadyIsClaimed(claims, id);
        ReadyConducted(claims, kept, s, p1, m1, now, RefusedSince(moves, n), id);
      } else {
        OthersConducted(claims, kept, s, p1, m1, now, RefusedSince(more, |moves|), id);
      }
    }
  }

  // A pass that ends after the claims leaves everything unclaimed alone.
  lemma AllHalted(claims: seq<Claims>, kept: set<string>, s: Sight, now: Ledger)
    requires !s.whole && ClaimsMade(claims, |claims|, s.before, s.after, s.refused)
    requires RecordsMade(claims, |claims|, s.before, s.was, now)
    ensures forall id :: Conducted(id, claims, kept, s, now)
  {
    hide Into;
  }

  // And one that ends before them, everything.
  lemma AllUnmoved(claims: seq<Claims>, kept: set<string>, s: Sight)
    requires !s.whole && s.after == s.before && forall c :: c in claims ==> !c.ready
    ensures forall id :: Conducted(id, claims, kept, s, s.was)
  {}

  lemma ReadyConducted(
    claims: seq<Claims>, kept: set<string>, s: Sight, p1: Place, m1: Ledger, now: Ledger,
    refused: set<NodeIdentity>, id: NodeIdentity)
    requires Ready(claims, |claims|, id) && refused <= s.refused
    requires forall k :: 0 <= k < |claims| && claims[k].ready && id in claims[k].ids ==>
      Into(s.before, p1, id, claims[k].intake, refused)
    requires RecordsMade(claims, |claims|, s.before, s.was, m1)
    requires SamePlace(p1, s.after, id) && SameEntry(m1, now, id)
    ensures Conducted(id, claims, kept, s, now)
  {}

  lemma OthersConducted(
    claims: seq<Claims>, kept: set<string>, s: Sight, p1: Place, m1: Ledger, now: Ledger,
    refused: set<NodeIdentity>, id: NodeIdentity)
    requires !Ready(claims, |claims|, id) && refused <= s.refused && s.whole
    requires SamePlace(s.before, p1, id) && RecordsMade(claims, |claims|, s.before, s.was, m1)
    requires id in ClaimedIds(claims) || !Owing(p1, s.sinks, kept, m1, id) ==>
      SamePlace(p1, s.after, id) && SameEntry(m1, now, id)
    requires id !in ClaimedIds(claims) && Owing(p1, s.sinks, kept, m1, id) ==>
      Resolved(id, s.after, s.sinks, kept, m1, now, s.graph, s.retained, refused)
    ensures Conducted(id, claims, kept, s, now)
  {
    SameRecord(claims, s, m1, id);
    SameOwing(s.before, p1, s.sinks, kept, s.was, m1, id);
    if id in ClaimedIds(claims) || !Owing(p1, s.sinks, kept, m1, id) {
      hide HomeFor, Held, Ours, Ready, Owing, Resolved;
    } else {
      ResolvedSince(id, s.after, s.sinks, kept, s.was, m1, now, s.graph, s.retained, refused, s.refused);
      hide HomeFor, Held, Ours, Ready, Owing, Resolved;
    }
  }

  lemma SameRecord(claims: seq<Claims>, s: Sight, m1: Ledger, id: NodeIdentity)
    requires !Ready(claims, |claims|, id) && RecordsMade(claims, |claims|, s.before, s.was, m1)
    ensures SameEntry(s.was, m1, id)
  {}

  lemma SameOwing(
    p: Place, q: Place, sinks: map<string, OwnedSink>, kept: set<string>, m: Ledger, m1: Ledger, id: NodeIdentity)
    requires SamePlace(p, q, id) && SameEntry(m, m1, id)
    ensures Owing(p, sinks, kept, m, id) <==> Owing(q, sinks, kept, m1, id)
  {}

  lemma ResolvedSince(
    id: NodeIdentity, p: Place, sinks: map<string, OwnedSink>, kept: set<string>, m: Ledger, m1: Ledger, now: Ledger,
    g: Graph, retained: set<string>, refused: set<NodeIdentity>, more: set<NodeIdentity>)
    requires Resolved(id, p, sinks, kept, m1, now, g, retained, refused) && refused <= more && SameEntry(m, m1, id)
    ensures Resolved(id, p, sinks, kept, m, now, g, retained, more)
  {
    assert OriginOf(m, id) == OriginOf(m1, id);
    hide HomeFor, Held, Ours;
  }

  lemma ClaimsWarranted(claims: seq<Claims>, kept: set<string>, s: Sight, moves: seq<Move>, n: nat)
    requires n <= |moves| && forall m :: m in moves[n..] ==> Claiming(claims, m)
    ensures forall m :: m in moves[n..] ==> Warranted(m, claims, kept, s)
  {}

  lemma AllWarranted(
    claims: seq<Claims>, kept: set<string>, s: Sight, m1: Ledger, moves: seq<Move>, more: seq<Move>, n: nat)
    requires n <= |moves| && moves <= more
    requires RecordsMade(claims, |claims|, s.before, s.was, m1)
    requires forall m :: m in moves[n..] ==> Claiming(claims, m)
    requires forall m :: m in more[|moves|..] ==>
      m.stream !in ClaimedIds(claims) && Homeward(m, s.graph, s.sinks, kept, OriginOf(m1, m.stream))
    ensures forall m :: m in more[n..] ==> Warranted(m, claims, kept, s)
  {
    MovesSplit(moves, more, n);
    hide Claiming, Homeward;
    forall m | m in more[|moves|..]
      ensures Warranted(m, claims, kept, s)
    {
      if m.stream in m1 && m.stream !in s.was {
        ReadyIsClaimed(claims, m.stream);
      }
    }
  }

  /** After a pass without trouble an unclaimed stream is still on an intake exactly when
      that intake is kept and the stream is not on record; otherwise it is home. */
  lemma LeftBehind(claims: seq<Claims>, kept: set<string>, s: Sight, now: Ledger, id: NodeIdentity)
    requires Truthful(s.graph, s.before) && Conducted(id, claims, kept, s, now) && s.whole
    requires id !in ClaimedIds(claims) && OnIntake(s.before, id)
    requires Ours(s.graph, s.sinks, s.before.streams[id]) && id !in s.refused
    requires HomeFor(s.graph, OriginOf(s.was, id)).Some?
    ensures OnIntake(s.after, id) <==> id !in s.was && s.before.streams[id] in kept
    ensures !OnIntake(s.after, id) ==>
      id in s.after.streams && Some(s.after.streams[id]) == HomeFor(s.graph, OriginOf(s.was, id)) && id !in now
  {
    var home := HomeFor(s.graph, OriginOf(s.was, id));
    TruthfulStream(s.graph, s.before, id);
    HomeIsOutside(s.graph, OriginOf(s.was, id));
    IntakesAreOurs(home.value);
    if Ready(claims, |claims|, id) {
      ReadyIsClaimed(claims, id);
    }
    hide HomeFor, Ours, Truthful, IntakeName;
  }

  // ---------------------------------------------------------------- runs of passes

  lemma KnownRefl(h: Trips)
    ensures KnownKept(h, h)
  {}

  lemma KnownTrans(a: Trips, b: Trips, c: Trips)
    requires KnownKept(a, b) && KnownKept(b, c)
    ensures KnownKept(a, c)
  {}

  /** What is left of a table: entries go whole, and only once no sink had the name at some
      instant since the `n`th, or for one of the names `except`. */
  ghost predicate Swept<T>(
    all: map<string, T>, left: map<string, T>, stages: seq<map<string, SinkNode>>, n: nat, except: set<string>)
  {
    && left.Keys <= all.Keys && (forall name :: name in left ==> left[name] == all[name])
    && forall name :: name in all && name !in left ==> name in except || Gone(stages, n, name)
  }

  lemma SweptNone<T>(all: map<string, T>, stages: seq<map<string, SinkNode>>, n: nat, except: set<string>)
    ensures Swept(all, all, stages, n, except)
  {}

  ghost predicate Fewer<T>(now: map<string, T>, was: map<string, T>) {
    forall name :: name in now ==> name in was && now[name] == was[name]
  }

  lemma FewerSame<T>(m: map<string, T>)
    ensures Fewer(m, m)
  {}

  lemma FewerLess<T>(now: map<string, T>, mid: map<string, T>, was: map<string, T>, name: string)
    requires Fewer(mid, was) && (now == mid || now == mid - {name})
    ensures Fewer(now, was)
  {}

  lemma SweptSince<T>(
    all: map<string, T>, left: map<string, T>, stages: seq<map<string, SinkNode>>, n: nat, k: nat, except: set<string>)
    requires Swept(all, left, stages, n, except) && k <= n
    ensures Swept(all, left, stages, k, except)
  {
    forall name | name in all && name !in left && name !in except
      ensures Gone(stages, k, name)
    {
      GoneStill(stages, stages, n, k, name);
    }
  }

  lemma SweptStill<T>(
    all: map<string, T>, left: map<string, T>, stages: seq<map<string, SinkNode>>, more: seq<map<string, SinkNode>>,
    n: nat, except: set<string>)
    requires Swept(all, left, stages, n, except) && stages <= more
    ensures Swept(all, left, more, n, except)
  {
    forall name | name in all && name !in left && name !in except
      ensures Gone(more, n, name)
    {
      GoneStill(stages, more, n, n, name);
    }
  }

  lemma SweptFewer<T>(
    all: map<string, T>, left: map<string, T>, stages: seq<map<string, SinkNode>>, n: nat, except: set<string>)
    requires Swept(all, left, stages, n, except)
    ensures Fewer(left, all)
  {
    hide Gone;
  }

  lemma SweptIs<T>(all: map<string, T>, left: map<string, T>, stages: seq<map<string, SinkNode>>, n: nat,
      except: set<string>)
    requires Swept(all, left, stages, n, except)
    ensures left.Keys <= all.Keys && forall name :: name in left ==> left[name] == all[name]
  {}

  lemma NoneOurs(acts: seq<Act>, wanted: set<string>, sinks: map<string, OwnedSink>,
      removed: map<string, PersistentSink>)
    ensures OnlyOurs(acts, |acts|, wanted, sinks, removed)
  {}

  lemma SweptMore<T>(
    all: map<string, T>, was: map<string, T>, now: map<string, T>, stages: seq<map<string, SinkNode>>,
    more: seq<map<string, SinkNode>>, n: nat, except: set<string>, name: string)
    requires Swept(all, was, stages, n, except) && stages <= more && n <= |stages|
    requires now == was || (now == was - {name} && (name in except || Gone(more, |stages|, name)))
    ensures Swept(all, now, more, n, except)
  {
    forall x | x in all && x !in now
      ensures x in except || Gone(more, n, x)
    {
      if x !in was && x !in except {
        GoneStill(stages, more, n, n, x);
      } else if x !in except {
        GoneStill(more, more, |stages|, n, x);
      }
    }
  }

  predicate OneMore(acts: seq<Act>, more: seq<Act>, e: Act, name: string) {
    more == acts + [e] && e.name == name
  }

  // At most one more command, about a sink that is still in the tables and not wanted.
  lemma MoreOurs(
    acts: seq<Act>, more: seq<Act>, n: nat, wanted: set<string>, sinks: map<string, OwnedSink>,
    all: map<string, OwnedSink>, removed: map<string, PersistentSink>, every: map<string, PersistentSink>, name: string)
    requires OnlyOurs(acts, n, wanted, all, every) && name !in wanted
    requires forall x :: x in sinks ==> x in all && sinks[x] == all[x]
    requires forall x :: x in removed ==> x in every && removed[x] == every[x]
    requires more == acts || exists e :: OneMore(acts, more, e, name) && (OwnUnload(e, sinks) || OwnDestroy(e, removed))
    ensures OnlyOurs(more, n, wanted, all, every) && acts <= more
  {}

  /** First the persistent sinks, then the modules. */
  lemma OursThen(
    acts: seq<Act>, more: seq<Act>, n: nat, wanted: set<string>, sinks: map<string, OwnedSink>,
    removed: map<string, PersistentSink>)
    requires n <= |acts| && acts <= more
    requires OnlyOurs(acts, n, wanted, map[], removed) && OnlyOurs(more, |acts|, wanted, sinks, map[])
    ensures OnlyOurs(more, n, wanted, sinks, removed)
  {
    assert forall i :: 0 <= i < |acts| ==> more[i] == acts[i];
  }

  lemma OursAnyway(
    acts: seq<Act>, n: nat, wanted: set<string>, sinks: map<string, OwnedSink>, removed: map<string, PersistentSink>)
    requires OnlyOurs(acts, n, wanted, sinks, removed)
    ensures OnlyOurs(acts, n, {}, sinks, removed)
  {}

  /** Modules going: what has left the table, and what was commanded. */
  ghost predicate Sweeping(
    all: map<string, OwnedSink>, sinks: map<string, OwnedSink>, stages: seq<map<string, SinkNode>>, m: nat,
    acts: seq<Act>, n: nat, wanted: set<string>)
  {
    Swept(all, sinks, stages, m, {}) && OnlyOurs(acts, n, wanted, all, map[])
  }

  lemma SweepingStart(
    all: map<string, OwnedSink>, stages: seq<map<string, SinkNode>>, acts: seq<Act>, wanted: set<string>)
    ensures Sweeping(all, all, stages, |stages|, acts, |acts|, wanted)
  {
    SweptNone(all, stages, |stages|, {});
    NoneOurs(acts, wanted, all, map[]);
  }

  lemma SweepingEnd(
    all: map<string, OwnedSink>, sinks: map<string, OwnedSink>, stages: seq<map<string, SinkNode>>, m: nat,
    acts: seq<Act>, n: nat, wanted: set<string>)
    requires Sweeping(all, sinks, stages, m, acts, n, wanted)
    ensures Swept(all, sinks, stages, m, {}) && OnlyOurs(acts, n, wanted, all, map[])
  {}

  lemma SweepingStep(
    all: map<string, OwnedSink>, was: map<string, OwnedSink>, now: map<string, OwnedSink>,
    stages: seq<map<string, SinkNode>>, stages': seq<map<string, SinkNode>>, m: nat, acts: seq<Act>, acts': seq<Act>,
    n: nat, wanted: set<string>, name: string)
    requires Sweeping(all, was, stages, m, acts, n, wanted) && name !in wanted
    requires stages <= stages' && m <= |stages|
      && (now == was || (now == was - {name} && Gone(stages', |stages|, name)))
    requires acts' == acts || exists e :: OneMore(acts, acts', e, name) && OwnUnload(e, was)
    ensures Sweeping(all, now, stages', m, acts', n, wanted) && acts <= acts'
  {
    hide OwnUnload, OwnDestroy;
    SweptIs(all, was, stages, m, {});
    SweptMore(all, was, now, stages, stages', m, {}, name);
    MoreOurs(acts, acts', n, wanted, was, all, map[], map[], name);
  }

  /** A trip whose first move was reported lasts until a pass ends with the stream off the
      intakes, or with another server. */
  ghost predicate TripsFollow(was: Trips, now: Trips, sight: Option<Sight>) {
    forall id :: id in was && was[id].told ==>
      || (id in now && now[id].origin == was[id].origin && now[id].told)
      || (sight.Some? && (id.cookie != sight.value.graph.cookie || !OnIntake(sight.value.after, id)))
  }

  lemma TracksTold(h: Trips, p: Place)
    requires Tracked(h, p)
    ensures forall id :: id in h && h[id].told ==> h[id].known
  {}

  lemma UnseenFollows(h: Trips, h0: Trips)
    requires KnownKept(h, h0) && forall id :: id in h && h[id].told ==> h[id].known
    ensures TripsFollow(h, h0, None)
  {}

  /** What a pass does to the streams of the server it knows ends no trip of which we were
      told, but with the stream off the intakes. */
  ghost predicate Lasting(was: Trips, now: Trips, p: Place) {
    forall id :: id in was && was[id].told ==>
      (id in now && now[id].origin == was[id].origin && now[id].told) || !OnIntake(p, id)
  }

  lemma LastingStill(h: Trips, p: Place)
    ensures Lasting(h, h, p)
  {}

  lemma TripsBegun(h1: Trips, h2: Trips, p: Place, q: Place, claimed: set<NodeIdentity>, refused: set<NodeIdentity>)
    requires Begun(h1, h2, p, claimed, refused)
    ensures Lasting(h1, h2, q)
  {}

  lemma TripsLast(
    h1: Trips, h2: Trips, h3: Trips, p: Place, q: Place, claimed: set<NodeIdentity>, ids: set<NodeIdentity>,
    refused: set<NodeIdentity>)
    requires Begun(h1, h2, p, claimed, refused) && EndedOff(h2, h3, q, ids)
    ensures Lasting(h1, h3, q)
  {}

  // Observations end only trips nobody knows of.
  lemma LastingOn(h1: Trips, h3: Trips, h4: Trips, q: Place)
    requires Lasting(h1, h3, q) && KnownKept(h3, h4) && forall id :: id in h3 && h3[id].told ==> h3[id].known
    ensures Lasting(h1, h4, q)
  {}

  lemma TripsThrough(h: Trips, h0: Trips, h1: Trips, h3: Trips, s: Sight, cookie: Option<nat>)
    requires KnownKept(h, h0) && (forall id :: id in h && h[id].told ==> h[id].known)
    requires forall id :: id in h0 ==> cookie == Some(id.cookie)
    requires if cookie in {None, Some(s.graph.cookie)} then h1 == h0 else h1 == map[]
    requires Lasting(h1, h3, s.after)
    ensures TripsFollow(h, h3, Some(s))
  {}

  /** One pass of a run: what it was asked, what it saw and did, and what then held. */
  datatype Turn = Turn(claims: seq<Claims>, mixes: set<string>, sight: Option<Sight>, home: Trips, moved: Ledger)

  /** Each pass deals with every stream by the rules, trips last as they should, and the
      record of each is the one possible. */
  ghost predicate Follows(was: Trips, t: Turn) {
    && TripsFollow(was, t.home, t.sight)
    && (forall id :: id in t.home ==> (t.home[id].told ==> t.home[id].known))
    && t.moved == Recorded(t.home)
    && (t.sight.Some? ==>
          Truthful(t.sight.value.graph, t.sight.value.before)
          && forall id :: Conducted(id, t.claims, KeptNames(t.claims, t.mixes), t.sight.value, t.moved))
  }

  function HomeAt(start: Trips, turns: seq<Turn>, n: nat): Trips
    requires n <= |turns|
  {
    if n == 0 then start else turns[n - 1].home
  }

  ghost predicate Ledgered(start: Trips, turns: seq<Turn>) {
    forall i :: 0 <= i < |turns| ==> Follows(HomeAt(start, turns, i), turns[i])
  }

  /** The pass ended with the stream on an intake of this server, or saw nothing. */
  ghost predicate StillIn(t: Turn, id: NodeIdentity) {
    t.sight.Some? ==> id.cookie == t.sight.value.graph.cookie && OnIntake(t.sight.value.after, id)
  }

  lemma TripGoesOn(was: Trips, t: Turn, id: NodeIdentity)
    requires Follows(was, t) && StillIn(t, id) && id in was && was[id].told
    ensures id in t.home && t.home[id].told && t.home[id].origin == was[id].origin
    ensures id in t.moved && t.moved[id] == was[id].origin
  {
    hide Conducted, Truthful, OnIntake, Recorded;
    RecordedTold(t.home, id);
  }

  /** Over any run: a stream that OpenWave displaced, and was told so, stays on record with
      its first origin through however many intakes and passes, until one of the passes ends
      with it off the intakes or on another server. */
  lemma {:induction false} Conserved(start: Trips, turns: seq<Turn>, i: nat, j: nat, id: NodeIdentity)
    requires Ledgered(start, turns) && i <= j <= |turns|
    requires id in HomeAt(start, turns, i) && HomeAt(start, turns, i)[id].told
    requires forall k :: i <= k < j ==> StillIn(turns[k], id)
    ensures id in HomeAt(start, turns, j) && HomeAt(start, turns, j)[id].told
    ensures HomeAt(start, turns, j)[id].origin == HomeAt(start, turns, i)[id].origin
    ensures j > i ==> id in turns[j - 1].moved && turns[j - 1].moved[id] == HomeAt(start, turns, i)[id].origin
  {
    hide Follows, StillIn, Ledgered, HomeAt, Recorded;
    if i < j {
      Conserved(start, turns, i, j - 1, id);
      LedgeredAt(start, turns, j - 1);
      TripGoesOn(HomeAt(start, turns, j - 1), turns[j - 1], id);
    }
  }

  lemma LedgeredAt(start: Trips, turns: seq<Turn>, k: nat)
    requires Ledgered(start, turns) && k < |turns|
    ensures Follows(HomeAt(start, turns, k), turns[k]) && HomeAt(start, turns, k + 1) == turns[k].home
  {
    hide Follows;
  }

  lemma LedgeredStart(start: Trips)
    ensures Ledgered(start, []) && HomeAt(start, [], 0) == start
  {}

  lemma LedgeredMore(start: Trips, turns: seq<Turn>, t: Turn)
    requires Ledgered(start, turns) && Follows(HomeAt(start, turns, |turns|), t)
    ensures Ledgered(start, turns + [t]) && HomeAt(start, turns + [t], |turns| + 1) == t.home
  {
    var all := turns + [t];
    hide Follows;
    forall i | 0 <= i < |all|
      ensures Follows(HomeAt(start, all, i), all[i])
    {
      assert HomeAt(start, all, i) == HomeAt(start, turns, i);
    }
  }
}
