/** Moved application streams and owned sinks (mixer.rs): what OpenWave's moves do to
    where streams play, what it records of them, and when the two part ways; and no sink
    goes while a stream plays into it. */
module Streams {
  import opened Wrappers
  import opened Model
  import opened Strings
  import opened Outputs
  import opened StreamServers
  import opened StreamPasses
  import opened StreamSinks

  class Keeper {
    const server: StreamServer
    var mixes: seq<Mix>        // the mixes desired now
    ghost var asked: set<Mix>  // and all that ever were
    var cookie: Option<nat>
    var sinks: map<string, OwnedSink>
    var persistent: map<string, PersistentSink>
    var removed: map<string, PersistentSink>
    var moved: Ledger
    var routes: set<nat>   // helper processes
    var effects: set<nat>

    constructor (server: StreamServer)
      requires server.home == map[] && server.acts == []
      ensures this.server == server && Valid() && Accounted() && moved == map[] && sinks == map[]
    {
      this.server := server;
      mixes, asked, cookie := [], {}, None;
      sinks, persistent, removed, moved := map[], map[], map[], map[];
      routes, effects := {}, {};
    }

    /** The ledger is exactly what can be recorded of the displacements on this server. */
    ghost predicate Valid()
      reads this, server
    {
      && Tracked(server.home, server.place) && moved == Recorded(server.home)
      && (forall id :: id in server.home ==> cookie == Some(id.cookie))
      && (forall name :: name in sinks ==> OpenWaveName(name))
    }

    function Tables(): Table
      reads this
    {
      Table(sinks, persistent)
    }

    /** Every handle and every evidence of ours is accounted for by the log, and so is every
        sink that was taken away. */
    ghost predicate Accounted()
      reads this, server
    {
      && GoodMixes(mixes) && (forall m :: m in mixes ==> m in asked)
      && LoadedHere(server.acts, sinks) && OwnHistory(server.acts, asked)
      && AskedFor(persistent, asked) && AskedFor(removed, asked)
    }

    ghost predicate KnownHere(g: Graph, id: NodeIdentity)
      reads this
    {
      StreamIn(g.streams, id).Some? ==> cookie == Some(id.cookie)
    }

    /** Moves one claimed stream into its intake, unless it is there. */
    method ClaimOne(g: Graph, intake: string, id: NodeIdentity)
      requires Valid() && IntakeName(intake) && Fresh(g, server.place, id) && KnownHere(g, id)
      modifies this`moved, server`place, server`home, server`moves
      ensures Valid() && old(server.moves) <= server.moves
      ensures Into(old(server.place), server.place, id, intake, RefusedSince(server.moves, |old(server.moves)|))
      ensures OnlyMoves(old(server.place), server.place, id)
      ensures moved == old(moved) || (id !in old(moved) && moved == old(moved)[id := OriginIn(old(server.place), id)])
      ensures Begun(old(server.home), server.home, old(server.place), {id},
        RefusedSince(server.moves, |old(server.moves)|))
      ensures forall m :: m in server.moves[|old(server.moves)|..] ==>
        m.stream == id && m.to == intake && m.from != Some(intake)
    {
      var stream := StreamIn(g.streams, id);
      if stream.None? || stream.value.sink == Some(intake) {
        return;
      }
      var ok := server.MoveStream(stream.value, intake);
      assert Move(id, stream.value.sink, intake, ok) in server.moves[|old(server.moves)|..];
      if ok && id !in moved {
        moved := moved[id := Origin(stream.value.sink)];
      }
    }

    /** The claims of one app source, whose intake is ready. */
    method Claim(g: Graph, intake: string, ids: seq<NodeIdentity>)
      requires Valid() && IntakeName(intake) && Distinct(ids)
      requires forall id :: id in ids ==> Fresh(g, server.place, id) && KnownHere(g, id)
      modifies this`moved, server`place, server`home, server`moves
      ensures Valid() && old(server.moves) <= server.moves
      ensures forall id :: id in ids ==>
        Into(old(server.place), server.place, id, intake, RefusedSince(server.moves, |old(server.moves)|))
      ensures forall id :: id !in ids ==> SamePlace(old(server.place), server.place, id)
      ensures forall id :: id in old(moved) ==> id in moved && moved[id] == old(moved)[id]
      ensures forall id :: id in moved && id !in old(moved) ==>
        id in ids && moved[id] == OriginIn(old(server.place), id)
      ensures Begun(old(server.home), server.home, old(server.place), IdSet(ids),
        RefusedSince(server.moves, |old(server.moves)|))
      ensures forall m :: m in server.moves[|old(server.moves)|..] ==>
        m.stream in ids && m.to == intake && m.from != Some(intake)
    {
      hide Into, Tracked, Recorded, SamePlace, Begun;
      ghost var p0, n, h0 := server.place, |server.moves|, server.home;
      PlacesRefl(p0);
      NoneBegun(h0, p0, RefusedSince(server.moves, n));
      NoneRefused(server.moves);
      assert IdSet(ids[..0]) == {};
      for i := 0 to |ids|
        invariant Valid() && old(server.moves) <= server.moves
        invariant forall id :: id in ids[..i] ==> Into(p0, server.place, id, intake, RefusedSince(server.moves, n))
        invariant forall id :: id !in ids[..i] ==> SamePlace(p0, server.place, id)
        invariant forall id :: id in old(moved) ==> id in moved && moved[id] == old(moved)[id]
        invariant forall id :: id in moved && id !in old(moved) ==> id in ids[..i] && moved[id] == OriginIn(p0, id)
        invariant Begun(h0, server.home, p0, IdSet(ids[..i]), RefusedSince(server.moves, n))
        invariant forall m :: m in server.moves[n..] ==>
          m.stream in ids[..i] && m.to == intake && m.from != Some(intake)
      {
        ghost var p1, h1, moves := server.place, server.home, server.moves;
        assert ids[i] !in ids[..i] && Fresh(g, p0, ids[i]) && SamePlace(p0, p1, ids[i]);
        StillHere(g, p0, p1, ids[i]);
        ClaimOne(g, intake, ids[i]);
        assert ids[..i + 1] == ids[..i] + [ids[i]];
        ClaimedMore(p0, p1, server.place, intake, ids[..i], ids[i], moves, server.moves, n);
        BegunMore(h0, h1, server.home, p0, p1, IdSet(ids[..i]), {ids[i]}, moves, server.moves, n);
        assert IdSet(ids[..i + 1]) == IdSet(ids[..i]) + {ids[i]};
      }
      assert ids[..|ids|] == ids;
    }

    /** Sends back, or keeps the record of, one stream that no source claims now. */
    method RestoreOne(g: Graph, kept: set<string>, id: NodeIdentity, origin: Option<string>)
        returns (retain: Option<string>)
      requires Valid() && Fresh(g, server.place, id) && cookie == Some(g.cookie) && origin == OriginOf(moved, id)
      modifies this`moved, server`place, server`home, server`moves
      ensures Valid() && old(server.moves) <= server.moves && OnlyMoves(old(server.place), server.place, id)
      ensures SameEntries(old(moved), moved, {id}) && EndedOff(old(server.home), server.home, server.place, {id})
      ensures Resolved(id, server.place, sinks, kept, old(moved), moved, g,
        if retain.Some? then {retain.value} else {}, RefusedSince(server.moves, |old(server.moves)|))
      ensures forall m :: m in server.moves[|old(server.moves)|..] ==>
        m.stream == id && Homeward(m, g, sinks, kept, origin)
    {
      var stream := StreamIn(g.streams, id);
      if stream.None? || stream.value.sink.None? || !Held(stream.value.sink.value, sinks, kept) {
        server.Release(id);
        moved := moved - {id};
        return None;
      }
      var intake := stream.value.sink.value;
      // Never out of another owner's replacement intake.
      if !Ours(g, sinks, intake) {
        return Some(intake);
      }
      var target := HomeFor(g, origin);
      if target.None? {
        return Some(intake);
      }
      HomeIsOutside(g, origin);
      IntakesAreOurs(target.value);
      var ok := server.MoveStream(stream.value, target.value);
      assert Move(id, stream.value.sink, target.value, ok) in server.moves[|old(server.moves)|..];
      if !ok {
        return Some(intake);
      }
      moved := moved - {id};
      retain := None;
    }

    /** Every stream OpenWave moved, and every stray on a sink being given up, that no
        source claims: it is back, or its sink is retained together with its record. All
        other streams stay where they are, and every move is one of these. */
    method RestoreStreams(g: Graph, wanted: set<NodeIdentity>, kept: set<string>)
      returns (retained: set<string>, errors: nat)
      requires Valid() && cookie == Some(g.cookie) && Plain(g)
      requires forall id :: id !in wanted ==> Fresh(g, server.place, id)
      modifies this`moved, server`place, server`home, server`moves
      ensures Valid() && old(server.moves) <= server.moves
      ensures forall id :: id in wanted || !Owing(old(server.place), sinks, kept, old(moved), id) ==>
        SamePlace(old(server.place), server.place, id) && SameEntry(old(moved), moved, id)
      ensures forall id :: id !in wanted && Owing(old(server.place), sinks, kept, old(moved), id) ==>
        Resolved(id, server.place, sinks, kept, old(moved), moved, g, retained,
          RefusedSince(server.moves, |old(server.moves)|))
      ensures moved.Keys <= old(moved).Keys && forall id :: id in moved ==> moved[id] == old(moved)[id]
      ensures retained == {} <==> errors == 0
      ensures EndedOff(old(server.home), server.home, server.place, IdsOf(g) + old(moved).Keys - wanted)
      ensures forall m :: m in server.moves[|old(server.moves)|..] ==>
        m.stream !in wanted && Homeward(m, g, sinks, kept, OriginOf(old(moved), m.stream))
    {
      hide Resolved, SamePlace, SameEntry, OnlyMoves, SameEntries, Owing, Restoring, Strays, Tracked, Recorded,
        RefusedSince, Plain, Homeward, EndedOff, Fresh, Held, Ours, HomeFor, IdsOf, StreamIn;
      ghost var p0, m0, h0, n := server.place, moved, server.home, |server.moves|;
      var origins, strays := moved, Strays(g, sinks, kept, moved);
      var todo := moved.Keys + strays - wanted;
      ghost var all := todo;
      retained, errors := {}, 0;
      RestoringStart(g, p0, sinks, kept, m0, all);
      NoneRefused(server.moves);
      NoneEnded(h0, p0);
      assert all - todo == {};
      while todo != {}
        invariant Valid() && todo <= all && old(server.moves) <= server.moves
        invariant Restoring(g, p0, server.place, sinks, kept, m0, moved, all, todo, retained,
          RefusedSince(server.moves, n))
        invariant retained == {} <==> errors == 0
        invariant EndedOff(h0, server.home, server.place, all - todo)
        invariant forall m :: m in server.moves[n..] ==>
          m.stream in all && Homeward(m, g, sinks, kept, OriginOf(m0, m.stream))
        decreases |todo|
      {
        var id :| id in todo;
        ghost var p1, m1, h1, r1, moves := server.place, moved, server.home, retained, server.moves;
        RestoringPick(g, p0, p1, sinks, kept, m0, m1, all, todo, r1, RefusedSince(moves, n), id);
        var retain := RestoreOne(g, kept, id, if id in origins then origins[id] else None);
        if retain.Some? {
          retained, errors := retained + {retain.value}, errors + 1;
        }
        RefusedMore(moves, server.moves, n);
        RestoringStep(g, p0, p1, server.place, sinks, kept, m0, m1, moved, all, todo, r1, retained,
          RefusedSince(moves, n), RefusedSince(server.moves, |moves|), RefusedSince(server.moves, n), id,
          if retain.Some? then {retain.value} else {});
        MovesSplit(moves, server.moves, n);
        EndedMore(h0, h1, server.home, p1, server.place, all - todo, id);
        assert all - (todo - {id}) == all - todo + {id};
        todo := todo - {id};
      }
      StraysListed(g, sinks, kept, m0);
      assert all - todo == all;
      EndedAmong(h0, server.home, server.place, all, IdsOf(g) + m0.Keys - wanted);
      RestoringEnd(g, p0, server.place, sinks, kept, m0, moved, all, wanted, strays, retained,
        RefusedSince(server.moves, n));
    }

    /** `update`: persistent sinks of mixes that are gone are up for removal. */
    method Update(next: seq<Mix>)
      requires Valid() && Accounted() && GoodMixes(next)
      modifies this`mixes, this`asked, this`removed
      ensures Valid() && Accounted() && mixes == next && asked == old(asked) + set m | m in next
      ensures removed == old(removed) + map name | name in persistent && name !in SinkNames(next) :: persistent[name]
    {
      ghost var more := asked + set m | m in next;
      MoreAsked(server.acts, asked, more);
      var gone := map name | name in persistent && name !in SinkNames(next) :: persistent[name];
      MoreEvidence(removed, persistent, gone, asked, more);
      hide Tracked, Recorded, LoadedHere, OwnHistory, AskedFor, GoodMixes;
      mixes, asked, removed := next, more, removed + gone;
    }

    /** Whether the sink of this name may be used: it is provably ours, or its definition
        is one we wrote. A foreign sink is never adopted; one missing from three
        observations, and only that, is created anew. */
    method EnsureSink(g: Graph, pulse: set<string>, d: Demand)
        returns (r: Result<bool>, ghost owner: nat, ghost moduleId: Option<nat>)
      requires Valid() && OpenWaveName(d.name)
      modifies this`sinks, this`persistent, server`acts
      ensures Valid()
      ensures Provided(g, pulse, d, old(Tables()), Tables(), old(server.acts), server.acts, owner, moduleId)
      ensures r == Ok(true) <==> Usable(g, pulse, old(Tables()), d)
      ensures r.Err? <==>
        && !Usable(g, pulse, old(Tables()), d)
        && (d.name in g.names || (LoadDue(g, old(sinks), d.name) && moduleId.None?))
    {
      var name := d.name;
      var token: nat := *;
      owner, moduleId := token, None;
      var found := g.Node(name);
      if found.Some? {
        var node := found.value;
        if name !in pulse {
          return Err(Unavailable), owner, moduleId;
        }
        if name in sinks {
          var handle := sinks[name];
          if handle.cookie == g.cookie && node.owner == Some(handle.owner) && node.moduleId == Some(handle.moduleId) {
            sinks := sinks[name := handle.(missing := 0)];
            return Ok(true), owner, moduleId;
          }
          return Err(Identity), owner, moduleId;
        }
        if d.mix.Some? {
          if name in persistent && persistent[name].identity == node.identity
             && DefinitionMatches(node, persistent[name].definition)
          {
            return Ok(true), owner, moduleId;
          }
          if DefinitionMatches(node, d.mix.value) {
            persistent := persistent[name := PersistentSink(node.identity, d.mix.value)];
            return Ok(true), owner, moduleId;
          }
        }
        return Err(Identity), owner, moduleId;
      }
      if name in g.names {
        return Err(Identity), owner, moduleId;
      }
      if name in sinks {
        sinks := sinks[name := sinks[name].(missing := sinks[name].missing + 1)];
        if sinks[name].missing < 3 {
          return Ok(false), owner, moduleId;
        }
        sinks := sinks - {name};
      }
      var loaded := server.Load(name, token);
      if loaded.Err? {
        return Err(loaded.code), owner, moduleId;
      }
      moduleId := Some(loaded.value);
      sinks := sinks[name := OwnedSink(g.cookie, loaded.value, token, 0)];
      r := Ok(false);
    }

    /** Every mix and every app source gets its sink; `ready` are those that may be used. */
    method EnsureAll(g: Graph, pulse: set<string>, demands: seq<Demand>) returns (ready: set<string>, errors: nat)
      requires Valid() && GoodDemands(demands)
      modifies this`sinks, this`persistent, server`acts
      ensures Valid() && old(server.acts) <= server.acts
      ensures Furnished(g, pulse, demands, old(Tables()), Tables(), ready, old(server.acts), server.acts)
      ensures errors == 0 ==> forall d :: d in demands ==> Usable(g, pulse, old(Tables()), d) || d.name !in g.names
    {
      hide Tracked, Recorded, Furnished, Provided, Usable, LoadDue;
      ghost var was, acts := Tables(), server.acts;
      ready, errors := {}, 0;
      FurnishedNone(g, pulse, was, acts);
      for i := 0 to |demands|
        invariant Valid() && acts <= server.acts
        invariant Furnished(g, pulse, demands[..i], was, Tables(), ready, acts, server.acts)
        invariant errors == 0 ==> forall d :: d in demands[..i] ==> Usable(g, pulse, was, d) || d.name !in g.names
      {
        ghost var mid, acts1 := Tables(), server.acts;
        var r, owner, moduleId := EnsureSink(g, pulse, demands[i]);
        FurnishedActs(g, pulse, demands[i], mid, Tables(), acts1, server.acts, owner, moduleId);
        NextIsFresh(g, pulse, demands, i, was, mid, ready, acts, acts1);
        assert demands[..i + 1] == demands[..i] + [demands[i]];
        FurnishedMore(g, pulse, demands, i, was, mid, Tables(), ready, acts, acts1, server.acts, owner, moduleId);
        if r == Ok(true) {
          ready := ready + {demands[i].name};
        }
        errors := errors + if r.Err? then 1 else 0;
      }
      assert demands[..|demands|] == demands;
    }

    /** A whole observation, retried, of the server we know; never a weaker one. */
    method FreshCleanupGraph(attempts: nat) returns (r: Result<Graph>)
      requires Valid() && attempts > 0
      modifies server`place, server`reports, server`home, server`stages, server`seen
      ensures Valid()
      ensures KnownKept(old(server.home), server.home)
      ensures old(server.stages) < server.stages && server.stages[|server.stages| - 1] == server.place.sinks
      ensures r.Ok? ==> server.seen == Some(r.value)
      ensures r.Ok? ==> Truthful(r.value, server.place) && cookie == Some(r.value.cookie)
    {
      hide Tracked, Recorded, Drifted;
      var remaining := attempts;
      var graph := server.Snapshot();
      while graph.None? && remaining > 1
        invariant Valid() && remaining > 0 && KnownKept(old(server.home), server.home)
        invariant old(server.stages) < server.stages && server.stages[|server.stages| - 1] == server.place.sinks
        invariant server.seen == graph
        invariant graph.Some? ==> Truthful(graph.value, server.place)
      {
        remaining := remaining - 1;
        graph := server.Snapshot();
      }
      if graph.None? {
        return Err(Unavailable);
      }
      r := if cookie == Some(graph.value.cookie) then Ok(graph.value) else Err(Identity);
    }

    /** What a fresh observation has to show for a persistent sink to go. */
    static predicate Destroyable(g: Graph, evidence: PersistentSink, name: string) {
      if g.Node(name).Some? then
        var node := g.Node(name).value;
        node.identity == evidence.identity && DefinitionMatches(node, evidence.definition) && !Playing(g, name)
      else name !in g.names
    }

    /** What it has to show for a sink of ours to go. */
    static predicate Unloadable(g: Graph, handle: OwnedSink, name: string) {
      if g.Node(name).Some? then
        var node := g.Node(name).value;
        && g.cookie == handle.cookie && node.owner == Some(handle.owner) && node.moduleId == Some(handle.moduleId)
        && !Playing(g, name)
      else name !in g.names
    }

    /** One persistent sink of a removed mix: Ok(true) if it is gone, found absent or destroyed
        on fresh proof; otherwise the proof is missing or the command was refused. */
    method DestroyOne(name: string, attempts: nat) returns (r: Result<bool>)
      requires Valid() && attempts > 0 && name in removed
      modifies this`persistent, this`removed, server`place, server`reports, server`home
      modifies server`acts, server`stages, server`seen
      ensures Valid() && KnownKept(old(server.home), server.home) && old(server.stages) < server.stages
      ensures removed == if r == Ok(true) then old(removed) - {name} else old(removed)
      ensures persistent == if r == Ok(true) then old(persistent) - {name} else old(persistent)
      ensures r == Ok(true) ==> Gone(server.stages, |old(server.stages)|, name)
      ensures server.acts == old(server.acts)
        || exists e ::
          OneMore(old(server.acts), server.acts, e, name) && OwnDestroy(e, old(removed)) && (e.ok <==> r == Ok(true))
      ensures r == Ok(false) && server.acts == old(server.acts) ==>
        server.seen.Some? && !Destroyable(server.seen.value, old(removed)[name], name)
      ensures r.Err? ==> server.acts == old(server.acts)
      ensures r == Ok(true) ==> server.seen.Some? && Destroyable(server.seen.value, old(removed)[name], name)
    {
      hide Drifted, Recorded, KnownKept, Tracked;
      var evidence := removed[name];
      var current := FreshCleanupGraph(attempts);
      if current.Err? {
        return Err(current.code);
      }
      var g := current.value;
      ghost var n := |server.stages|;
      if g.Node(name).Some? {
        var node := g.Node(name).value;
        if node.identity != evidence.identity || !DefinitionMatches(node, evidence.definition) || Playing(g, name) {
          return Ok(false);
        }
        NothingPlays(g, server.place, name);
        var ok := server.Destroy(name, node.id);
        assert OneMore(old(server.acts), server.acts, Destroyed(name, node, ok), name);
        if !ok {
          return Ok(false);
        }
      } else if name in g.names {
        return Ok(false);
      }
      assert name !in server.stages[|server.stages| - 1];
      removed, persistent := removed - {name}, persistent - {name};
      r := Ok(true);
    }

    /** Persistent sinks of removed mixes go, each on its own proof. */
    method CleanupPersistent(wanted: set<string>, attempts: nat) returns (r: Result<nat>)
      requires Valid() && attempts > 0
      modifies this`persistent, this`removed, server`place, server`reports, server`home
      modifies server`acts, server`stages, server`seen
      ensures Valid() && removed.Keys <= old(removed).Keys && KnownKept(old(server.home), server.home)
      ensures r == Ok(0) ==> removed == map[]
      ensures old(server.acts) <= server.acts && old(server.stages) <= server.stages
      ensures OnlyOurs(server.acts, |old(server.acts)|, wanted, map[], old(removed))
      ensures Swept(old(removed), removed, server.stages, |old(server.stages)|, wanted)
      ensures Fewer(persistent, old(persistent))
      ensures forall name :: name in old(persistent) && name !in persistent ==>
        name in old(removed) && name !in removed && name !in wanted
    {
      hide Drifted, Recorded, Tracked, Gone, KnownKept, OwnDestroy, OwnUnload, Destroyable, OnlyOurs, OneMore, Swept,
        Fewer;
      KnownRefl(server.home);
      FewerSame(persistent);
      SweptNone(removed, server.stages, |server.stages|, wanted);
      NoneOurs(server.acts, wanted, map[], removed);
      var errors := 0;
      var todo := removed.Keys;
      ghost var all, n, m := removed, |server.acts|, |server.stages|;
      while todo != {}
        invariant Valid() && todo <= removed.Keys <= all.Keys && KnownKept(old(server.home), server.home)
        invariant errors == 0 ==> removed.Keys == todo
        invariant old(server.acts) <= server.acts && old(server.stages) <= server.stages
        invariant OnlyOurs(server.acts, n, wanted, map[], all)
        invariant Swept(all, removed, server.stages, m, wanted) && Fewer(persistent, old(persistent))
        invariant forall name :: name in old(persistent) && name !in persistent ==>
          name in all && name !in removed && name !in wanted
        decreases |todo|
      {
        var name :| name in todo;
        todo := todo - {name};
        ghost var h, acts, stages, was, p := server.home, server.acts, server.stages, removed, persistent;
        if name in wanted {
          removed := removed - {name};
          SweptMore(all, was, removed, stages, stages, m, wanted, name);
          continue;
        }
        var gone := DestroyOne(name, attempts);
        FewerLess(persistent, p, old(persistent), name);
        KnownTrans(old(server.home), h, server.home);
        SweptMore(all, was, removed, stages, server.stages, m, wanted, name);
        SweptIs(all, was, stages, m, wanted);
        MoreOurs(acts, server.acts, n, wanted, map[], map[], was, all, name);
        if gone.Err? {
          return Err(gone.code);
        }
        errors := if gone.value then errors else errors + 1;
      }
      r := Ok(errors);
    }

    /** One owned sink that nobody wants: Ok(true) if it is gone, found absent or unloaded on
        fresh proof; otherwise the proof is missing or the command was refused. */
    method UnloadOne(name: string, attempts: nat) returns (r: Result<bool>)
      requires Valid() && attempts > 0 && name in sinks
      modifies this`sinks, server`place, server`reports, server`home, server`acts, server`stages, server`seen
      ensures Valid() && KnownKept(old(server.home), server.home) && old(server.stages) < server.stages
      ensures sinks == if r == Ok(true) then old(sinks) - {name} else old(sinks)
      ensures r == Ok(true) ==> Gone(server.stages, |old(server.stages)|, name)
      ensures server.acts == old(server.acts)
        || exists e ::
          OneMore(old(server.acts), server.acts, e, name) && OwnUnload(e, old(sinks)) && (e.ok <==> r == Ok(true))
      ensures r == Ok(false) && server.acts == old(server.acts) ==>
        server.seen.Some? && !Unloadable(server.seen.value, old(sinks)[name], name)
      ensures r.Err? ==> server.acts == old(server.acts)
      ensures r == Ok(true) ==> server.seen.Some? && Unloadable(server.seen.value, old(sinks)[name], name)
    {
      hide Drifted, Recorded, KnownKept, Tracked;
      var handle := sinks[name];
      var current := FreshCleanupGraph(attempts);
      if current.Err? {
        return Err(current.code);
      }
      var g := current.value;
      if g.Node(name).Some? {
        var node := g.Node(name).value;
        if g.cookie != handle.cookie || node.owner != Some(handle.owner)
           || node.moduleId != Some(handle.moduleId) || Playing(g, name)
        {
          return Ok(false);
        }
        NothingPlays(g, server.place, name);
        var ok := server.Unload(name, handle.moduleId);
        assert OneMore(old(server.acts), server.acts, Unloaded(name, node, g.cookie, ok), name);
        if !ok {
          return Ok(false);
        }
      } else if name in g.names {
        return Ok(false);
      }
      assert name !in server.stages[|server.stages| - 1];
      sinks := sinks - {name};
      r := Ok(true);
    }

    /** The owned sinks that nobody wants go, each on its own proof. */
    method UnloadStale(wanted: set<string>, attempts: nat) returns (r: Result<nat>)
      requires Valid() && attempts > 0
      modifies this`sinks, server`place, server`reports, server`home, server`acts, server`stages, server`seen
      ensures Valid() && KnownKept(old(server.home), server.home)
      ensures Swept(old(sinks), sinks, server.stages, |old(server.stages)|, {})
      ensures forall name :: name in wanted && name in old(sinks) ==> name in sinks
      ensures r == Ok(0) ==> sinks.Keys <= wanted
      ensures old(server.acts) <= server.acts && old(server.stages) <= server.stages
      ensures OnlyOurs(server.acts, |old(server.acts)|, wanted, old(sinks), map[])
    {
      hide Drifted, Recorded, Tracked, Gone, KnownKept, OwnDestroy, OwnUnload, Unloadable, OnlyOurs, OneMore, Swept,
        Sweeping;
      ghost var all, n, m := sinks, |server.acts|, |server.stages|;
      KnownRefl(server.home);
      SweepingStart(all, server.stages, server.acts, wanted);
      var errors := 0;
      var todo := set name | name in sinks && name !in wanted;
      while todo != {}
        invariant Valid() && todo <= sinks.Keys <= all.Keys && todo !! wanted
        invariant KnownKept(old(server.home), server.home)
        invariant forall name :: name in wanted && name in all ==> name in sinks
        invariant errors == 0 ==> sinks.Keys <= wanted + todo
        invariant old(server.acts) <= server.acts && old(server.stages) <= server.stages
        invariant Sweeping(all, sinks, server.stages, m, server.acts, n, wanted)
        decreases |todo|
      {
        var name :| name in todo;
        todo := todo - {name};
        ghost var h, acts, stages, was := server.home, server.acts, server.stages, sinks;
        var gone := UnloadOne(name, attempts);
        KnownTrans(old(server.home), h, server.home);
        SweepingStep(all, was, sinks, stages, server.stages, m, acts, server.acts, n, wanted, name);
        if gone.Err? {
          SweepingEnd(all, sinks, server.stages, m, server.acts, n, wanted);
          return Err(gone.code);
        }
        errors := if gone.value then errors else errors + 1;
      }
      SweepingEnd(all, sinks, server.stages, m, server.acts, n, wanted);
      r := Ok(errors);
    }

    /** Owned sinks that nobody wants go, each on its own proof; no other sink is touched. */
    method CleanupSinks(wanted: set<string>, attempts: nat) returns (r: Result<nat>)
      requires Valid() && attempts > 0
      modifies this`persistent, this`removed, this`sinks, server`place, server`reports, server`home
      modifies server`acts, server`stages, server`seen
      ensures Valid() && KnownKept(old(server.home), server.home)
      ensures Swept(old(sinks), sinks, server.stages, |old(server.stages)|, {})
      ensures Swept(old(removed), removed, server.stages, |old(server.stages)|, wanted)
      ensures forall name :: name in wanted && name in old(sinks) ==> name in sinks
      ensures r == Ok(0) ==> sinks.Keys <= wanted && removed == map[]
      ensures Fewer(persistent, old(persistent))
      ensures old(server.acts) <= server.acts && old(server.stages) <= server.stages
      ensures OnlyOurs(server.acts, |old(server.acts)|, wanted, old(sinks), old(removed))
    {
      hide Drifted, Recorded, Tracked, Gone, KnownKept, OnlyOurs, Swept, Fewer;
      ghost var n, m, gone := |server.acts|, |server.stages|, removed;
      var first := CleanupPersistent(wanted, attempts);
      ghost var acts, stages, h := server.acts, server.stages, server.home;
      if first.Err? {
        SweptNone(sinks, stages, m, {});
        NoneOurs(acts, wanted, sinks, map[]);
        OursThen(acts, acts, n, wanted, sinks, gone);
        return first;
      }
      ghost var all := sinks;
      var second := UnloadStale(wanted, attempts);
      KnownTrans(old(server.home), h, server.home);
      OursThen(acts, server.acts, n, wanted, all, gone);
      SweptSince(all, sinks, server.stages, |stages|, m, {});
      SweptStill(gone, removed, stages, server.stages, m, wanted);
      r := if second.Ok? then Ok(first.value + second.value) else second;
    }

    /** Helpers are forgotten only once they have ended. */
    method StopChildren(children: set<nat>) returns (left: set<nat>)
      modifies server`running
      ensures left <= children && server.running <= old(server.running) && (children - left) !! server.running
    {
      left := children;
      var todo := children;
      while todo != {}
        invariant todo <= left <= children && server.running <= old(server.running)
        invariant (children - left) !! server.running
        decreases |todo|
      {
        var child :| child in todo;
        var ok := server.Terminate(child);
        if ok {
          left := left - {child};
        }
        todo := todo - {child};
      }
    }

    /** Up to three times over a fresh observation: every stream goes home. The names still
        retained, or nothing if the server could not be observed. */
    method RestoreAll() returns (r: Option<set<string>>)
      requires Valid()
      modifies this`moved, server`place, server`home, server`moves, server`reports, server`stages, server`seen
      ensures Valid() && old(server.stages) <= server.stages
      ensures r == Some({}) ==> moved == map[]
    {
      hide Tracked, Recorded, Resolved, Plain, EndedOff, Owing, RefusedSince;
      var retained: set<string>, errors := {}, 0;
      for i := 0 to 3
        invariant Valid() && old(server.stages) <= server.stages
        invariant retained == {} <==> errors == 0
        invariant i > 0 && retained == {} ==> moved == map[]
      {
        var graph := FreshCleanupGraph(3);
        if graph.Err? {
          return None;
        }
        AllFresh(graph.value, server.place);
        ghost var p0, m0, n := server.place, moved, |server.moves|;
        retained, errors := RestoreStreams(graph.value, {}, {});
        NothingOwed(graph.value, p0, server.place, sinks, m0, moved, retained, RefusedSince(server.moves, n));
        if retained == {} {
          break;
        }
      }
      r := Some(retained);
    }

    /** Stops the helpers, sends every stream home and unloads every owned sink. Ok means
        that nothing of it is left. */
    method Teardown() returns (ok: bool)
      requires Valid() && Accounted()
      modifies this`sinks, this`persistent, this`removed, this`moved, this`routes, this`effects, server
      ensures Valid() && Accounted()
      ensures ok ==> routes == {} && effects == {} && sinks == map[] && moved == map[]
      ensures old(server.acts) <= server.acts && OnlyOurs(server.acts, |old(server.acts)|, {}, old(sinks), map[])
      ensures forall name :: name in old(sinks) && name !in sinks ==> Gone(server.stages, |old(server.stages)|, name)
      ensures ok ==> (old(routes) + old(effects)) !! server.running
    {
      hide Tracked, Recorded, Gone, OwnUnload, OwnDestroy, LoadedHere, OwnHistory, AskedFor, GoodMixes, OnlyOurs, Swept;
      NoneOurs(server.acts, {}, sinks, map[]);
      NothingRecorded(server.home);
      if cookie == None && sinks == map[] && routes == {} && effects == {} {
        return true;
      }
      routes := StopChildren(routes);
      effects := StopChildren(effects);
      if routes != {} || effects != {} {
        return false;
      }
      var retained := RestoreAll();
      if retained.None? {
        return false;
      }
      ghost var all, stages := sinks, server.stages;
      ok := RemoveSinks(retained.value);
      TornDown(all, sinks, server.stages, |stages|, |old(server.stages)|);
    }

    /** Every owned sink but those retained. Shutdown never removes persistent definitions. */
    method RemoveSinks(retained: set<string>) returns (ok: bool)
      requires Valid() && Accounted()
      modifies this`sinks, this`persistent, this`removed, server`place, server`reports, server`home, server`acts
      modifies server`stages, server`seen
      ensures Valid() && Accounted() && old(server.acts) <= server.acts && old(server.stages) <= server.stages
      ensures OnlyOurs(server.acts, |old(server.acts)|, {}, old(sinks), map[])
      ensures Swept(old(sinks), sinks, server.stages, |old(server.stages)|, {})
      ensures ok ==> retained == {} && sinks == map[]
    {
      hide Tracked, Recorded, LoadedHere, OwnHistory, AskedFor, GoodMixes, Swept, Fewer, OnlyOurs, KnownKept;
      removed := map[];
      NothingAsked(server.acts, asked);
      var cleaned := CleanupSinks(retained, 3);
      OursAnyway(server.acts, |old(server.acts)|, retained, old(sinks), map[]);
      StillAccounted(old(server.acts), server.acts, retained, old(sinks), sinks, map[], removed, old(persistent),
        persistent, server.stages, |old(server.stages)|, asked);
      ok := retained == {} && cleaned == Ok(0);
    }

    /** Another server: once our helpers have ended, forget what its predecessor knew. */
    method ObserveCookie(g: Graph) returns (ok: bool)
      requires Valid() && Truthful(g, server.place)
      modifies this`cookie, this`sinks, this`persistent, this`removed, this`moved, this`routes, this`effects
      modifies server`home, server`running
      ensures Valid() && (ok ==> cookie == Some(g.cookie))
      ensures old(cookie) in {None, Some(g.cookie)} ==>
        ok && moved == old(moved) && sinks == old(sinks) && routes == old(routes) && effects == old(effects)
        && persistent == old(persistent) && removed == old(removed) && server.home == old(server.home)
      ensures old(cookie) !in {None, Some(g.cookie)} && ok ==>
        && sinks == map[] && persistent == removed == map[] && moved == map[] && server.home == map[]
        && routes == effects == {} && (old(routes) + old(effects)) !! server.running
      ensures !ok ==>
        && cookie == old(cookie) && sinks == old(sinks) && persistent == old(persistent) && removed == old(removed)
        && moved == old(moved) && server.home == old(server.home) && routes + effects != {}
    {
      if cookie.Some? && cookie.value != g.cookie {
        hide Recorded;
        routes := StopChildren(routes);
        if routes != {} {
          return false;
        }
        effects := StopChildren(effects);
        if effects != {} {
          return false;
        }
        sinks, persistent, removed, moved := map[], map[], map[], map[];
        server.ReleaseAll();
      }
      cookie := Some(g.cookie);
      ok := true;
    }

    /** The claims of every app source whose intake is ready. */
    method ClaimAll(g: Graph, claims: seq<Claims>)
      requires Valid() && Distinct(ClaimedIds(claims)) && cookie == Some(g.cookie) && Truthful(g, server.place)
      requires forall c :: c in claims ==> IntakeName(c.intake)
      modifies this`moved, server`place, server`home, server`moves
      ensures Valid() && old(server.moves) <= server.moves
      ensures ClaimsMade(claims, |claims|, old(server.place), server.place,
        RefusedSince(server.moves, |old(server.moves)|))
      ensures RecordsMade(claims, |claims|, old(server.place), old(moved), moved)
      ensures Begun(old(server.home), server.home, old(server.place), IdSet(ClaimedIds(claims)),
        RefusedSince(server.moves, |old(server.moves)|))
      ensures forall m :: m in server.moves[|old(server.moves)|..] ==> Claiming(claims, m)
    {
      AllFresh(g, server.place);
      hide Fresh, SamePlace, Truthful, Tracked, Recorded, Into, ClaimsMade, RecordsMade, Begun, Claiming, RefusedSince;
      ghost var p0, m0, h0, n := server.place, moved, server.home, |server.moves|;
      ClaimsStart(claims, p0, m0, h0, RefusedSince(server.moves, n));
      NoneRefused(server.moves);
      for i := 0 to |claims|
        invariant Valid() && old(server.moves) <= server.moves
        invariant ClaimsMade(claims, i, p0, server.place, RefusedSince(server.moves, n))
        invariant RecordsMade(claims, i, p0, m0, moved)
        invariant Begun(h0, server.home, p0, IdSet(ClaimedIds(claims[..i])), RefusedSince(server.moves, n))
        invariant forall m :: m in server.moves[n..] ==> Claiming(claims, m) && m.stream in ClaimedIds(claims[..i])
      {
        ghost var p1, m1, h1, moves := server.place, moved, server.home, server.moves;
        ClaimedSplit(claims, i);
        if claims[i].ready {
          ClaimsNext(g, claims, i, p0, p1, RefusedSince(moves, n));
          Claim(g, claims[i].intake, claims[i].ids);
          ClaimsStep(claims, i, p0, p1, server.place, moves, server.moves, n);
          RecordsStep(claims, i, p0, p1, m0, m1, moved);
          BegunStep(claims, i, h0, h1, server.home, p0, p1, moves, server.moves, n);
          ClaimingStep(claims, i, moves, server.moves, n);
        } else {
          ClaimsSkip(claims, i, p0, p1, m0, m1, RefusedSince(moves, n));
          BegunSkip(claims, i, h0, h1, p0, RefusedSince(moves, n));
        }
      }
      assert claims[..|claims|] == claims;
    }

    /** Claims first, then everything unclaimed goes home, if the pass gets that far. For every
        stream there is, what this did to it; and it did nothing else. */
    method Conduct(g: Graph, claims: seq<Claims>, kept: set<string>, whole: bool)
      returns (retained: set<string>, failed: nat, ghost s: Sight)
      requires Valid() && cookie == Some(g.cookie) && Truthful(g, server.place) && Distinct(ClaimedIds(claims))
      requires forall c :: c in claims ==> IntakeName(c.intake)
      modifies this`moved, server`place, server`home, server`moves
      ensures Valid() && old(server.moves) <= server.moves
      ensures s == Sight(g, old(server.place), server.place, sinks, old(moved), retained,
        RefusedSince(server.moves, |old(server.moves)|), whole)
      ensures forall id :: Conducted(id, claims, kept, s, moved)
      ensures forall m :: m in server.moves[|old(server.moves)|..] ==> Warranted(m, claims, kept, s)
      ensures Lasting(old(server.home), server.home, server.place)
      ensures retained == {} <==> failed == 0
    {
      hide Fresh, SamePlace, SameEntry, Resolved, Truthful, Tracked, Recorded, Drifted, Into, ClaimsMade, RecordsMade,
        Begun, Claiming, EndedOff, RefusedSince, Plain, Homeward, Owing, Conducted, Warranted, Lasting;
      ghost var before, m0, h0, n := server.place, moved, server.home, |server.moves|;
      AllFresh(g, before);
      ClaimAll(g, claims);
      ghost var p1, m1, h1, moves := server.place, moved, server.home, server.moves;
      var wanted := IdSet(ClaimedIds(claims));
      if !whole {
        retained, failed := {}, 0;
        s := Sight(g, before, p1, sinks, m0, {}, RefusedSince(moves, n), false);
        AllHalted(claims, kept, s, m1);
        ClaimsWarranted(claims, kept, s, moves, n);
        TripsBegun(h0, h1, before, p1, wanted, RefusedSince(moves, n));
        return;
      }
      UnclaimedFresh(g, claims, before, p1, RefusedSince(moves, n));
      retained, failed := RestoreStreams(g, wanted, kept);
      s := Sight(g, before, server.place, sinks, m0, retained, RefusedSince(server.moves, n), true);
      AllConducted(claims, kept, s, p1, m1, moved, moves, server.moves, n);
      AllWarranted(claims, kept, s, m1, moves, server.moves, n);
      TripsLast(h0, h1, server.home, before, server.place, wanted, IdsOf(g) + m1.Keys - wanted, RefusedSince(moves, n));
    }

    /** The sinks of the mixes and the intakes of these app sources. */
    method Furnish(g: Graph, pulse: set<string>, orders: seq<Order>) returns (ready: set<string>, errors: nat)
      requires Valid() && Accounted() && GoodOrders(orders)
      modifies this`sinks, this`persistent, server`acts
      ensures Valid() && Accounted() && old(server.acts) <= server.acts
      ensures Furnished(g, pulse, Demands(mixes, orders), old(Tables()), Tables(), ready, old(server.acts), server.acts)
      ensures errors == 0 ==>
        forall d :: d in Demands(mixes, orders) ==> Usable(g, pulse, old(Tables()), d) || d.name !in g.names
    {
      hide Tracked, Recorded, GoodMixes, GoodOrders, GoodDemands, LoadedHere, OwnHistory, AskedFor, Furnished, Usable;
      ghost var was, acts := Tables(), server.acts;
      DemandsAreGood(mixes, orders);
      DemandsAsked(mixes, orders, asked);
      ready, errors := EnsureAll(g, pulse, Demands(mixes, orders));
      FurnishedLog(g, pulse, Demands(mixes, orders), was, Tables(), ready, acts, server.acts, asked);
    }

    /** What a pass does to a server that it knows: sinks are provided, every stream is dealt
        with, then unused sinks go; unless the routes end it. In the source each intake is
        provided just before its own streams are claimed; neither looks at what the other
        changes. */
    method Reconcile(g: Graph, pulse: set<string>, orders: seq<Order>, course: Course)
      returns (errors: nat, ghost s: Sight, ghost fit: Fit)
      requires Valid() && Accounted() && cookie == Some(g.cookie) && Truthful(g, server.place) && GoodOrders(orders)
      modifies this`sinks, this`persistent, this`removed, this`moved
      modifies server`place, server`reports, server`home, server`moves, server`acts, server`stages, server`seen
      ensures Valid() && Accounted() && old(server.moves) <= server.moves
      ensures old(server.acts) <= fit.acts <= server.acts
      ensures Furnished(g, pulse, Demands(mixes, Reached(course, orders)), old(Tables()),
        Table(s.sinks, fit.persistent),
        fit.ready, old(server.acts), fit.acts)
      ensures s == Sight(g, old(server.place), s.after, s.sinks, old(moved), s.retained,
        RefusedSince(server.moves, |old(server.moves)|), course.Whole?)
      ensures Dealt(ClaimsIn(course, orders, fit.ready), SinkNames(mixes), s, moved, server.moves, |old(server.moves)|)
      ensures Cleaned(SinkNames(mixes) + Intakes(orders) + s.retained, s.sinks, sinks, old(removed), server.acts,
        |fit.acts|, server.stages, |old(server.stages)|)
      ensures errors == 0 ==> forall d :: d in Demands(mixes, orders) ==>
        Usable(g, pulse, old(Tables()), d) || d.name !in g.names
      ensures errors == 0 ==>
        course.Whole? && s.retained == {} && removed == map[] && sinks.Keys <= SinkNames(mixes) + Intakes(orders)
      ensures !course.Whole? ==> server.acts == fit.acts && sinks == s.sinks && removed == old(removed)
      ensures Lasting(old(server.home), server.home, s.after)
    {
      hide Tracked, Recorded, Truthful, GoodMixes, GoodOrders, GoodDemands, LoadedHere, OwnHistory, AskedFor, Furnished,
        Warranted, RefusedSince, Lasting, KnownKept, OnlyOurs, Swept, Fewer, ClaimedIds, Cleaned, Usable,
        Demands, Conducted;
      ghost var gone, h := removed, server.home;
      NoOrders();
      var ready, failures := Furnish(g, pulse, Reached(course, orders));
      fit := Fit(ready, persistent, server.acts);
      var claims := ClaimsIn(course, orders, ready);
      var kept := SinkNames(mixes) + Intakes(orders);
      NothingCleaned(kept, sinks, removed, server.acts, server.stages);
      ClaimsAreGood(course, orders, ready, SinkNames(mixes));
      if course.Barred? {
        NoneRefused(server.moves);
        s := Sight(g, server.place, server.place, sinks, moved, {}, {}, false);
        AllUnmoved(claims, kept, s);
        LastingStill(h, server.place);
        return failures + 1, s, fit;
      }
      var retained, failed, sight := Conduct(g, claims, kept, course.Whole?);
      s := sight;
      if course.Halted? {
        return failures + 1, s, fit;
      }
      ghost var h3 := server.home;
      TracksTold(h3, server.place);
      var cleaned := CleanupSinks(kept + retained, 1);
      LastingOn(h, h3, server.home, s.after);
      StillAccounted(fit.acts, server.acts, kept + retained, s.sinks, sinks, gone, removed, fit.persistent, persistent,
        server.stages, |old(server.stages)|, asked);
      SweptOurs(kept + retained, s.sinks, sinks, gone, server.acts, |fit.acts|, server.stages, |old(server.stages)|);
      errors := failures + failed + if cleaned.Ok? then cleaned.value else 1;
    }

    /** One pass: every stream is dealt with, then unused sinks go. */
    method Pass(pulse: set<string>, orders: seq<Order>, course: Course)
      returns (errors: nat, ghost sight: Option<Sight>, ghost fit: Fit)
      requires Valid() && Accounted() && GoodOrders(orders)
      modifies this`cookie, this`sinks, this`persistent, this`removed, this`moved, this`routes, this`effects, server
      ensures Valid() && Accounted() && old(server.moves) <= server.moves && old(server.acts) <= server.acts
      ensures sight.None? ==>
        fit.ready == {} && server.moves == old(server.moves) && moved == old(moved) && server.acts == old(server.acts)
      ensures sight.Some? ==>
        && Seen(sight.value, old(cookie), old(moved)) && cookie == Some(sight.value.graph.cookie)
        && sight.value.refused == RefusedSince(server.moves, |old(server.moves)|)
        && sight.value.whole == course.Whole? && fit.acts <= server.acts
        && Furnished(sight.value.graph, pulse, Demands(mixes, Reached(course, orders)),
             if old(cookie) in {None, cookie} then old(Tables()) else Table(map[], map[]),
             Table(sight.value.sinks, fit.persistent), fit.ready, old(server.acts), fit.acts)
        && Dealt(ClaimsIn(course, orders, fit.ready), SinkNames(mixes), sight.value, moved, server.moves,
             |old(server.moves)|)
        && Cleaned(SinkNames(mixes) + Intakes(orders) + sight.value.retained, sight.value.sinks, sinks,
             if old(cookie) in {None, cookie} then old(removed) else map[], server.acts, |fit.acts|, server.stages,
             |old(server.stages)|)
      ensures sight.Some? && errors == 0 ==>
        course.Whole? && sight.value.retained == {} && removed == map[]
          && sinks.Keys <= SinkNames(mixes) + Intakes(orders)
      ensures sight.Some? && !course.Whole? ==> server.acts == fit.acts && sinks == sight.value.sinks
      ensures TripsFollow(old(server.home), server.home, sight)
    {
      hide Truthful, Recorded, Drifted, RefusedSince, Dealt, Cleaned, Lasting, KnownKept, TripsFollow, Tracked,
        Furnished,
        LoadedHere, OwnHistory, AskedFor, GoodMixes, GoodOrders;
      ghost var h, c0, m := server.home, cookie, |server.stages|;
      TracksTold(h, server.place);
      fit := Fit({}, persistent, server.acts);
      var graph := server.Snapshot();
      ghost var h0 := server.home;
      UnseenFollows(h, h0);
      if graph.None? {
        return 0, None, fit; // Unknown means no mutation, including cleanup.
      }
      var g := graph.value;
      NothingAsked(server.acts, asked);
      var ok := ObserveCookie(g);
      if !ok {
        return 1, None, fit;
      }
      ghost var h1, k := server.home, |server.stages|;
      ghost var gone := removed;
      ghost var s, f;
      errors, s, f := Reconcile(g, pulse, orders, course);
      TripsThrough(h, h0, h1, server.home, s, c0);
      CleanedSince(SinkNames(mixes) + Intakes(orders) + s.retained, s.sinks, sinks, gone, server.acts, |f.acts|,
        server.stages, k, m);
      sight, fit := Some(s), f;
    }

    /** Any run of changes to the mixes and passes, whatever the world has done by each
        observation. */
    method Run(rounds: seq<Round>) returns (ghost turns: seq<Turn>)
      requires Valid() && Accounted()
      requires forall i :: 0 <= i < |rounds| ==>
        GoodOrders(rounds[i].orders) && (rounds[i].mixes.Some? ==> GoodMixes(rounds[i].mixes.value))
      modifies this, server
      ensures Valid() && Accounted() && |turns| == |rounds| && Ledgered(old(server.home), turns)
      ensures forall i :: 0 <= i < |turns| ==> Grounded(rounds[i], turns[i])
    {
      hide Recorded, Tracked, Truthful, TripsFollow, RefusedSince, Follows, Ledgered, HomeAt, Ours, Furnished, Cleaned,
        LoadedHere, OwnHistory, AskedFor, GoodMixes, GoodOrders, Conducted, Warranted, Grounded;
      turns := [];
      LedgeredStart(server.home);
      for i := 0 to |rounds|
        invariant Valid() && Accounted() && |turns| == i && Ledgered(old(server.home), turns)
        invariant HomeAt(old(server.home), turns, i) == server.home
        invariant forall k :: 0 <= k < i ==> Grounded(rounds[k], turns[k])
      {
        ghost var home := server.home;
        if rounds[i].mixes.Some? {
          Update(rounds[i].mixes.value);
        }
        ghost var t0, c0, acts := Tables(), cookie, server.acts;
        var errors, sight, fit := Pass(rounds[i].pulse, rounds[i].orders, rounds[i].course);
        ghost var t := Turn(ClaimsIn(rounds[i].course, rounds[i].orders, fit.ready), SinkNames(mixes), sight,
          server.home, moved);
        TurnFollows(home, t, server.place);
        RoundGrounded(rounds[i], t, mixes, if c0 in {None, cookie} then t0 else Table(map[], map[]), fit, acts);
        LedgeredMore(old(server.home), turns, t);
        turns := turns + [t];
      }
    }
  }

  lemma TornDown(
    all: map<string, OwnedSink>, sinks: map<string, OwnedSink>, stages: seq<map<string, SinkNode>>, n: nat, k: nat)
    requires Swept(all, sinks, stages, n, {}) && k <= n
    ensures forall name :: name in all && name !in sinks ==> Gone(stages, k, name)
  {
    hide Gone;
    SweptSince(all, sinks, stages, n, k, {});
  }

  lemma TurnFollows(was: Trips, t: Turn, p: Place)
    requires TripsFollow(was, t.home, t.sight) && Tracked(t.home, p) && t.moved == Recorded(t.home)
    requires t.sight.Some? ==>
      Truthful(t.sight.value.graph, t.sight.value.before)
      && forall id :: Conducted(id, t.claims, KeptNames(t.claims, t.mixes), t.sight.value, t.moved)
    ensures Follows(was, t)
  {
    hide TripsFollow, Recorded, Conducted, Truthful;
  }
}
