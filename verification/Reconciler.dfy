/** Route reconciliation (mixer.rs): the silence barrier, the opening pass and
    the snapshot-free `retune`, over arbitrary runs with failing commands. */
module Reconciler {
  import opened Wrappers
  import opened Model
  import opened AudioServer
  import opened Matrix
  import opened RouteTable

  class Reconciler {
    const server: Server
    var routes: map<RouteKey, Route>
    var desired: Desired
    var cookie: Option<nat>

    constructor (server: Server)
      requires server.world == map[]
      ensures this.server == server && routes == map[] && Valid()
    {
      this.server := server;
      routes := map[];
      desired := Desired(OrderedMap([], map[]), OrderedMap([], map[]),
        Matrix(OrderedMap([], map[]), OrderedMap([], map[]), OrderedMap([], map[]), map[]), map[]);
      cookie := None;
    }

    ghost function Now(): Moment
      reads this, server
    {
      Moment(routes, server.world, server.next, server.history, server.calls)
    }

    ghost predicate Valid()
      reads this, server
    {
      Consistent(Now())
    }

    method DropRoute(key: RouteKey, ghost open: set<RouteKey>) returns (ok: bool)
      requires Valid() && key in routes
      modifies this`routes, server`world, server`history
      ensures Valid() && Acts(old(Now()), Now(), key, open)
      ensures routes == if ok then old(routes) - {key} else old(routes)
      ensures key in routes && Quiet(old(routes)[key], old(server.world)) ==> Quiet(routes[key], server.world)
    {
      hide Acts, Opened, OthersKept, MutesKept, AllBacked;
      ghost var a := Now();
      ok := server.Terminate(routes[key].owner);
      ghost var b := Now();
      LoopbackStep(a, b, key, a.world[routes[key].owner].(alive := false), open);
      if ok {
        routes := routes - {key};
        DropStep(b, Now(), key, open);
        ActsTrans(a, b, Now(), key, open);
      }
    }

    method StillRunning(key: RouteKey, ghost open: set<RouteKey>) returns (r: Result<bool>)
      requires Valid() && key in routes
      modifies server`world, server`history
      ensures Valid() && Acts(old(Now()), Now(), key, open)
      ensures Quiet(routes[key], old(server.world)) ==> Quiet(routes[key], server.world)
      ensures r == Ok(true) ==> server.world == old(server.world) && Alive(routes, server.world, key)
    {
      hide Acts, Opened, OthersKept, MutesKept, AllBacked;
      ghost var a := Now();
      r := server.Running(routes[key].owner);
      LoopbackStep(a, Now(), key, a.world[routes[key].owner].(alive := false), open);
    }

    /** The barrier's write: mute on this node, unless it is known and shown to be muted. */
    method EnsureMuted(g: Graph, key: RouteKey, node: GraphNode, level: real) returns (ok: bool)
      requires Valid() && key in routes && g.Owned(routes[key].name, routes[key].owner) == Some(node)
      requires node.muted == Some(true) ==> server.world[routes[key].owner].muted
      modifies this`routes, server`world, server`history, server`calls
      ensures Valid() && Acts(old(Now()), Now(), key, {})
      ensures WriteJustified(old(Now()), Now(), g, key, level, true)
      ensures forall c :: c in server.calls[|old(server.calls)|..] ==> !c.LinkCall?
      ensures !ok ==> routes == old(routes)
      ensures ok ==> old(routes)[key].owner in server.world && server.world[old(routes)[key].owner].muted
      ensures ok ==> routes == old(routes)[key := old(routes)[key].(
        applied := Some(Applied(node.identity, level, true)), node := Some(node.id))]
    {
      hide Acts, Opened, OthersKept, MutesKept, AllBacked;
      ghost var a := Now();
      var route := routes[key];
      var applied := Some(Applied(node.identity, level, true));
      ok := true;
      StillBacked(a, key);
      ActsRefl(a, key, {});
      if node.muted != Some(true) || route.applied != applied {
        ok := server.SetLevel(route.name, node, level, true);
        LoopbackStep(a, Now(), key, a.world[route.owner].(muted := true), {});
        LevelThenLinks(a, Now(), Now(), g, key, level, true, ok);
      }
      if ok {
        ghost var b := Now();
        if b.calls != a.calls {
          RunBacks(route.(applied := applied), b.calls, |a.calls|, node.id);
        }
        routes := routes[key := route.(applied := applied, node := Some(node.id))];
        RecordStep(b, Now(), key, routes[key], {});
        ActsTrans(a, b, Now(), key, {});
      }
    }

    /** One route of the barrier: drop it, or make sure that it is silent. */
    method SilenceOne(g: Graph, f: Findings, ghost base: World, key: RouteKey) returns (ok: bool)
      requires Valid() && key in routes && key.Cell? && f.ready <= desired.mixes.at.Keys
      requires Truthful(g, base) && MutesKept(base, server.world) && routes[key].owner in base
      modifies this`routes, server`world, server`history, server`calls
      ensures Valid() && Acts(old(Now()), Now(), key, {})
      ensures key in routes ==> Passed(desired, g, key, old(routes)[key], routes[key])
      ensures ok && key in routes ==> Settled(desired, key, routes[key], server.world)
      ensures !Silent(desired, key) ==> server.calls == old(server.calls)
      ensures forall i :: |old(server.calls)| <= i < |server.calls| ==>
        ForRoute(desired, old(routes), g, key, server.calls[i])
    {
      hide Acts, Opened, OthersKept, MutesKept, Consistent, Truthful, WriteJustified, ForRoute;
      ghost var a := Now();
      ActsRefl(a, key, {});
      var s := key.source;
      if s !in desired.sources.at || key.mix !in f.ready || Volume(desired, key) <= 0.0
         || RawMissing(desired, g, s) || FxMissing(f, s)
      {
        ok := DropRoute(key, {});
        return;
      }
      if !MutedIn(desired, key) {
        return true;
      }
      var route := routes[key];
      var running := StillRunning(key, {});
      if running.Err? {
        return false;
      }
      ghost var b := Now();
      var node := g.Owned(route.name, route.owner);
      if !running.value || node.None? {
        ok := DropRoute(key, {});
      } else {
        ShownMuted(g, base, a, b, key);
        ok := EnsureMuted(g, key, node.value, LevelOf(desired, key));
        WriteIsForRoute(desired, b, Now(), g, key, LevelOf(desired, key), true);
      }
      ActsTrans(a, b, Now(), key, {});
    }

    /** The barrier over every existing cell route. Ok means that each one left is
        of a known source and, where the matrix mutes it, silent. */
    method Silence(g: Graph, f: Findings, ghost base: World) returns (ok: bool)
      requires Valid() && f.ready <= desired.mixes.at.Keys
      requires Truthful(g, base) && MutesKept(base, server.world)
      requires forall k :: k in routes ==> routes[k].owner in base
      modifies this`routes, server`world, server`history, server`calls
      ensures Valid() && BarrierSoFar(desired, g, old(Now()), Now())
      ensures ok ==> BarrierDone(desired, Now())
    {
      hide Acts, Consistent, Truthful, Barrier, BarrierSoFar, BarrierDone, Settled, Passed, CallsJustified, MutesKept;
      ghost var a := Now();
      var todo := set k | k in routes && k.Cell?;
      BarrierStart(desired, g, a);
      while todo != {}
        invariant Valid() && Barrier(desired, g, a, Now(), todo)
        decreases |todo|
      {
        var key :| key in todo;
        ghost var b := Now();
        BarrierPick(desired, g, base, a, b, todo, key);
        ok := SilenceOne(g, f, base, key);
        BarrierStepSoFar(desired, g, a, b, Now(), key);
        if !ok {
          return;
        }
        BarrierStep(desired, g, a, b, Now(), todo, key);
        todo := todo - {key};
      }
      ok := true;
      BarrierEnd(desired, g, a, Now());
    }

    method StartRoute(g: Graph, key: RouteKey, spec: RouteSpec, ghost open: set<RouteKey>) returns (r: Result<bool>)
      requires Valid() && key !in routes
      modifies this`routes, server`world, server`history, server`next
      ensures Valid() && Acts(old(Now()), Now(), key, open)
      ensures r.Ok? <==> key in routes
      ensures key in routes ==>
        Quiet(routes[key], server.world) && routes[key].applied.None? && routes[key].spec == spec
      ensures r.Ok? ==> r == Ok(false)
      ensures server.calls == old(server.calls)
      ensures RouteName(key) in g.names || RouteName(key) + "_cap" in g.names ==>
        r == Err(Identity) && routes == old(routes) && server.world == old(server.world)
      ensures RouteName(key) !in g.names && RouteName(key) + "_cap" !in g.names ==>
        r == Ok(false) || r == Err(Unavailable)
    {
      hide Acts, Opened, OthersKept, MutesKept, AllBacked;
      ghost var a := Now();
      ActsRefl(a, key, open);
      var name := RouteName(key);
      if name in g.names || name + "_cap" in g.names {
        return Err(Identity);
      }
      var owner := server.Spawn(key, name);
      if owner.Err? {
        IdleStep(a, Now(), key, open);
        return Err(owner.code);
      }
      routes := routes[key := Route(spec, name, owner.value, None, None, 0)];
      SpawnStep(a, Now(), key, routes[key], open);
      r := Ok(false);
    }

    /** Link the playback side first, then the capture side; a level precedes both. */
    method LinkRoute(key: RouteKey, ghost open: set<RouteKey>) returns (r: Result<bool>)
      requires Valid() && key in routes
      requires key in open || server.world[routes[key].owner].muted
      modifies server`world, server`history, server`calls
      ensures Valid() && Acts(old(Now()), Now(), key, open) && old(server.calls) < server.calls
      ensures OnlyLinks(server.calls[|old(server.calls)|..], routes[key].owner)
      ensures server.world[routes[key].owner].muted == old(server.world[routes[key].owner].muted)
      ensures r == Ok(true) ==> server.world[routes[key].owner].linked
    {
      hide Acts, Opened, OthersKept, MutesKept, Consistent;
      ghost var a := Now();
      OwnsAll(a);
      ghost var linked := a.world[routes[key].owner].(linked := true);
      ActsRefl(a, key, open);
      if routes[key].spec.target.Some? {
        r := server.Link(routes[key].owner);
        LoopbackStep(a, Now(), key, linked, open);
        if r != Ok(true) {
          return;
        }
      }
      ghost var b := Now();
      OwnsAll(b);
      r := server.Link(routes[key].owner);
      LoopbackStep(b, Now(), key, linked, open);
      ActsTrans(a, b, Now(), key, open);
    }

    /** The level is on record for this node already, or is written, and then recorded. */
    method WriteLevel(g: Graph, key: RouteKey, node: GraphNode, level: real, muted: bool, ghost open: set<RouteKey>)
      returns (ok: bool)
      requires Valid() && key in routes && g.Owned(routes[key].name, routes[key].owner) == Some(node)
      requires muted || key in open
      requires muted ==> Quiet(routes[key], server.world)
      modifies this`routes, server`world, server`history, server`calls
      ensures Valid() && Acts(old(Now()), Now(), key, open)
      ensures key in routes && routes == old(routes)[key := routes[key]]
      ensures routes[key] == old(routes)[key].(applied := routes[key].applied)
      ensures old(routes)[key].applied == Some(Applied(node.identity, level, muted)) ==>
        ok && server.calls == old(server.calls) && routes == old(routes)
      ensures old(routes)[key].applied != Some(Applied(node.identity, level, muted)) ==>
        old(server.calls) < server.calls && LevelRun(server.calls[|old(server.calls)|..], node.id, level, muted, ok)
      ensures !ok ==> routes[key] == old(routes)[key] && (muted ==> Quiet(routes[key], server.world))
      ensures ok ==> routes[key].applied == Some(Applied(node.identity, level, muted))
      ensures ok && muted ==> server.world[routes[key].owner].muted
      ensures ok && old(routes)[key].applied != Some(Applied(node.identity, level, muted)) ==>
        server.world[routes[key].owner].muted == muted
    {
      hide Acts, Opened, OthersKept, MutesKept, AllBacked;
      ghost var a := Now();
      var route := routes[key];
      var wanted := Some(Applied(node.identity, level, muted));
      ActsRefl(a, key, open);
      if route.applied == wanted {
        assert routes == routes[key := routes[key]];
        return true;
      }
      ok := server.SetLevel(route.name, node, level, muted);
      LoopbackStep(a, Now(), key, a.world[route.owner].(muted := muted), open);
      if ok {
        ghost var b := Now();
        RunBacks(route.(applied := wanted), b.calls, |a.calls|, node.id);
        routes := routes[key := route.(applied := wanted)];
        RecordStep(b, Now(), key, routes[key], open);
        ActsTrans(a, b, Now(), key, open);
      } else {
        assert routes == routes[key := routes[key]];
      }
    }

    /** The nodes of a route are not in the snapshot: the third time running it is dropped. */
    method Missed(key: RouteKey, ghost open: set<RouteKey>) returns (r: Result<bool>)
      requires Valid() && key in routes
      modifies this`routes, server`world, server`history
      ensures Valid() && Acts(old(Now()), Now(), key, open)
      ensures key in routes ==> routes[key] == old(routes)[key].(node := None, missing := old(routes)[key].missing + 1)
      ensures key in routes && Quiet(old(routes)[key], old(server.world)) ==> Quiet(routes[key], server.world)
      ensures if old(routes)[key].missing + 1 < 3
        then r == Ok(false) && key in routes && routes == old(routes)[key := routes[key]]
        else r == (if key in routes then Err(Unavailable) else Ok(false))
    {
      hide Acts, Opened, OthersKept, MutesKept, AllBacked, Backed;
      ghost var a := Now();
      StillBacked(a, key);
      var route := routes[key];
      routes := routes[key := route.(node := None, missing := route.missing + 1)];
      RecordStep(a, Now(), key, routes[key], open);
      r := Ok(false);
      if route.missing + 1 >= 3 {
        ghost var b := Now();
        var ok := DropRoute(key, open);
        ActsTrans(a, b, Now(), key, open);
        r := if ok then Ok(false) else Err(Unavailable);
      }
    }

    /** The wanted level first, on the node the snapshot shows; links only after it. */
    method TuneRoute(g: Graph, key: RouteKey, level: real, muted: bool, ghost open: set<RouteKey>)
      returns (r: Result<bool>)
      requires Valid() && key in routes
      requires muted || key in open
      requires muted ==> Quiet(routes[key], server.world)
      modifies this`routes, server`world, server`history, server`calls
      ensures Valid() && Acts(old(Now()), Now(), key, open)
      ensures muted && key in routes ==> Quiet(routes[key], server.world)
      ensures WriteJustified(old(Now()), Now(), g, key, level, muted)
      ensures r.Ok? && key in routes ==> Tuned(g, routes[key], level, muted)
      ensures key in routes ==> routes[key].spec == old(routes)[key].spec
      ensures r == Ok(true) ==> key in routes && Connected(g, routes[key], level, muted, server.world)
      ensures r.Ok? ==> Present(g, old(routes), routes, key)
      ensures g.Owned(old(routes)[key].name, old(routes)[key].owner).None?
              || g.Owned(old(routes)[key].name + "_cap", old(routes)[key].owner).None? ==>
        if old(routes)[key].missing + 1 < 3 then r == Ok(false) && routes == old(routes)[key :=
          old(routes)[key].(node := None, missing := old(routes)[key].missing + 1)]
        else r.Err? || key !in routes
    {
      hide Acts, Opened, OthersKept, MutesKept, LevelRun, OnlyLinks, WriteJustified, AllBacked, Backed;
      ghost var a := Now();
      StillBacked(a, key);
      NoWrite(a, a, g, key, level, muted);
      var route := routes[key];
      var node := g.Owned(route.name, route.owner);
      var cap := g.Owned(route.name + "_cap", route.owner);
      if node.None? || cap.None? {
        r := Missed(key, open);
        NoWrite(a, Now(), g, key, level, muted);
        return;
      }
      routes := routes[key := route.(node := Some(node.value.id), missing := 0)];
      RecordStep(a, Now(), key, routes[key], open);
      ghost var b := Now();
      var ok := WriteLevel(g, key, node.value, level, muted, open);
      ghost var c := Now();
      ActsTrans(a, b, c, key, open);
      if !ok {
        NoLinks(c.calls, route.owner);
        LevelThenLinks(a, c, c, g, key, level, muted, ok);
        return Err(Unavailable);
      }
      r := LinkRoute(key, open);
      ActsTrans(a, c, Now(), key, open);
      LevelThenLinks(a, c, Now(), g, key, level, muted, ok);
    }

    /** `route`: keep, restart or start one wanted route, and connect it if it is there. */
    method OpenOne(
      g: Graph, key: RouteKey, spec: RouteSpec, level: real, muted: bool, ghost open: set<RouteKey>)
      returns (r: Result<bool>)
      requires Valid() && (muted || key in open)
      requires muted && key in routes ==> Quiet(routes[key], server.world)
      modifies this`routes, server`world, server`history, server`next, server`calls
      ensures Valid() && Acts(old(Now()), Now(), key, open)
      ensures muted && key in routes ==> Quiet(routes[key], server.world)
      ensures WriteJustified(old(Now()), Now(), g, key, level, muted)
      ensures r.Ok? && key in routes ==> Tuned(g, routes[key], level, muted) && routes[key].spec == spec
      ensures r == Ok(true) ==> key in routes && Connected(g, routes[key], level, muted, server.world)
      ensures r.Ok? ==> Present(g, old(routes), routes, key)
    {
      hide Acts, Opened, OthersKept, MutesKept, Consistent, WriteJustified;
      ghost var a := Now();
      ActsRefl(a, key, open);
      if key in routes {
        var replace := routes[key].spec != spec;
        if !replace {
          var running := StillRunning(key, open);
          if running.Err? {
            NoWrite(a, Now(), g, key, level, muted);
            return Err(running.code);
          }
          replace := !running.value;
        }
        if replace {
          ghost var b := Now();
          var ok := DropRoute(key, open);
          ActsTrans(a, b, Now(), key, open);
          if !ok {
            NoWrite(a, Now(), g, key, level, muted);
            return Err(Unavailable);
          }
        }
      }
      ghost var b := Now();
      if key !in routes {
        r := StartRoute(g, key, spec, open);
        NoWrite(a, Now(), g, key, level, muted);
      } else {
        r := TuneRoute(g, key, level, muted, open);
        WriteJustifiedFrom(a, b, Now(), g, key, level, muted);
      }
      ActsTrans(a, b, Now(), key, open);
    }

    static ghost predicate Blocks(errors: set<RouteKey>, blocked: set<string>) {
      (forall k :: k in errors ==> k.Cell? && k.source in blocked)
      && forall s :: s in blocked ==> exists k :: k in errors && k.Cell? && k.source == s
    }

    static lemma BlocksNone()
      ensures Blocks({}, {})
    {}

    static lemma BlocksMore(errors: set<RouteKey>, blocked: set<string>, key: RouteKey)
      requires Blocks(errors, blocked) && key.Cell?
      ensures Blocks(errors + {key}, blocked + {key.source})
    {}

    static lemma BlocksExactly(errors: set<RouteKey>, blocked: set<string>)
      requires Blocks(errors, blocked)
      ensures forall s :: s in blocked <==> exists k :: k in errors && k.Cell? && k.source == s
    {}

    /** Opens every wanted cell once; one that fails blocks its source's silence proof. */
    method OpenCells(g: Graph, f: Findings, ghost a: Moment)
      returns (done: set<RouteKey>, blocked: set<string>, errors: set<RouteKey>)
      requires Valid() && Opening(desired, g, a, Now(), Now(), {}, {})
      modifies this`routes, server`world, server`history, server`next, server`calls
      ensures Valid() && Opening(desired, g, a, old(Now()), Now(), done, blocked)
      ensures forall k :: k in done <==> Openable(desired, g, f, k)
      ensures AllPresent(g, old(routes), routes, done, errors)
      ensures forall s :: s in blocked <==> exists k :: k in errors && k.Cell? && k.source == s
    {
      hide Acts, Consistent, Opening, AllPresent, Present, Blocks, LevelOf, WriteJustified, Tuned, Connected;
      ghost var m := Now();
      done, blocked, errors := {}, {}, {};
      NonePresent(g, routes);
      BlocksNone();
      var sources, mixes := desired.sources.keys, desired.mixes.keys;
      for i := 0 to |sources|
        invariant Valid() && Opening(desired, g, a, m, Now(), done, blocked)
        invariant AllPresent(g, m.routes, routes, done, errors) && Blocks(errors, blocked)
        invariant forall k :: k in done <==> Openable(desired, g, f, k) && k.source in sources[..i]
      {
        var id := sources[i];
        var capture := CaptureFor(desired, g, f, id);
        if capture.None? {
          continue;
        }
        for j := 0 to |mixes|
          invariant Valid() && Opening(desired, g, a, m, Now(), done, blocked)
          invariant AllPresent(g, m.routes, routes, done, errors) && Blocks(errors, blocked)
          invariant forall k :: k in done <==>
            Openable(desired, g, f, k) && (k.source in sources[..i] || (k.source == id && k.mix in mixes[..j]))
        {
          var key := Cell(id, mixes[j]);
          var target := g.Node(desired.mixes.at[mixes[j]].sink);
          if mixes[j] in f.ready && Volume(desired, key) > 0.0 && target.Some? {
            ghost var b := Now();
            var muted := MutedIn(desired, key);
            ghost var open := if muted then {} else {key};
            OpeningPick(desired, g, a, m, b, done, blocked, key);
            var spec := RouteSpec(capture.value, Some(target.value.identity), None);
            var r := OpenOne(g, key, spec, LevelOf(desired, key), muted, open);
            ghost var before, failed := blocked, errors;
            if r.Err? {
              blocked, errors := blocked + {id}, errors + {key};
            }
            BlocksMore(failed, before, key);
            OpeningStep(desired, g, a, m, b, Now(), done, before, blocked, key, open);
            KeptOthers(b, Now(), key, open);
            PresentStep(g, m.routes, b, Now(), done, failed, errors, key);
            done := done + {key};
          }
        }
      }
      BlocksExactly(errors, blocked);
    }

    static function FeedMix(key: RouteKey): string {
      match key
      case Cell(_, mix) => mix
      case Capture(mix) => mix
      case Output(mix) => mix
    }

    /** One feed, at full volume; a failure is an error of that feed. */
    method OpenFeed(
      g: Graph, ghost a: Moment, ghost m: Moment, key: RouteKey, spec: RouteSpec, ghost wanted: set<RouteKey>,
      ghost cells: set<RouteKey>, ghost blocked: set<string>, ghost r0: map<RouteKey, Route>, errors: set<RouteKey>)
      returns (errors': set<RouteKey>)
      requires Valid() && Opening(desired, g, a, m, Now(), wanted, blocked) && !key.Cell? && key !in wanted
      requires cells <= wanted && AllPresent(g, r0, routes, wanted - cells, errors)
      modifies this`routes, server`world, server`history, server`next, server`calls
      ensures Valid() && Opening(desired, g, a, m, Now(), wanted + {key}, blocked)
      ensures AllPresent(g, r0, routes, wanted + {key} - cells, errors')
    {
      hide Acts, Consistent, Opening, AllPresent, Present, WriteJustified, Tuned, Connected;
      ghost var b := Now();
      var linked := OpenOne(g, key, spec, 1.0, false, {key});
      errors' := if linked.Err? then errors + {key} else errors;
      FeedStep(desired, g, a, m, b, Now(), wanted, blocked, key);
      KeptOthers(b, Now(), key, {key});
      PresentStep(g, r0, b, Now(), wanted - cells, errors, errors', key);
      assert wanted + {key} - cells == wanted - cells + {key};
    }

    /** A mix's published capture and, if it is monitored, its output route. */
    method OpenFeeds(g: Graph, f: Findings, ghost a: Moment, ghost m: Moment, cells: set<RouteKey>,
        blocked: set<string>)
      returns (r: Result<set<RouteKey>>, ghost done: set<RouteKey>, errors: set<RouteKey>)
      requires Valid() && Opening(desired, g, a, m, Now(), cells, blocked) && forall k :: k in cells ==> k.Cell?
      modifies this`routes, server`world, server`history, server`next, server`calls
      ensures Valid() && Opening(desired, g, a, m, Now(), done, blocked)
      ensures r.Ok? ==> r.value == done && forall k :: k in done <==> k in cells || FeedWanted(desired, g, f, k)
      ensures cells <= done && AllPresent(g, old(routes), routes, done - cells, errors)
    {
      hide Acts, Consistent, Opening, AllPresent, Present;
      var wanted := cells;
      errors := {};
      ghost var r0 := routes;
      NonePresent(g, routes);
      assert wanted - cells == {};
      var mixes := desired.mixes.keys;
      for i := 0 to |mixes|
        invariant Valid() && Opening(desired, g, a, m, Now(), wanted, blocked)
        invariant cells <= wanted && AllPresent(g, r0, routes, wanted - cells, errors)
        invariant forall k :: k in wanted <==> k in cells || (FeedWanted(desired, g, f, k) && FeedMix(k) in mixes[..i])
      {
        var id := mixes[i];
        assert mixes[..i + 1] == mixes[..i] + [id];
        var source := g.Node(desired.mixes.at[id].sink);
        if id !in f.ready || source.None? {
          continue;
        }
        var key := Capture(id);
        var spec := RouteSpec(source.value.identity, None, Some(desired.mixes.at[id].description));
        errors := OpenFeed(g, a, m, key, spec, wanted, cells, blocked, r0, errors);
        wanted := wanted + {key};
        if id in f.outputs {
          if f.outputs[id].Err? {
            return Err(f.outputs[id].code), wanted, errors;
          }
          if f.outputs[id].value.Some? {
            key := Output(id);
            spec := RouteSpec(source.value.identity, f.outputs[id].value, None);
            errors := OpenFeed(g, a, m, key, spec, wanted, cells, blocked, r0, errors);
            wanted := wanted + {key};
          }
        }
      }
      return Ok(wanted), wanted, errors;
    }

    method DropStale(g: Graph, ghost a: Moment, ghost m: Moment, wanted: set<RouteKey>, ghost blocked: set<string>)
      returns (ok: bool)
      requires Valid() && Opening(desired, g, a, m, Now(), wanted, blocked)
      modifies this`routes, server`world, server`history
      ensures Valid() && Opening(desired, g, a, m, Now(), wanted, blocked)
      ensures ok ==> routes.Keys <= wanted
      ensures forall k :: k in wanted && k in old(routes) ==> k in routes
    {
      hide Acts, Consistent, Opening;
      var stale := set k | k in routes && k !in wanted;
      while stale != {}
        invariant Valid() && Opening(desired, g, a, m, Now(), wanted, blocked)
        invariant stale == set k | k in routes && k !in wanted
        invariant forall k :: k in wanted && k in old(routes) ==> k in routes
        decreases |stale|
      {
        var key :| key in stale;
        ghost var b := Now();
        ok := DropRoute(key, {});
        StaleStep(desired, g, a, m, b, Now(), wanted, blocked, key, ok);
        if !ok {
          return;
        }
        stale := stale - {key};
      }
      assert forall k :: k in routes ==> k !in stale;
      ok := true;
    }

    /** The routes of one full pass: silence everything that must be silent, and only
        then open. Ok returns the sources whose silence is not proven. */
    method Reconcile(g: Graph, f: Findings, ghost base: World) returns (r: Result<set<string>>, errors: set<RouteKey>)
      requires Valid() && f.ready <= desired.mixes.at.Keys
      requires Truthful(g, base) && MutesKept(base, server.world)
      requires forall k :: k in routes ==> routes[k].owner in base
      modifies this`routes, server`world, server`history, server`next, server`calls
      ensures Valid() && TwoPhase(desired, g, old(Now()), Now())
      ensures r.Ok? ==> Reconciled(desired, g, Now(), r.value)
      ensures r.Ok? ==> forall k :: k in routes ==> Openable(desired, g, f, k) || FeedWanted(desired, g, f, k)
      ensures r.Ok? ==> forall k :: (Openable(desired, g, f, k) || FeedWanted(desired, g, f, k)) && k !in errors ==>
        Present(g, old(routes), routes, k)
      ensures r.Ok? ==> forall s :: s in r.value <==> exists k :: k in errors && k.Cell? && k.source == s
    {
      errors := {};
      hide AllPresent, Present, CallsJustified, Openable, FeedWanted;
      hide Consistent, Opening, BarrierSoFar, BarrierDone, TwoPhase, Reconciled, Truthful, MutesKept;
      ghost var a := Now();
      var ok := Silence(g, f, base);
      ghost var m := Now();
      if !ok {
        FailedPhase(desired, g, a, m);
        return Err(Unavailable), errors;
      }
      OpeningStart(desired, g, a, m);
      var cells, blocked, failed := OpenCells(g, f, a);
      ghost var c := Now();
      CellsOnly(desired, g, f, cells);
      var wanted, done, unfed := OpenFeeds(g, f, a, m, cells, blocked);
      ghost var e := Now();
      errors := failed + unfed;
      OpenPhase(desired, g, a, m, Now(), done, blocked);
      if wanted.Err? {
        return Err(wanted.code), errors;
      }
      PresentThrough(g, m.routes, c.routes, e.routes, cells, failed, done - cells, unfed);
      assert cells + (done - cells) == done;
      PresentBefore(desired, g, a, m, e.routes, done, errors);
      ok := DropStale(g, a, m, wanted.value, blocked);
      OpenPhase(desired, g, a, m, Now(), done, blocked);
      if !ok {
        return Err(Unavailable), errors;
      }
      ReconciledAfter(desired, g, a, m, Now(), done, blocked);
      StillPresent(g, a.routes, e.routes, routes, done, errors);
      ErrorsBlock(desired, g, f, cells, failed, done - cells, unfed, blocked, c.routes, m.routes, e.routes);
      return Ok(blocked), errors;
    }

    // -------------------------------------------------------------- retune

    /** The stored cell `key` names, searching sources and mixes in order. */
    method FindCell(next: Desired, key: string) returns (r: Option<RouteKey>)
      ensures r.Some? ==> r.value.Cell? && r.value.source in next.sources.at && r.value.mix in next.mixes.at
      ensures r.Some? ==> CellKey(r.value.source, r.value.mix) == key
      ensures r.None? ==> !KnownCell(next, key)
    {
      for i := 0 to |next.sources.keys|
        invariant forall s, m :: s in next.sources.keys[..i] && m in next.mixes.at ==> CellKey(s, m) != key
      {
        var s := next.sources.keys[i];
        for j := 0 to |next.mixes.keys|
          invariant forall m :: m in next.mixes.keys[..j] ==> CellKey(s, m) != key
        {
          if CellKey(s, next.mixes.keys[j]) == key {
            return Some(Cell(s, next.mixes.keys[j]));
          }
        }
      }
      r := None;
    }

    /** The cells of every source whose level moves, if nothing else about a source does. */
    method SourcesTouched(next: Desired) returns (r: Option<set<RouteKey>>)
      requires desired.sources.keys == next.sources.keys
      ensures r.Some? <==> forall s :: s in next.sources.keys ==>
        SourceRetunable(desired.sources.at[s], next.sources.at[s])
      ensures r.Some? ==> forall k :: k in r.value <==> TouchesSource(desired, next, k)
    {
      var touched: set<RouteKey> := {};
      for i := 0 to |next.sources.keys|
        invariant forall s :: s in next.sources.keys[..i] ==>
          SourceRetunable(desired.sources.at[s], next.sources.at[s])
        invariant forall k :: k in touched <==>
          TouchesSource(desired, next, k) && k.source in next.sources.keys[..i]
      {
        var s := next.sources.keys[i];
        var before, after := desired.sources.at[s], next.sources.at[s];
        if before.level == after.level {
          if before != after {
            return None;
          }
        } else {
          if before.(level := after.level) != after || ((before.level <= 0.0) != (after.level <= 0.0)) {
            return None;
          }
          touched := touched + set m | m in next.mixes.at :: Cell(s, m);
        }
      }
      r := Some(touched);
    }

    /** The cells whose volume moves, if nothing else about a stored cell does. */
    method CellsTouched(next: Desired) returns (r: Option<set<RouteKey>>)
      requires WellFormed(next)
      requires desired.sources.keys == next.sources.keys && desired.matrix.cells.keys == next.matrix.cells.keys
      ensures r.Some? <==> forall c :: c in next.matrix.cells.keys ==> CellRetunable(desired, next, c)
      ensures r.Some? ==> forall k :: k in r.value <==> TouchesCell(desired, next, k)
    {
      hide WellFormed, KnownCell;
      var touched: set<RouteKey> := {};
      for i := 0 to |next.matrix.cells.keys|
        invariant forall c :: c in next.matrix.cells.keys[..i] ==> CellRetunable(desired, next, c)
        invariant forall k :: k in touched <==>
          TouchesCell(desired, next, k) && CellKey(k.source, k.mix) in next.matrix.cells.keys[..i]
      {
        var c := next.matrix.cells.keys[i];
        var before, after := desired.matrix.cells.at[c], next.matrix.cells.at[c];
        if before.volume == after.volume {
          if before != after {
            return None;
          }
        } else {
          if before.muted != after.muted || before.extra != after.extra
             || ((before.volume <= 0.0) != (after.volume <= 0.0))
          {
            return None;
          }
          var cell := FindCell(next, c);
          if cell.None? {
            return None;
          }
          KnownIs(next, cell.value, c);
          NamesOneCell(next, cell.value);
          touched := touched + {cell.value};
        }
      }
      r := Some(touched);
    }

    /** The cells whose level an edit moves, if levels are all that it moves. */
    method TouchedBy(next: Desired) returns (r: Option<set<RouteKey>>)
      requires WellFormed(next)
      ensures r.Some? <==> LevelsOnly(desired, next)
      ensures r.Some? ==> forall k :: k in r.value <==> Touches(desired, next, k)
    {
      hide WellFormed, SourceRetunable, CellRetunable, TouchesSource, TouchesCell;
      if desired.mixes.at != next.mixes.at || desired.scenes != next.scenes
         || desired.matrix.outputs.at != next.matrix.outputs.at
         || desired.matrix.volumes.at != next.matrix.volumes.at
         || desired.matrix.extra != next.matrix.extra
         || desired.sources.keys != next.sources.keys
         || desired.matrix.cells.keys != next.matrix.cells.keys
      {
        return None;
      }
      var sources := SourcesTouched(next);
      if sources.None? {
        return None;
      }
      var cells := CellsTouched(next);
      if cells.None? {
        return None;
      }
      r := Some(sources.value + cells.value);
    }

    /** What an edit owes one route it touches, if that is running and was last applied with
        the same mute; `fit` is false if it is not. */
    method PlanOne(next: Desired, key: RouteKey) returns (fit: bool, write: Option<Write>)
      requires Valid() && key.Cell? && key.source in next.sources.at
      modifies server`world, server`history
      ensures Valid() && Quieted(old(Now()), Now())
      ensures fit ==> server.world == old(server.world) && Alive(routes, server.world, key)
      ensures fit && write.Some? ==> write.value.key == key && PlannedWrite(next, routes, write.value)
      ensures fit && write.None? ==> AppliedAs(next, key, routes)
    {
      ghost var a := Now();
      fit, write := false, None;
      QuietedRefl(a);
      if key !in routes || routes[key].applied.None? || routes[key].node.None? {
        return;
      }
      var running := StillRunning(key, {});
      hide Consistent, Quieted, Acts, LevelOf, MutedIn;
      QuietedStep(a, a, Now(), key);
      var applied := routes[key].applied.value;
      if running != Ok(true) || applied.muted != MutedIn(next, key) {
        return;
      }
      fit := true;
      if applied.level != LevelOf(next, key) {
        write := Some(Write(key, routes[key].node.value, applied.(level := LevelOf(next, key))));
      }
    }

    /** The volume writes an edit owes, provided that every route it touches is running
        and was last applied with the same mute. */
    method PlanWrites(next: Desired, touched: set<RouteKey>) returns (r: Option<seq<Write>>)
      requires Valid()
      requires forall k :: k in touched ==> k.Cell? && k.source in next.sources.at
      modifies server`world, server`history
      ensures Valid() && Quieted(old(Now()), Now())
      ensures r.Some? ==>
        Planned(next, routes, touched, r.value) && forall i :: 0 <= i < |r.value| ==> r.value[i].key in touched
      ensures r.Some? ==> forall k :: k in touched && Volume(next, k) > 0.0 ==> Alive(routes, server.world, k)
    {
      hide Consistent, Quieted, Acts, Planned, PlannedWrite, AppliedAs, Volume, Alive, Planning;
      ghost var a := Now();
      QuietedRefl(a);
      var writes: seq<Write> := [];
      var todo := touched;
      ghost var done: set<RouteKey> := {};
      PlanningStart(next, routes, server.world, touched);
      while todo != {}
        invariant Valid() && Quieted(a, Now())
        invariant todo <= touched && done == touched - todo
          && Planning(next, routes, server.world, touched, done, writes)
        decreases |todo|
      {
        var key :| key in todo;
        if Volume(next, key) > 0.0 {
          ghost var b := Now();
          var fit, write := PlanOne(next, key);
          QuietedTrans(a, b, Now());
          if !fit {
            return None;
          }
          PlanningStep(next, routes, server.world, touched, done, writes, key, write);
          writes := if write.Some? then writes + [write.value] else writes;
        } else {
          PlanningIdle(next, routes, server.world, touched, done, writes, key);
        }
        todo, done := todo - {key}, done + {key};
      }
      assert done == touched;
      PlanningEnd(next, routes, server.world, touched, writes);
      r := Some(writes);
    }

    /** The fast path: moves levels on running routes without a snapshot, or gives up
        and leaves the rest to the full pass. `writes` are the volumes it commanded, each once
        and nothing else, the last of which may have failed. */
    method Retune(next: Desired) returns (retuned: bool, ghost writes: seq<Write>)
      requires Valid() && WellFormed(next)
      modifies this`routes, server`world, server`history, server`calls
      ensures Valid() && Quieted(old(Now()), Now())
      ensures RoutesMoved(next, old(routes), routes)
      ensures retuned ==> TouchedMoved(desired, next, routes)
      ensures writes != [] ==> LevelsOnly(desired, next)
      ensures forall i :: 0 <= i < |writes| ==>
        PlannedWrite(next, old(routes), writes[i]) && Touches(desired, next, writes[i].key)
      ensures server.calls == old(server.calls) + Issued(writes, retuned)
      ensures retuned ==>
        forall k :: k in TouchedKeys(desired, next) && Volume(next, k) > 0.0 ==> Alive(routes, server.world, k)
      ensures retuned ==> writes != [] && Planned(next, old(routes), TouchedKeys(desired, next), writes)
    {
      hide Consistent, Quieted, Acts, LevelsOnly, WellFormed, PlannedWrite, RoutesMoved, Planned, Volume, Touches,
        Volumes, Written,
        TouchedMoved;
      ghost var a := Now();
      QuietedRefl(a);
      MovedNone(next, routes);
      writes, retuned := [], false;
      NothingWritten();
      var touched := TouchedBy(next);
      if touched.None? {
        return;
      }
      TouchesCells(desired, next);
      var plan := PlanWrites(next, touched.value);
      if plan.None? || plan.value == [] {
        return;
      }
      PlannedEach(next, routes, touched.value, plan.value);
      ghost var r0, b := routes, Now();
      retuned, writes := WriteAll(next, plan.value);
      QuietedTrans(a, b, Now());
      if retuned {
        MovedAll(desired, next, r0, routes, touched.value, plan.value);
        MovedOwners(next, r0, routes);
        TouchedSame(desired, next, touched.value);
      }
    }

    /** Planned volumes, in order, until one fails. */
    method WriteAll(next: Desired, plan: seq<Write>) returns (ok: bool, ghost writes: seq<Write>)
      requires Valid() && plan != [] && forall i :: 0 <= i < |plan| ==> PlannedWrite(next, routes, plan[i])
      modifies this`routes, server`world, server`history, server`calls
      ensures Valid() && Quieted(old(Now()), Now()) && server.world == old(server.world)
      ensures RoutesMoved(next, old(routes), routes)
      ensures writes != [] && writes <= plan && server.calls == old(server.calls) + Issued(writes, ok)
      ensures ok ==> writes == plan && Written(plan, routes)
    {
      hide Consistent, Quieted, Acts, PlannedWrite, RoutesMoved, Written, Volumes;
      ghost var a, r0 := Now(), routes;
      QuietedRefl(a);
      MovedNone(next, routes);
      NoVolumes(plan, routes);
      writes := [];
      for i := 0 to |plan|
        invariant Valid() && Quieted(a, Now()) && server.world == a.world
        invariant RoutesMoved(next, r0, routes) && Written(plan[..i], routes)
        invariant server.calls == a.calls + Volumes(plan[..i])
      {
        writes := plan[..i + 1];
        ok := WriteVolume(next, r0, plan, i, a);
        VolumesMore(plan, i);
        if !ok {
          assert writes[..|writes| - 1] == plan[..i];
          return;
        }
      }
      writes, ok := plan, true;
      assert plan[..|plan|] == plan;
    }

    /** The commands of these writes, the last of which failed unless `all` succeeded. */
    static function Issued(writes: seq<Write>, all: bool): seq<Call> {
      if all || writes == [] then Volumes(writes)
      else
        var last := writes[|writes| - 1];
        Volumes(writes[..|writes| - 1]) + [VolumeCall(last.node, last.applied.level, false)]
    }

    method WriteVolume(next: Desired, ghost r0: map<RouteKey, Route>, writes: seq<Write>, i: nat, ghost a: Moment)
      returns (ok: bool)
      requires Valid() && Quieted(a, Now())
      requires i < |writes| && PlannedWrite(next, r0, writes[i])
      requires RoutesMoved(next, r0, routes) && Written(writes[..i], routes)
      requires forall j :: 0 <= j < i ==> PlannedWrite(next, r0, writes[j])
      modifies this`routes, server`world, server`history, server`calls
      ensures Valid() && Quieted(a, Now())
      ensures RoutesMoved(next, r0, routes)
      ensures ok ==> Written(writes[..i + 1], routes)
      ensures server.calls == old(server.calls) + [VolumeCall(writes[i].node, writes[i].applied.level, ok)]
      ensures server.world == old(server.world)
    {
      hide Consistent, Quieted, Acts, RoutesMoved, Written, LevelOf, MutedIn, Backed, PlannedWrite;
      var w := writes[i];
      MovedKeeps(next, r0, routes, w);
      ghost var b := Now();
      StillBacked(b, w.key);
      ok := server.SetVolume(w.node, w.applied.level);
      IdleStep(b, Now(), w.key, {});
      QuietedStep(a, b, Now(), w.key);
      ghost var c := Now();
      if ok {
        VolumeBacks(routes[w.key].(applied := Some(w.applied)), routes[w.key], b.calls, w.node);
      }
      // A failed id may be stale; only a snapshot may name the node again.
      routes := routes[w.key := if ok then routes[w.key].(applied := Some(w.applied))
                                else routes[w.key].(node := None)];
      NodeBacks(c, w.key);
      RecordStep(c, Now(), w.key, routes[w.key], {});
      QuietedStep(a, c, Now(), w.key);
      WrittenStep(next, r0, c.routes, routes, writes, i, ok);
    }

    method Update(next: Desired)
      modifies this`desired
      ensures desired == next
    {
      desired := next;
    }

    // -------------------------------------------------------------- cycles and runs

    method StopRoutes() returns (ok: bool)
      requires Valid()
      modifies this`routes, server`world, server`history
      ensures Valid() && Quieted(old(Now()), Now())
      ensures ok <==> routes == map[]
    {
      hide Consistent, Quieted, Acts;
      ghost var a := Now();
      QuietedRefl(a);
      var todo := routes.Keys;
      ghost var kept: set<RouteKey> := {};
      ok := true;
      while todo != {}
        invariant Valid() && Quieted(a, Now())
        invariant forall k :: k in routes <==> k in todo || k in kept
        invariant forall k :: k in todo ==> k !in kept
        invariant ok <==> kept == {}
        decreases |todo|
      {
        var key :| key in todo;
        ghost var b := Now();
        var dropped := DropRoute(key, {});
        QuietedStep(a, b, Now(), key);
        if !dropped {
          ok, kept := false, kept + {key};
        }
        todo := todo - {key};
      }
      assert forall k :: k in routes <==> k in kept;
    }

    /** Another server: our processes are ours to stop, its object ids mean nothing. */
    method ObserveCookie(seen: nat) returns (ok: bool)
      requires Valid()
      modifies this`routes, this`cookie, server`world, server`history
      ensures Valid() && Quieted(old(Now()), Now())
      ensures ok ==> cookie == Some(seen)
      ensures !ok ==> cookie == old(cookie)
      ensures ok && old(cookie) !in {None, Some(seen)} ==> routes == map[]
      ensures old(cookie) in {None, Some(seen)} ==> routes == old(routes)
    {
      hide Consistent, Quieted;
      QuietedRefl(Now());
      if cookie != None && cookie != Some(seen) {
        ok := StopRoutes();
        if !ok {
          return;
        }
      }
      cookie := Some(seen);
      ok := true;
    }

    /** Sources whose capture the published observation may call silent. */
    method SilentSources(g: Graph, blocked: set<string>) returns (silent: map<string, NodeIdentity>)
      requires Valid() && Reconciled(desired, g, Now(), blocked)
      ensures forall s :: s in silent ==>
        s in desired.sources.at && desired.sources.at[s].kind == Device && desired.sources.at[s].muted
      ensures forall s :: s in silent ==> g.CapturesNamed(desired.sources.at[s].nodeName) == [silent[s]]
      ensures forall s, o :: (s in silent && Audible(server.world, o) && server.world[o].key.Cell?) ==>
        server.world[o].key.source != s
    {
      silent := map[];
      for i := 0 to |desired.sources.keys|
        invariant forall s :: s in silent ==>
          s in desired.sources.at && desired.sources.at[s].kind == Device && desired.sources.at[s].muted
        invariant forall s :: s in silent ==> g.CapturesNamed(desired.sources.at[s].nodeName) == [silent[s]]
      {
        var id := desired.sources.keys[i];
        var source := desired.sources.at[id];
        var captures := g.CapturesNamed(source.nodeName);
        if source.kind == Device && source.muted && id !in blocked && |captures| == 1
           && forall k | k in routes :: k.Cell? && k.source == id ==> ShownSilent(g, routes[k])
        {
          silent := silent[id := captures[0]];
        }
      }
    }

    /** One pass over a fresh snapshot. Without one, nothing is touched. `pass` is the
        snapshot and the moment from which it was acted on. */
    method Cycle(reported: Option<Graph>, f: Findings, ghost groups: map<string, string>)
      returns (ghost pass: Option<(Graph, Moment)>)
      requires Valid() && f.ready <= desired.mixes.at.Keys
      requires Admissible(groups, desired) && Exclusive(groups, server.world) && AlwaysExclusive(groups, server.history)
      modifies this`routes, this`cookie, server`world, server`history, server`next, server`calls
      ensures Valid() && Exclusive(groups, server.world) && AlwaysExclusive(groups, server.history)
      ensures pass.None? ==> server.calls == old(server.calls)
      ensures pass.Some? ==>
        && reported == Some(pass.value.0) && TwoPhase(desired, pass.value.0, pass.value.1, Now())
        && pass.value.1.calls == old(server.calls)
        && (old(cookie) in {None, Some(pass.value.0.cookie)} ==> pass.value.1.routes == old(routes))
    {
      pass := None;
      hide Consistent, Quieted, Exclusive, AlwaysExclusive, Admissible, TwoPhase, Reconciled, MutesKept, Truthful;
      var snapshot := server.Snapshot(reported);
      if snapshot.None? {
        return;
      }
      ghost var base := Now();
      var ok := ObserveCookie(snapshot.value.cookie);
      QuietedExclusive(groups, base, Now());
      if !ok {
        return;
      }
      ghost var a := Now();
      SnapshotStands(base, a);
      var r, errors := Reconcile(snapshot.value, f, base.world);
      TwoPhaseExclusive(groups, desired, snapshot.value, a, Now());
      pass := Some((snapshot.value, a));
      if r.Ok? {
        var silent := SilentSources(snapshot.value, r.value);
      }
    }

    static predicate SameServer(cookie: Option<nat>, g: Graph) {
      cookie in {None, Some(g.cookie)}
    }

    /** The fast path and, after whatever drift, the full pass it owes: after a retune that
        succeeded, a pass over a snapshot with the same nodes and mutes sends no volume and no
        mute but to the nodes of captures and outputs. */
    method RetuneThenVerify(
      next: Desired, reported: Option<Graph>, f: Findings, exits: set<Owner>, unlinked: set<Owner>, unmuted: set<Owner>,
      ghost groups: map<string, string>)
      returns (retuned: bool, ghost writes: seq<Write>, ghost tuned: Moment)
      requires Valid() && WellFormed(next) && f.ready <= next.mixes.at.Keys && AllTuned(desired, routes)
      requires Admissible(groups, next) && Exclusive(groups, server.world) && AlwaysExclusive(groups, server.history)
      modifies this, server
      ensures Valid() && Exclusive(groups, server.world) && AlwaysExclusive(groups, server.history)
      ensures tuned.calls == old(server.calls) + Issued(writes, retuned)
      ensures retuned ==> AllTuned(next, tuned.routes)
      ensures !retuned ==> server.calls == tuned.calls
      ensures
        retuned && reported.Some? && SameServer(old(cookie), reported.value)
        && Agrees(reported.value, next, tuned.routes) ==>
        && tuned.calls <= server.calls
        && forall i :: |tuned.calls| <= i < |server.calls| ==>
             server.calls[i].LinkCall? || AtFeed(tuned.routes, reported.value, server.calls[i])
    {
      hide Consistent, Quieted, Exclusive, AlwaysExclusive, Admissible, WellFormed, AllTuned, TwoPhase, RoutesMoved,
        TouchedMoved,
        Agrees, AtFeed, Planned, PlannedWrite, LevelsOnly, Touches;
      ghost var a, d := Now(), desired;
      retuned, writes := Retune(next);
      QuietedExclusive(groups, a, Now());
      Update(next);
      tuned := Now();
      server.Drift(exits, unlinked, unmuted);
      DriftStep(groups, tuned, Now());
      if retuned {
        RetuneTunes(d, next, a.routes, routes);
        var pass := Cycle(reported, f, groups);
        if pass.Some? && SameServer(old(cookie), pass.value.0) && Agrees(pass.value.0, next, tuned.routes) {
          RetuneThenPassIsQuiet(d, next, a.routes, pass.value.0, pass.value.1, Now());
        }
      }
    }

    /** One turn of the worker loop: drift outside, perhaps the fast path, perhaps a pass. */
    method Iterate(t: Turn, ghost groups: map<string, string>)
      requires Valid() && WellFormed(t.desired) && t.findings.ready <= t.desired.mixes.at.Keys
      requires Admissible(groups, t.desired)
      requires Exclusive(groups, server.world) && AlwaysExclusive(groups, server.history)
      modifies this, server
      ensures Valid() && Exclusive(groups, server.world) && AlwaysExclusive(groups, server.history)
    {
      hide Consistent, Quieted, Exclusive, AlwaysExclusive, Admissible, WellFormed;
      ghost var a := Now();
      server.Drift(t.exits, t.unlinked, t.unmuted);
      DriftStep(groups, a, Now());
      ghost var b := Now();
      var retuned := false;
      if t.woken && !t.capturesPending && t.inTime {
        ghost var writes: seq<Write>;
        retuned, writes := Retune(t.desired);
        QuietedExclusive(groups, b, Now());
      }
      Update(t.desired);
      if !retuned && (t.woken || t.due) {
        var pass := Cycle(t.reported, t.findings, groups);
      }
    }

    /** Over any run from the start, with groups fixed and every desired state exclusive,
        two members of one group are never audible at once, at any instant. */
    method Run(turns: seq<Turn>, ghost groups: map<string, string>)
      requires Valid() && server.world == map[] && server.history == []
      requires forall i :: 0 <= i < |turns| ==>
        WellFormed(turns[i].desired) && Admissible(groups, turns[i].desired)
      requires forall i :: 0 <= i < |turns| ==> turns[i].findings.ready <= turns[i].desired.mixes.at.Keys
      modifies this, server
      ensures Valid() && AlwaysExclusive(groups, server.history)
    {
      for i := 0 to |turns|
        invariant Valid() && Exclusive(groups, server.world) && AlwaysExclusive(groups, server.history)
      {
        hide Consistent, Exclusive, AlwaysExclusive, Admissible, WellFormed;
        Iterate(turns[i], groups);
      }
    }
  }
}
