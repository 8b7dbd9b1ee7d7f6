/** The audio server behind the mixer's `GraphBackend`, as far as routes go:
    which loopbacks live, whether each is muted and whether anything has linked
    it. Every command may fail, and a failed command may still have applied. */
module AudioServer {
  import opened Wrappers
  import opened Model
  import RouteNames

  datatype RouteKey =
    | Cell(source: string, mix: string)
    | Capture(captured: string)
    | Output(monitored: string)

  function RouteName(key: RouteKey): string {
    match key
    case Cell(s, m) => RouteNames.CellRouteName(s, m)
    case Capture(m) => RouteNames.MixCaptureName(m)
    case Output(m) => RouteNames.OutputRouteName(m)
  }

  /** The same route of the mix called the same with `_cap` appended. */
  function CapKey(key: RouteKey): RouteKey {
    match key
    case Cell(s, m) => Cell(s, m + "_cap")
    case Capture(m) => Capture(m + "_cap")
    case Output(m) => Output(m + "_cap")
  }

  lemma KindShows(key: RouteKey)
    ensures |RouteName(key)| > 9 && RouteName(key)[9] == if key.Capture? then 'c' else 'l'
  {
    assert "openwave_loop_"[9] == 'l' && "openwave_capture_"[9] == 'c';
  }

  /** No two routes share a name, of whatever kind. */
  lemma RouteNameInjective(a: RouteKey, b: RouteKey)
    requires RouteName(a) == RouteName(b)
    ensures a == b
  {
    KindShows(a);
    KindShows(b);
    if a.Cell? && b.Cell? {
      RouteNames.CellRouteNameInjective(a.source, a.mix, b.source, b.mix);
    } else if a.Cell? && b.Output? {
      RouteNames.CellRouteNameIsNotOutput(a.source, a.mix, b.monitored);
    } else if a.Output? && b.Cell? {
      RouteNames.CellRouteNameIsNotOutput(b.source, b.mix, a.monitored);
    } else if a.Capture? && b.Capture? {
      assert a.captured == RouteName(a)[|"openwave_capture_"|..] == b.captured;
    } else if a.Output? && b.Output? {
      assert a.monitored == RouteName(a)[|"openwave_loop_output_"|..] == b.monitored;
    }
  }

  /** The capture side of one route has the playback name of another exactly when the other
      is the same route of the mix called the same with `_cap` appended. */
  lemma CapNameClash(a: RouteKey, b: RouteKey)
    ensures RouteName(a) + "_cap" == RouteName(b) <==> b == CapKey(a)
  {
    assert RouteName(a) + "_cap" == RouteName(CapKey(a));
    if RouteName(a) + "_cap" == RouteName(b) {
      RouteNameInjective(CapKey(a), b);
    }
  }

  // The `openwave.owner` token of one spawned loopback (a fresh UUID).
  type Owner = nat

  datatype GraphNode = GraphNode(
    id: nat, identity: NodeIdentity, owner: Option<Owner>, muted: Option<bool>)

  datatype CaptureNode = CaptureNode(nodeName: string, identity: NodeIdentity)

  datatype Graph = Graph(
    cookie: nat, names: map<string, seq<GraphNode>>, captures: seq<CaptureNode>)
  {
    // A name used twice names nothing.
    function Node(name: string): Option<GraphNode> {
      if name in names && |names[name]| == 1 then Some(names[name][0]) else None
    }

    function Owned(name: string, owner: Owner): Option<GraphNode> {
      var node := Node(name);
      if node.Some? && node.value.owner == Some(owner) then node else None
    }

    function CapturesNamed(name: string): seq<NodeIdentity> {
      CapturesIn(captures, name)
    }
  }

  function CapturesIn(captures: seq<CaptureNode>, name: string): seq<NodeIdentity> {
    if captures == [] then []
    else (if captures[0].nodeName == name then [captures[0].identity] else [])
         + CapturesIn(captures[1..], name)
  }

  /** One loopback: `linked` as soon as any link of it may exist. */
  datatype Loopback = Loopback(
    key: RouteKey, name: string, alive: bool, muted: bool, linked: bool)

  type World = map<Owner, Loopback>

  predicate Audible(w: World, o: Owner) {
    o in w && w[o].alive && w[o].linked && !w[o].muted
  }

  /** Everything audible in `h` was audible in `base`, or belongs to a key in `open`. */
  ghost predicate OnlyOpens(h: World, base: World, open: set<RouteKey>) {
    forall o :: Audible(h, o) ==>
      (Audible(base, o) && h[o].key == base[o].key) || h[o].key in open
  }

  ghost predicate AllOnlyOpen(history: seq<World>, from: nat, base: World, open: set<RouteKey>) {
    forall i :: from <= i < |history| ==> OnlyOpens(history[i], base, open)
  }

  lemma OnlyOpensTrans(h: World, mid: World, base: World, open: set<RouteKey>)
    requires OnlyOpens(h, mid, open) && OnlyOpens(mid, base, open)
    ensures OnlyOpens(h, base, open)
  {}

  lemma HistoryTrans(history: seq<World>, n: nat, k: nat, mid: World, base: World, open: set<RouteKey>)
    requires n <= k <= |history|
    requires AllOnlyOpen(history[..k], n, base, open)
    requires AllOnlyOpen(history, k, mid, open) && OnlyOpens(mid, base, open)
    ensures AllOnlyOpen(history, n, base, open)
  {}

  /** The effect of muting (or unmuting) the playback node of a loopback. */
  function Muting(w: World, name: string, node: GraphNode, muted: bool): World {
    match node.owner
    case Some(o) => if o in w && w[o].name == name then w[o := w[o].(muted := muted)] else w
    case None => w
  }

  /** What a snapshot says about the mute of a loopback's playback node is true. */
  predicate Faithful(name: string, nodes: seq<GraphNode>, w: World) {
    |nodes| == 1 && nodes[0].owner.Some? && nodes[0].owner.value in w
      && w[nodes[0].owner.value].name == name && nodes[0].muted.Some?
    ==> nodes[0].muted.value == w[nodes[0].owner.value].muted
  }

  ghost predicate Truthful(g: Graph, w: World) {
    forall name :: name in g.names ==> Faithful(name, g.names[name], w)
  }

  /** A command to a node or a loopback, and what it reported. */
  datatype Call =
    | MuteCall(node: nat, muted: bool, ok: bool)
    | VolumeCall(node: nat, level: real, ok: bool)
    | LinkCall(owner: Owner, linked: Result<bool>)

  /** The commands of one level: mute before the volume moves, unmute only after it has; a
      failure ends them. */
  predicate LevelRun(w: seq<Call>, node: nat, level: real, muted: bool, ok: bool) {
    if muted then
      || w == [MuteCall(node, true, true), VolumeCall(node, level, ok)]
      || (!ok && w == [MuteCall(node, true, false)])
    else
      || w == [VolumeCall(node, level, true), MuteCall(node, false, ok)]
      || (!ok && w == [VolumeCall(node, level, false)])
  }

  class Server {
    var world: World
    var next: Owner
    ghost var history: seq<World>  // the world after every command so far
    ghost var calls: seq<Call>     // the level and link commands so far

    constructor ()
      ensures world == map[] && next == 0 && history == [] && calls == []
    {
      world, next := map[], 0;
      history, calls := [], [];
    }

    /** One coherent observation. `reported` is what the tools would print, or nothing;
        a report that lies about our own nodes' mutes counts as a failed observation. */
    method Snapshot(reported: Option<Graph>) returns (g: Option<Graph>)
      ensures g == if reported.Some? && Truthful(reported.value, world) then reported else None
    {
      g := if reported.Some? && Truthful'(reported.value, world) then reported else None;
    }

    // Compiled form of `Truthful`.
    static predicate Truthful'(g: Graph, w: World)
      ensures Truthful'(g, w) <==> Truthful(g, w)
    {
      forall name | name in g.names :: Faithful(name, g.names[name], w)
    }

    method Step(w: World)
      modifies this`world, this`history
      ensures world == w && history == old(history) + [w]
    {
      world := w;
      history := history + [w];
    }

    /** `RoutingChild::running`: the child may turn out to have exited. */
    method Running(o: Owner) returns (r: Result<bool>)
      modifies this`world, this`history
      ensures world == old(world) || (o in old(world) && world == old(world)[o := old(world)[o].(alive := false)])
      ensures r == Ok(false) ==> o !in world || !world[o].alive
      ensures r.Err? || r == Ok(true) ==> world == old(world)
      ensures r == Ok(true) ==> o in world && world[o].alive
      ensures history == old(history) + [world]
    {
      var exited: bool := *;
      var failed: bool := *;
      if failed {
        r := Err(Unavailable);
      } else if o !in world || !world[o].alive {
        r := Ok(false);
      } else if exited {
        Step(world[o := world[o].(alive := false)]);
        return Ok(false);
      } else {
        r := Ok(true);
      }
      Step(world);
    }

    /** `RoutingChild::terminate`. */
    method Terminate(o: Owner) returns (ok: bool)
      modifies this`world, this`history
      ensures world == old(world) || (o in old(world) && world == old(world)[o := old(world)[o].(alive := false)])
      ensures ok ==> o !in world || !world[o].alive
      ensures history == old(history) + [world]
    {
      ok := *;
      var applied: bool := *;
      if o in world && (ok || applied) {
        Step(world[o := world[o].(alive := false)]);
      } else {
        Step(world);
      }
    }

    /** `spawn_loopback`: autoconnect is off, so a new loopback is linked to nothing. */
    method Spawn(key: RouteKey, name: string) returns (r: Result<Owner>)
      requires forall o :: o in world ==> o < next
      modifies this`world, this`history, this`next
      ensures r.Err? ==> r == Err(Unavailable) && world == old(world) && next == old(next)
      ensures r.Ok? ==> r.value == old(next) && next == old(next) + 1
      ensures r.Ok? ==> world == old(world)[old(next) := Loopback(key, name, true, false, false)]
      ensures history == old(history) + [world]
    {
      var ok: bool := *;
      if ok {
        r := Ok(next);
        Step(world[next := Loopback(key, name, true, false, false)]);
        next := next + 1;
      } else {
        r := Err(Unavailable);
        Step(world);
      }
    }

    // wpctl set-mute
    method SetMute(name: string, node: GraphNode, muted: bool) returns (ok: bool)
      modifies this`world, this`history, this`calls
      ensures calls == old(calls) + [MuteCall(node.id, muted, ok)]
      ensures world == old(world) || world == Muting(old(world), name, node, muted)
      ensures ok ==> world == Muting(old(world), name, node, muted)
      ensures history == old(history) + [world]
    {
      ok := *;
      var applied: bool := *;
      calls := calls + [MuteCall(node.id, muted, ok)];
      Step(if ok || applied then Muting(world, name, node, muted) else world);
    }

    // wpctl set-volume: no effect on mutes or links, whatever node the id names by now.
    method SetVolume(id: nat, level: real) returns (ok: bool)
      modifies this`world, this`history, this`calls
      ensures world == old(world)
      ensures history == old(history) + [world]
      ensures calls == old(calls) + [VolumeCall(id, level, ok)]
    {
      ok := *;
      calls := calls + [VolumeCall(id, level, ok)];
      Step(world);
    }

    /** Mutes before the volume changes; unmutes only after it has. */
    method SetLevel(name: string, node: GraphNode, level: real, muted: bool) returns (ok: bool)
      modifies this`world, this`history, this`calls
      ensures world == old(world) || world == Muting(old(world), name, node, muted)
      ensures ok ==> world == Muting(old(world), name, node, muted)
      ensures old(history) <= history
      ensures forall i :: |old(history)| <= i < |history| ==> history[i] == old(world) || history[i] == world
      ensures old(calls) <= calls && LevelRun(calls[|old(calls)|..], node.id, level, muted, ok)
    {
      ok := true;
      if muted {
        ok := SetMute(name, node, true);
      }
      if ok {
        ok := SetVolume(node.id, level);
      }
      if ok && !muted {
        ok := SetMute(name, node, false);
      }
    }

    /** `link_nodes` for one of a loopback's two nodes: Ok(false) while ports are missing. */
    method Link(o: Owner) returns (r: Result<bool>)
      modifies this`world, this`history, this`calls
      ensures calls == old(calls) + [LinkCall(o, r)]
      ensures world == old(world) || (o in old(world) && world == old(world)[o := old(world)[o].(linked := true)])
      ensures r == Ok(true) && o in world ==> world[o].linked
      ensures history == old(history) + [world]
    {
      var portless: bool := *;
      var failed: bool := *;
      var applied: bool := *;
      if portless {
        r := Ok(false);
        Step(world);
      } else {
        r := if failed then Err(Unavailable) else Ok(true);
        Step(if o in world && (applied || !failed) then world[o := world[o].(linked := true)] else world);
      }
      calls := calls + [LinkCall(o, r)];
    }

    /** Between cycles: children exit, links go, a node is recreated unlinked.
        Nobody else changes a mute or makes a link. */
    method Drift(exits: set<Owner>, unlinked: set<Owner>, unmuted: set<Owner>)
      modifies this`world, this`history
      ensures history == old(history) + [world]
      ensures world.Keys == old(world).Keys
      ensures forall o :: o in world ==>
        && world[o].key == old(world)[o].key && world[o].name == old(world)[o].name
        && (world[o].alive ==> old(world)[o].alive)
        && (world[o].linked ==> old(world)[o].linked && world[o].muted == old(world)[o].muted)
    {
      Step(map o | o in world :: world[o].(
        alive := world[o].alive && o !in exits,
        linked := world[o].linked && o !in unlinked,
        muted := world[o].muted && !(o in unlinked && o in unmuted)));
    }
  }
}
