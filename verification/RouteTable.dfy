/** The mixer's table of routes against the audio server: how one command moves
    both, and what the silence barrier, the opening pass and the fast path keep. */
module RouteTable {
  import opened Wrappers
  import opened Model
  import opened AudioServer
  import opened Matrix

  // ---------------------------------------------------------------- the route table

  /** The route table and the server at one instant. */
  datatype Moment = Moment(
    routes: map<RouteKey, Route>, world: World, next: Owner, history: seq<World>, calls: seq<Call>)

  ghost predicate Owns(r: Route, key: RouteKey, w: World) {
    r.owner in w && w[r.owner].key == key && w[r.owner].name == r.name
  }

  /** The level and the mute on record for a route were each set by a command that succeeded. */
  ghost predicate Backed(r: Route, calls: seq<Call>) {
    r.applied.Some? ==>
      && (exists i ::
        0 <= i < |calls| && calls[i].VolumeCall? && calls[i].ok && calls[i].level == r.applied.value.level)
      && (exists i :: 0 <= i < |calls| && calls[i].MuteCall? && calls[i].ok && calls[i].muted == r.applied.value.muted)
  }

  ghost predicate AllBacked(routes: map<RouteKey, Route>, calls: seq<Call>) {
    forall k :: k in routes ==> Backed(routes[k], calls)
  }

  lemma BackedStill(r: Route, calls: seq<Call>, more: seq<Call>)
    requires Backed(r, calls) && calls <= more
    ensures Backed(r, more)
  {
    if r.applied.Some? {
      var i :| 0 <= i < |calls| && calls[i].VolumeCall? && calls[i].ok && calls[i].level == r.applied.value.level;
      var j :| 0 <= j < |calls| && calls[j].MuteCall? && calls[j].ok && calls[j].muted == r.applied.value.muted;
      assert more[i] == calls[i] && more[j] == calls[j];
    }
  }

  lemma AllBackedStill(routes: map<RouteKey, Route>, calls: seq<Call>, more: seq<Call>)
    requires AllBacked(routes, calls) && calls <= more
    ensures AllBacked(routes, more)
  {
    forall k | k in routes
      ensures Backed(routes[k], more)
    {
      BackedStill(routes[k], calls, more);
    }
  }

  lemma AllBackedBut(was: map<RouteKey, Route>, now: map<RouteKey, Route>, calls: seq<Call>, key: RouteKey)
    requires AllBacked(was, calls) && (forall k :: k in now && k != key ==> k in was && now[k] == was[k])
    requires key in now ==> Backed(now[key], calls)
    ensures AllBacked(now, calls)
  {
    hide Backed;
  }

  /** A level written in full backs what is recorded of it. */
  lemma RunBacks(r: Route, calls: seq<Call>, n: nat, node: nat)
    requires n <= |calls| && r.applied.Some?
    requires LevelRun(calls[n..], node, r.applied.value.level, r.applied.value.muted, true)
    ensures Backed(r, calls)
  {
    assert calls[n] == calls[n..][0] && calls[n + 1] == calls[n..][1];
  }

  /** Every route owns its loopback; every living loopback is in the table. */
  ghost predicate Consistent(a: Moment) {
    && (forall k :: k in a.routes ==> Owns(a.routes[k], k, a.world))
    && (forall o :: o in a.world && a.world[o].alive ==>
          a.world[o].key in a.routes && a.routes[a.world[o].key].owner == o)
    && (forall o :: o in a.world ==> o < a.next)
    && AllBacked(a.routes, a.calls)
  }

  /** From `a` to `b`, at every instant, only keys in `open` can be newly audible. */
  ghost predicate Opened(a: Moment, b: Moment, open: set<RouteKey>) {
    && OnlyOpens(b.world, a.world, open)
    && a.history <= b.history && AllOnlyOpen(b.history, |a.history|, a.world, open)
  }

  /** Every other route, and its loopback, is as it was. */
  ghost predicate OthersKept(a: Moment, b: Moment, key: RouteKey) {
    forall k :: k != key ==>
      (k in a.routes <==> k in b.routes)
      && (k in a.routes ==> a.routes[k] == b.routes[k] && SameLoopback(a.world, b.world, a.routes[k].owner))
  }

  ghost predicate SameLoopback(w: World, w': World, o: Owner) {
    o in w ==> o in w' && w'[o] == w[o]
  }

  /** Nothing muted in `base` is unmuted in `w`. */
  ghost predicate MutesKept(base: World, w: World) {
    forall o :: o in base ==> o in w && w[o].name == base[o].name && (base[o].muted ==> w[o].muted)
  }

  /** Commands about `key` alone that can open nothing but the keys in `open`. */
  ghost predicate Acts(a: Moment, b: Moment, key: RouteKey, open: set<RouteKey>) {
    && Consistent(b) && Opened(a, b, open) && OthersKept(a, b, key) && a.calls <= b.calls
    && (key !in open ==> MutesKept(a.world, b.world))
  }

  lemma OwnsAll(a: Moment)
    requires Consistent(a)
    ensures forall k :: k in a.routes ==> Owns(a.routes[k], k, a.world)
  {}

  lemma ActsRefl(a: Moment, key: RouteKey, open: set<RouteKey>)
    requires Consistent(a)
    ensures Acts(a, a, key, open)
  {}

  lemma OpenedTrans(a: Moment, b: Moment, c: Moment, open: set<RouteKey>)
    requires Opened(a, b, open) && Opened(b, c, open)
    ensures Opened(a, c, open)
  {
    OnlyOpensTrans(c.world, b.world, a.world, open);
    HistoryTrans(c.history, |a.history|, |b.history|, b.world, a.world, open);
  }

  lemma ActsTrans(a: Moment, b: Moment, c: Moment, key: RouteKey, open: set<RouteKey>)
    requires Consistent(a) && Acts(a, b, key, open) && Acts(b, c, key, open)
    ensures Consistent(c) && Acts(a, c, key, open)
  {
    OpenedTrans(a, b, c, open);
  }

  // One command on the loopback of a route.
  lemma LoopbackStep(a: Moment, b: Moment, key: RouteKey, l: Loopback, open: set<RouteKey>)
    requires Consistent(a) && key in a.routes
    requires b == a.(world := b.world, history := b.history, calls := b.calls) && a.calls <= b.calls
    requires b.world == a.world || b.world == a.world[a.routes[key].owner := l]
    requires var was := a.world[a.routes[key].owner];
      l.key == key && l.name == was.name && (l.alive ==> was.alive)
      && (key in open || ((was.muted ==> l.muted) && (l.linked && !l.muted ==> was.linked && !was.muted)))
    requires a.history <= b.history
    requires forall i :: |a.history| <= i < |b.history| ==> b.history[i] == a.world || b.history[i] == b.world
    ensures Consistent(b) && Acts(a, b, key, open)
  {
    AllBackedStill(a.routes, a.calls, b.calls);
    hide AllBacked;
  }

  // A note in the table that leaves the server alone.
  lemma RecordStep(a: Moment, b: Moment, key: RouteKey, r: Route, open: set<RouteKey>)
    requires Consistent(a) && key in a.routes && b == a.(routes := a.routes[key := r])
    requires r.owner == a.routes[key].owner && r.name == a.routes[key].name && Backed(r, a.calls)
    ensures Consistent(b) && Acts(a, b, key, open)
  {
    AllBackedBut(a.routes, b.routes, a.calls, key);
    hide AllBacked;
  }

  lemma DropStep(a: Moment, b: Moment, key: RouteKey, open: set<RouteKey>)
    requires Consistent(a) && key in a.routes && b == a.(routes := a.routes - {key})
    requires !a.world[a.routes[key].owner].alive
    ensures Consistent(b) && Acts(a, b, key, open)
  {
    AllBackedBut(a.routes, b.routes, a.calls, key);
    hide AllBacked;
  }

  predicate Spawned(a: Moment, b: Moment, key: RouteKey, r: Route) {
    && r.owner == a.next && r.applied.None? && b.routes == a.routes[key := r] && b.next == a.next + 1
    && b.world == a.world[a.next := Loopback(key, r.name, true, false, false)]
    && b.history == a.history + [b.world] && b.calls == a.calls
  }

  // A new loopback is linked to nothing, so it is silent.
  lemma SpawnStep(a: Moment, b: Moment, key: RouteKey, r: Route, open: set<RouteKey>)
    requires Consistent(a) && key !in a.routes && Spawned(a, b, key, r)
    ensures Consistent(b) && Acts(a, b, key, open)
  {
    SpawnConsistent(a, b, key, r);
    SpawnOpens(a, b, key, r, open);
    hide Consistent, Opened;
  }

  lemma SpawnConsistent(a: Moment, b: Moment, key: RouteKey, r: Route)
    requires Consistent(a) && key !in a.routes && Spawned(a, b, key, r)
    ensures Consistent(b)
  {
    AllBackedBut(a.routes, b.routes, a.calls, key);
    hide AllBacked;
  }

  lemma SpawnOpens(a: Moment, b: Moment, key: RouteKey, r: Route, open: set<RouteKey>)
    requires Consistent(a) && key !in a.routes && Spawned(a, b, key, r)
    ensures Opened(a, b, open) && OthersKept(a, b, key) && MutesKept(a.world, b.world)
  {
    hide AllBacked;
  }

  // A node that the snapshot shows muted is muted still.
  lemma ShownMuted(g: Graph, base: World, a: Moment, b: Moment, key: RouteKey)
    requires Truthful(g, base) && MutesKept(base, a.world)
    requires Consistent(a) && key in a.routes && a.routes[key].owner in base && Acts(a, b, key, {})
    ensures var node := g.Owned(a.routes[key].name, a.routes[key].owner);
      node.Some? && node.value.muted == Some(true) ==>
        a.routes[key].owner in b.world && b.world[a.routes[key].owner].muted
  {
    var r := a.routes[key];
    if g.Owned(r.name, r.owner).Some? {
      assert Faithful(r.name, g.names[r.name], base);
    }
  }

  lemma StillBacked(a: Moment, key: RouteKey)
    requires Consistent(a) && key in a.routes
    ensures Backed(a.routes[key], a.calls)
    ensures forall r: Route :: r.applied == a.routes[key].applied ==> Backed(r, a.calls)
  {}

  lemma NodeBacks(a: Moment, key: RouteKey)
    requires Consistent(a) && key in a.routes
    ensures Backed(a.routes[key].(node := None), a.calls)
  {}

  lemma KeptOthers(a: Moment, b: Moment, key: RouteKey, open: set<RouteKey>)
    requires Acts(a, b, key, open)
    ensures OthersKept(a, b, key)
  {}

  lemma NoLinks(calls: seq<Call>, owner: Owner)
    ensures OnlyLinks(calls[|calls|..], owner)
  {}

  // ---------------------------------------------------------------- level writes

  /** The only reasons to write a level: no proof that this node has it, or a
      silent route that the snapshot does not show muted. */
  ghost predicate Justified(routes: map<RouteKey, Route>, g: Graph, key: RouteKey, level: real, muted: bool) {
    key in routes && ReasonFor(routes[key], g, level, muted)
  }

  predicate OnlyLinks(w: seq<Call>, owner: Owner) {
    forall c :: c in w ==> c.LinkCall? && c.owner == owner
  }

  /** The commands to one route: nothing, or its level for a good reason, and then links, if
      the level was written in full or was on record already. */
  ghost predicate LevelFirst(r: Route, g: Graph, level: real, muted: bool, w: seq<Call>, n: nat, ok: bool)
    requires n <= |w|
  {
    var node := g.Owned(r.name, r.owner);
    && OnlyLinks(w[n..], r.owner)
    && (n > 0 ==>
      ReasonFor(r, g, level, muted) && LevelRun(w[..n], node.value.id, level, muted, ok) && (n < |w| ==> ok))
    && (n == 0 && w != [] ==> node.Some? && r.applied == Some(Applied(node.value.identity, level, muted)))
  }

  ghost predicate ReasonFor(r: Route, g: Graph, level: real, muted: bool) {
    var node := g.Owned(r.name, r.owner);
    node.Some?
      && (r.applied != Some(Applied(node.value.identity, level, muted)) || (muted && node.value.muted != Some(true)))
  }

  ghost predicate WriteJustified(
    a: Moment, b: Moment, g: Graph, key: RouteKey, level: real, muted: bool)
  {
    && a.calls <= b.calls
    && (b.calls == a.calls || (key in a.routes && exists n, ok ::
          0 <= n <= |b.calls| - |a.calls| && LevelFirst(a.routes[key], g, level, muted, b.calls[|a.calls|..], n, ok)))
  }

  predicate SameForWrites(r: Route, r': Route) {
    r.name == r'.name && r.owner == r'.owner && r.applied == r'.applied
  }

  // What a write needs to know of a route is its name, its owner and what is on record.
  lemma WriteJustifiedFrom(a: Moment, a': Moment, b: Moment, g: Graph, key: RouteKey, level: real, muted: bool)
    requires WriteJustified(a', b, g, key, level, muted) && a'.calls == a.calls
    requires key in a'.routes ==> key in a.routes && SameForWrites(a.routes[key], a'.routes[key])
    ensures WriteJustified(a, b, g, key, level, muted)
  {
    if b.calls != a.calls {
      var n, ok :| 0 <= n <= |b.calls| - |a'.calls|
        && LevelFirst(a'.routes[key], g, level, muted, b.calls[|a'.calls|..], n, ok);
      assert LevelFirst(a.routes[key], g, level, muted, b.calls[|a.calls|..], n, ok);
    }
  }

  lemma NoWrite(a: Moment, b: Moment, g: Graph, key: RouteKey, level: real, muted: bool)
    requires b.calls == a.calls
    ensures WriteJustified(a, b, g, key, level, muted)
  {}

  /** A level and then links. */
  lemma LevelThenLinks(
    a: Moment, b: Moment, c: Moment, g: Graph, key: RouteKey, level: real, muted: bool, ok: bool)
    requires key in a.routes && a.calls <= b.calls <= c.calls
    requires var node := g.Owned(a.routes[key].name, a.routes[key].owner);
      node.Some? &&
      if b.calls == a.calls then a.routes[key].applied == Some(Applied(node.value.identity, level, muted))
      else ReasonFor(a.routes[key], g, level, muted) && LevelRun(b.calls[|a.calls|..], node.value.id, level, muted, ok)
    requires c.calls != b.calls && b.calls != a.calls ==> ok
    requires OnlyLinks(c.calls[|b.calls|..], a.routes[key].owner)
    ensures WriteJustified(a, c, g, key, level, muted)
  {
    var n, w := |b.calls| - |a.calls|, c.calls[|a.calls|..];
    assert w[n..] == c.calls[|b.calls|..] && w[..n] == b.calls[|a.calls|..];
    assert LevelFirst(a.routes[key], g, level, muted, w, n, ok);
  }

  /** What a pass asks of one route: the matrix for a cell, full volume for a feed. */
  predicate Asked(d: Desired, key: RouteKey, level: real, muted: bool) {
    if key.Cell? then Wanted(d, key) && level == LevelOf(d, key) && muted == MutedIn(d, key)
    else level == 1.0 && !muted
  }

  /** The command sets what the pass asks of this route, on its node, for a good reason. */
  ghost predicate ForRoute(d: Desired, routes: map<RouteKey, Route>, g: Graph, key: RouteKey, c: Call) {
    exists level, muted :: Asked(d, key, level, muted) && Justified(routes, g, key, level, muted)
      && SetsLevel(c, g.Owned(routes[key].name, routes[key].owner).value.id, level, muted)
  }

  predicate SetsLevel(c: Call, node: nat, level: real, muted: bool) {
    match c
    case MuteCall(n, m, _) => n == node && m == muted
    case VolumeCall(n, l, _) => n == node && l == level
    case LinkCall(_, _) => false
  }

  ghost predicate CallJustified(d: Desired, routes: map<RouteKey, Route>, g: Graph, c: Call) {
    c.LinkCall? || exists key :: ForRoute(d, routes, g, key, c)
  }

  ghost predicate CallsJustified(d: Desired, routes: map<RouteKey, Route>, g: Graph, a: seq<Call>, b: seq<Call>) {
    a <= b && forall i :: |a| <= i < |b| ==> CallJustified(d, routes, g, b[i])
  }

  lemma WriteIsForRoute(d: Desired, a: Moment, b: Moment, g: Graph, key: RouteKey, level: real, muted: bool)
    requires WriteJustified(a, b, g, key, level, muted) && Asked(d, key, level, muted)
    ensures forall i :: |a.calls| <= i < |b.calls| ==>
      b.calls[i].LinkCall? || (Justified(a.routes, g, key, level, muted) && ForRoute(d, a.routes, g, key, b.calls[i]))
  {
    if b.calls != a.calls {
      var w := b.calls[|a.calls|..];
      var n, ok :| 0 <= n <= |w| && LevelFirst(a.routes[key], g, level, muted, w, n, ok);
      hide LevelOf, MutedIn, Wanted, Asked;
      forall i | |a.calls| <= i < |b.calls|
        ensures b.calls[i].LinkCall?
          || (Justified(a.routes, g, key, level, muted) && ForRoute(d, a.routes, g, key, b.calls[i]))
      {
        var k := i - |a.calls|;
        assert b.calls[i] == w[k];
        if k < n {
          assert w[k] == w[..n][k];
          assert SetsLevel(w[k], g.Owned(a.routes[key].name, a.routes[key].owner).value.id, level, muted);
        } else {
          assert w[k] in w[n..];
        }
      }
    }
  }

  // ---------------------------------------------------------------- the barrier

  /** Silent, or not linked since its spawn. */
  ghost predicate Quiet(r: Route, w: World) {
    r.owner in w && (w[r.owner].muted || (!w[r.owner].linked && r.applied.None?))
  }

  ghost predicate Settled(d: Desired, key: RouteKey, r: Route, w: World)
    requires key.Cell?
  {
    key.source in d.sources.at && (Silent(d, key) ==> Quiet(r, w))
  }

  /** What the barrier leaves of a route it keeps. */
  ghost predicate Passed(d: Desired, g: Graph, key: RouteKey, was: Route, now: Route) {
    && now == was.(applied := now.applied, node := now.node)
    && (now.applied == was.applied ||
        (Silent(d, key) && g.Owned(was.name, was.owner).Some?
         && now.applied == Some(Applied(g.Owned(was.name, was.owner).value.identity, LevelOf(d, key), true))))
  }

  /** From `a` on, commands have only quieted cell routes, for the reasons that justify it. */
  ghost predicate BarrierSoFar(d: Desired, g: Graph, a: Moment, b: Moment) {
    && Consistent(b) && Opened(a, b, {}) && MutesKept(a.world, b.world)
    && (forall k :: k in b.routes ==> k in a.routes && Passed(d, g, k, a.routes[k], b.routes[k]))
    && CallsJustified(d, a.routes, g, a.calls, b.calls)
  }

  /** The barrier's loop invariant, with the cell routes in `todo` still ahead. */
  ghost predicate Barrier(d: Desired, g: Graph, a: Moment, b: Moment, todo: set<RouteKey>) {
    && BarrierSoFar(d, g, a, b)
    && (forall k :: k in todo ==> k.Cell? && k in a.routes && k in b.routes && a.routes[k] == b.routes[k])
    && (forall k :: k in b.routes && k.Cell? && k !in todo ==> Settled(d, k, b.routes[k], b.world))
  }

  /** Every cell route left is of a known source and silent if the matrix mutes it. */
  ghost predicate BarrierDone(d: Desired, b: Moment) {
    forall k :: k in b.routes && k.Cell? ==> Settled(d, k, b.routes[k], b.world)
  }

  lemma BarrierStart(d: Desired, g: Graph, a: Moment)
    requires Consistent(a)
    ensures Barrier(d, g, a, a, set k | k in a.routes && k.Cell?)
  {}

  lemma BarrierPick(d: Desired, g: Graph, base: World, a: Moment, b: Moment, todo: set<RouteKey>, key: RouteKey)
    requires Barrier(d, g, a, b, todo) && key in todo && MutesKept(base, a.world)
    requires forall k :: k in a.routes ==> a.routes[k].owner in base
    ensures key in b.routes && key.Cell? && b.routes[key].owner in base && MutesKept(base, b.world)
    ensures BarrierSoFar(d, g, a, b) && key in a.routes && a.routes[key] == b.routes[key]
  {}

  lemma BarrierStepSoFar(d: Desired, g: Graph, a: Moment, b: Moment, c: Moment, key: RouteKey)
    requires BarrierSoFar(d, g, a, b) && key in b.routes && key in a.routes && a.routes[key] == b.routes[key]
    requires Acts(b, c, key, {})
    requires key in c.routes ==> Passed(d, g, key, b.routes[key], c.routes[key])
    requires forall i :: |b.calls| <= i < |c.calls| ==> ForRoute(d, b.routes, g, key, c.calls[i])
    ensures BarrierSoFar(d, g, a, c)
  {
    hide OnlyOpens, AllOnlyOpen, LevelOf, MutedIn, Silent;
    OpenedTrans(a, b, c, {});
    BarrierCalls(d, g, a, b, c, key);
    hide CallJustified, ForRoute;
  }

  lemma BarrierCalls(d: Desired, g: Graph, a: Moment, b: Moment, c: Moment, key: RouteKey)
    requires CallsJustified(d, a.routes, g, a.calls, b.calls) && b.calls <= c.calls
    requires key in b.routes && key in a.routes && a.routes[key] == b.routes[key]
    requires forall i :: |b.calls| <= i < |c.calls| ==> ForRoute(d, b.routes, g, key, c.calls[i])
    ensures CallsJustified(d, a.routes, g, a.calls, c.calls)
  {
    hide Asked, SetsLevel, ReasonFor;
    forall i | |a.calls| <= i < |c.calls|
      ensures CallJustified(d, a.routes, g, c.calls[i])
    {
      if i < |b.calls| {
        assert c.calls[i] == b.calls[i];
      } else {
        assert ForRoute(d, b.routes, g, key, c.calls[i]);
        assert ForRoute(d, a.routes, g, key, c.calls[i]);
      }
    }
  }

  lemma BarrierStep(d: Desired, g: Graph, a: Moment, b: Moment, c: Moment, todo: set<RouteKey>, key: RouteKey)
    requires Barrier(d, g, a, b, todo) && key in todo && key in b.routes && key.Cell?
    requires Acts(b, c, key, {}) && BarrierSoFar(d, g, a, c)
    requires key in c.routes ==> Settled(d, key, c.routes[key], c.world)
    ensures Barrier(d, g, a, c, todo - {key})
  {
    OwnsAll(b);
    hide BarrierSoFar, Silent, Consistent, Opened, LevelOf, MutedIn, MutesKept, Quiet, Owns, Settled, OthersKept;
    BarrierRest(d, a, b, c, todo, key);
  }

  lemma BarrierRest(d: Desired, a: Moment, b: Moment, c: Moment, todo: set<RouteKey>, key: RouteKey)
    requires forall k :: k in todo ==> k.Cell? && k in a.routes && k in b.routes && a.routes[k] == b.routes[k]
    requires forall k :: k in b.routes && k.Cell? && k !in todo ==> Settled(d, k, b.routes[k], b.world)
    requires forall k :: k in b.routes ==> Owns(b.routes[k], k, b.world)
    requires OthersKept(b, c, key) && key.Cell? && (key in c.routes ==> Settled(d, key, c.routes[key], c.world))
    ensures forall k :: k in todo - {key} ==> k.Cell? && k in a.routes && k in c.routes && a.routes[k] == c.routes[k]
    ensures forall k :: k in c.routes && k.Cell? && k !in todo - {key} ==> Settled(d, k, c.routes[k], c.world)
  {
    hide Settled, Owns;
    forall k | k in c.routes && k.Cell? && k !in todo - {key}
      ensures Settled(d, k, c.routes[k], c.world)
    {
      if k != key {
        StillSettled(d, k, b, c, key);
      }
    }
  }

  lemma StillSettled(d: Desired, k: RouteKey, b: Moment, c: Moment, key: RouteKey)
    requires OthersKept(b, c, key) && k != key && k in b.routes && k.Cell?
    requires Owns(b.routes[k], k, b.world) && Settled(d, k, b.routes[k], b.world)
    ensures k in c.routes && c.routes[k] == b.routes[k] && Settled(d, k, c.routes[k], c.world)
  {
    hide Silent;
  }

  lemma BarrierEnd(d: Desired, g: Graph, a: Moment, b: Moment)
    requires Barrier(d, g, a, b, {})
    ensures BarrierSoFar(d, g, a, b) && BarrierDone(d, b)
  {}

  // ---------------------------------------------------------------- opening

  /** The route just started, or its nodes are not in this snapshot, or the last
      level written is exactly this one, on exactly the node shown. */
  ghost predicate Tuned(g: Graph, r: Route, level: real, muted: bool) {
    r.applied.None? || g.Owned(r.name, r.owner).None? || g.Owned(r.name + "_cap", r.owner).None?
    || r.applied == Some(Applied(g.Owned(r.name, r.owner).value.identity, level, muted))
  }

  /** Linked, with exactly this level on exactly the node shown. */
  ghost predicate Connected(g: Graph, r: Route, level: real, muted: bool, w: World) {
    && g.Owned(r.name, r.owner).Some? && r.owner in w && w[r.owner].linked
    && r.applied == Some(Applied(g.Owned(r.name, r.owner).value.identity, level, muted))
  }

  lemma IdleStep(a: Moment, b: Moment, key: RouteKey, open: set<RouteKey>)
    requires Consistent(a) && b == a.(history := a.history + [a.world], calls := b.calls) && a.calls <= b.calls
    ensures Consistent(b) && Acts(a, b, key, open)
  {
    AllBackedStill(a.routes, a.calls, b.calls);
    hide AllBacked;
  }

  /** The opening pass from `m` on, in a cycle that began at `a`: `done` are the
      cells visited, `blocked` the sources one of whose cells failed. */
  ghost predicate Opening(
    d: Desired, g: Graph, a: Moment, m: Moment, b: Moment, done: set<RouteKey>, blocked: set<string>)
  {
    && m.history <= b.history && OpenUnmuted(d, b.world)
    && (forall i :: |m.history| <= i < |b.history| ==> OpenUnmuted(d, b.history[i]))
    && BarrierDone(d, b)
    && (forall k :: k in b.routes && k !in done ==> k in a.routes && Passed(d, g, k, a.routes[k], b.routes[k]))
    && (forall k :: k in b.routes && k in done && k.Cell? && k.source in d.sources.at && k.source !in blocked ==>
          Tuned(g, b.routes[k], LevelOf(d, k), MutedIn(d, k)))
    && CallsJustified(d, a.routes, g, a.calls, b.calls)
  }

  lemma OpeningStart(d: Desired, g: Graph, a: Moment, b: Moment)
    requires BarrierSoFar(d, g, a, b) && BarrierDone(d, b)
    ensures Consistent(b) && Opening(d, g, a, b, b, {}, {})
  {
    hide Passed, CallJustified;
    forall o | Audible(b.world, o) && b.world[o].key.Cell?
      ensures b.world[o].key.source in d.sources.at && !MutedIn(d, b.world[o].key)
    {
      assert Settled(d, b.world[o].key, b.routes[b.world[o].key], b.world);
    }
  }

  lemma OpeningPick(
    d: Desired, g: Graph, a: Moment, m: Moment, b: Moment, done: set<RouteKey>, blocked: set<string>, key: RouteKey)
    requires Opening(d, g, a, m, b, done, blocked) && key.Cell? && key.source in d.sources.at
    ensures key in b.routes && MutedIn(d, key) ==> Quiet(b.routes[key], b.world)
  {}

  lemma OpeningUnmuted(d: Desired, m: Moment, b: Moment, c: Moment, key: RouteKey, open: set<RouteKey>)
    requires m.history <= b.history && OpenUnmuted(d, b.world) && Acts(b, c, key, open)
    requires forall i :: |m.history| <= i < |b.history| ==> OpenUnmuted(d, b.history[i])
    requires forall k :: k in open && k.Cell? ==> k.source in d.sources.at && !MutedIn(d, k)
    ensures m.history <= c.history && OpenUnmuted(d, c.world)
    ensures forall i :: |m.history| <= i < |c.history| ==> OpenUnmuted(d, c.history[i])
  {
    hide OnlyOpens, OpenUnmuted, Consistent, OthersKept, MutesKept, MutedIn;
    OpeningKeepsUnmuted(d, c.world, b.world, open);
    forall i | |m.history| <= i < |c.history|
      ensures OpenUnmuted(d, c.history[i])
    {
      if i >= |b.history| {
        OpeningKeepsUnmuted(d, c.history[i], b.world, open);
      }
    }
  }

  // A write that the barrier's table justifies, the table before the barrier justifies too.
  lemma OpeningJustified(
    d: Desired, g: Graph, a: Moment, b: Moment, c: Moment, key: RouteKey, level: real, muted: bool)
    requires CallsJustified(d, a.routes, g, a.calls, b.calls) && Asked(d, key, level, muted)
    requires key in b.routes ==> key in a.routes && Passed(d, g, key, a.routes[key], b.routes[key])
    requires WriteJustified(b, c, g, key, level, muted)
    ensures CallsJustified(d, a.routes, g, a.calls, c.calls)
  {
    WriteIsForRoute(d, b, c, g, key, level, muted);
    if Justified(b.routes, g, key, level, muted) {
      StillReason(d, g, a, b, key, level, muted);
    }
    hide LevelOf, MutedIn, Asked, ReasonFor, WriteJustified, Passed, SetsLevel;
    forall i | |a.calls| <= i < |c.calls|
      ensures CallJustified(d, a.routes, g, c.calls[i])
    {
      if i < |b.calls| {
        assert c.calls[i] == b.calls[i];
      } else if !c.calls[i].LinkCall? {
        SameRoute(d, g, a, b, key, c.calls[i]);
      }
    }
  }

  lemma StillReason(d: Desired, g: Graph, a: Moment, b: Moment, key: RouteKey, level: real, muted: bool)
    requires key in b.routes && key in a.routes && Passed(d, g, key, a.routes[key], b.routes[key])
    requires Asked(d, key, level, muted) && ReasonFor(b.routes[key], g, level, muted)
    ensures ReasonFor(a.routes[key], g, level, muted)
    ensures a.routes[key].name == b.routes[key].name && a.routes[key].owner == b.routes[key].owner
  {
    hide LevelOf, MutedIn;
  }

  lemma SameRoute(d: Desired, g: Graph, a: Moment, b: Moment, key: RouteKey, c: Call)
    requires key in b.routes && key in a.routes && ForRoute(d, b.routes, g, key, c)
    requires a.routes[key].name == b.routes[key].name && a.routes[key].owner == b.routes[key].owner
    requires forall level, muted :: Asked(d, key, level, muted) && ReasonFor(b.routes[key], g, level, muted) ==>
      ReasonFor(a.routes[key], g, level, muted)
    ensures ForRoute(d, a.routes, g, key, c)
  {
    hide Asked, SetsLevel;
    var level, muted :| Asked(d, key, level, muted) && Justified(b.routes, g, key, level, muted)
      && SetsLevel(c, g.Owned(b.routes[key].name, b.routes[key].owner).value.id, level, muted);
    assert Justified(a.routes, g, key, level, muted);
  }

  // What one route's commands leave of the barrier's result.
  lemma DoneStep(d: Desired, b: Moment, c: Moment, key: RouteKey, open: set<RouteKey>)
    requires Consistent(b) && BarrierDone(d, b) && Acts(b, c, key, open)
    requires key.Cell? && key in c.routes ==> Settled(d, key, c.routes[key], c.world)
    ensures BarrierDone(d, c)
  {
    OwnsAll(b);
    hide Consistent, Opened, MutesKept, Silent;
    forall k | k in c.routes && k.Cell?
      ensures Settled(d, k, c.routes[k], c.world)
    {
      if k != key {
        assert Settled(d, k, b.routes[k], b.world);
      }
    }
  }

  lemma OpeningStep(
    d: Desired, g: Graph, a: Moment, m: Moment, b: Moment, c: Moment,
    done: set<RouteKey>, blocked: set<string>, blocked': set<string>, key: RouteKey, open: set<RouteKey>)
    requires Consistent(b) && Opening(d, g, a, m, b, done, blocked) && blocked <= blocked'
    requires key !in done && key.Cell? && Wanted(d, key)
    requires open == if MutedIn(d, key) then {} else {key}
    requires Acts(b, c, key, open) && WriteJustified(b, c, g, key, LevelOf(d, key), MutedIn(d, key))
    requires MutedIn(d, key) && key in c.routes ==> Quiet(c.routes[key], c.world)
    requires key.source !in blocked' && key in c.routes ==> Tuned(g, c.routes[key], LevelOf(d, key), MutedIn(d, key))
    ensures Opening(d, g, a, m, c, done + {key}, blocked')
  {
    OpeningUnmuted(d, m, b, c, key, open);
    OpeningJustified(d, g, a, b, c, key, LevelOf(d, key), MutedIn(d, key));
    DoneStep(d, b, c, key, open);
    hide Consistent, BarrierDone, OpenUnmuted, CallsJustified, WriteJustified, Opened, Tuned, LevelOf, MutesKept,
      Passed, Quiet,
      MutedIn, Wanted, OthersKept;
    OpeningRest(d, g, a, b, c, done, blocked, blocked', key);
  }

  lemma OpeningRest(
    d: Desired, g: Graph, a: Moment, b: Moment, c: Moment, done: set<RouteKey>, blocked: set<string>,
    blocked': set<string>,
    key: RouteKey)
    requires OthersKept(b, c, key) && blocked <= blocked' && key.Cell? && key.source in d.sources.at
    requires forall k :: k in b.routes && k !in done ==> k in a.routes && Passed(d, g, k, a.routes[k], b.routes[k])
    requires forall k :: k in b.routes && k in done && k.Cell? && k.source in d.sources.at && k.source !in blocked ==>
      Tuned(g, b.routes[k], LevelOf(d, k), MutedIn(d, k))
    requires key.source !in blocked' && key in c.routes ==> Tuned(g, c.routes[key], LevelOf(d, key), MutedIn(d, key))
    ensures forall k :: k in c.routes && k !in done + {key} ==>
      k in a.routes && Passed(d, g, k, a.routes[k], c.routes[k])
    ensures forall k ::
      k in c.routes && k in done + {key} && k.Cell? && k.source in d.sources.at && k.source !in blocked' ==>
      Tuned(g, c.routes[k], LevelOf(d, k), MutedIn(d, k))
  {
    hide Passed, Tuned, LevelOf, MutedIn;
  }

  lemma FeedStep(
    d: Desired, g: Graph, a: Moment, m: Moment, b: Moment, c: Moment,
    done: set<RouteKey>, blocked: set<string>, key: RouteKey)
    requires Consistent(b) && Opening(d, g, a, m, b, done, blocked) && !key.Cell?
    requires key !in done && Acts(b, c, key, {key}) && WriteJustified(b, c, g, key, 1.0, false)
    ensures Opening(d, g, a, m, c, done + {key}, blocked)
  {
    OpeningUnmuted(d, m, b, c, key, {key});
    OpeningJustified(d, g, a, b, c, key, 1.0, false);
    DoneStep(d, b, c, key, {key});
    hide Consistent, BarrierDone, OpenUnmuted, CallsJustified, WriteJustified, Opened, Tuned, LevelOf, MutesKept,
      Passed;
  }

  lemma StaleStep(
    d: Desired, g: Graph, a: Moment, m: Moment, b: Moment, c: Moment,
    done: set<RouteKey>, blocked: set<string>, key: RouteKey, ok: bool)
    requires Consistent(b) && Opening(d, g, a, m, b, done, blocked) && key in b.routes && key !in done
    requires Acts(b, c, key, {}) && c.calls == b.calls
    requires c.routes == if ok then b.routes - {key} else b.routes
    requires key in c.routes && Quiet(b.routes[key], b.world) ==> Quiet(c.routes[key], c.world)
    ensures Opening(d, g, a, m, c, done, blocked)
  {
    OpeningUnmuted(d, m, b, c, key, {});
    DoneStep(d, b, c, key, {});
    hide Consistent, BarrierDone, OpenUnmuted, CallsJustified, Opened, Tuned, LevelOf, MutesKept, Passed;
  }

  /** Its nodes are missing from the third snapshot running. */
  predicate ThirdMiss(g: Graph, r: Route) {
    r.missing + 1 >= 3 && (g.Owned(r.name, r.owner).None? || g.Owned(r.name + "_cap", r.owner).None?)
  }

  /** The route is there, or it was there and has been given up for missing three times. */
  predicate Present(g: Graph, was: map<RouteKey, Route>, now: map<RouteKey, Route>, key: RouteKey) {
    key in now || (key in was && ThirdMiss(g, was[key]))
  }

  ghost predicate SameRoutes(was: map<RouteKey, Route>, now: map<RouteKey, Route>, except: set<RouteKey>) {
    forall k :: k !in except ==> (k in was <==> k in now) && (k in was ==> was[k] == now[k])
  }

  /** The routes in `done` are present but for those that failed; no others have changed. */
  ghost predicate AllPresent(
    g: Graph, was: map<RouteKey, Route>, now: map<RouteKey, Route>, done: set<RouteKey>, errors: set<RouteKey>)
  {
    SameRoutes(was, now, done) && errors <= done && forall k :: k in done && k !in errors ==> Present(g, was, now, k)
  }

  lemma NonePresent(g: Graph, routes: map<RouteKey, Route>)
    ensures AllPresent(g, routes, routes, {}, {})
  {}

  lemma PresentStep(
    g: Graph, was: map<RouteKey, Route>, b: Moment, c: Moment, done: set<RouteKey>, errors: set<RouteKey>,
    errors': set<RouteKey>, key: RouteKey)
    requires AllPresent(g, was, b.routes, done, errors) && key !in done && OthersKept(b, c, key)
    requires errors <= errors' <= errors + {key} && (key !in errors' ==> Present(g, b.routes, c.routes, key))
    ensures AllPresent(g, was, c.routes, done + {key}, errors')
  {}

  lemma PresentThrough(
    g: Graph, a: map<RouteKey, Route>, b: map<RouteKey, Route>, c: map<RouteKey, Route>,
    done: set<RouteKey>, errors: set<RouteKey>, more: set<RouteKey>, errors': set<RouteKey>)
    requires AllPresent(g, a, b, done, errors) && AllPresent(g, b, c, more, errors') && done !! more
    ensures AllPresent(g, a, c, done + more, errors + errors')
  {}

  // What the barrier leaves of a route does not change whether it was missing.
  lemma PresentBefore(
    d: Desired, g: Graph, a: Moment, m: Moment, now: map<RouteKey, Route>, done: set<RouteKey>, errors: set<RouteKey>)
    requires BarrierSoFar(d, g, a, m) && AllPresent(g, m.routes, now, done, errors)
    ensures forall k :: k in done && k !in errors ==> Present(g, a.routes, now, k)
  {
    hide Consistent, Opened, MutesKept, CallsJustified, Silent;
  }

  lemma StillPresent(
    g: Graph, was: map<RouteKey, Route>, mid: map<RouteKey, Route>, now: map<RouteKey, Route>, done: set<RouteKey>,
    errors: set<RouteKey>)
    requires forall k :: k in done && k !in errors ==> Present(g, was, mid, k)
    requires forall k :: k in done && k in mid ==> k in now
    ensures forall k :: k in done && k !in errors ==> Present(g, was, now, k)
  {}

  lemma CellsOnly(d: Desired, g: Graph, f: Findings, cells: set<RouteKey>)
    requires forall k :: k in cells <==> Openable(d, g, f, k)
    ensures forall k :: k in cells ==> k.Cell?
  {}

  lemma ErrorsBlock(
    d: Desired, g: Graph, f: Findings, cells: set<RouteKey>, failed: set<RouteKey>, feeds: set<RouteKey>,
    unfed: set<RouteKey>,
    blocked: set<string>, c: map<RouteKey, Route>, m: map<RouteKey, Route>, e: map<RouteKey, Route>)
    requires (forall k :: k in cells ==> k.Cell?) && (forall k :: k in feeds ==> FeedWanted(d, g, f, k))
    requires AllPresent(g, m, c, cells, failed) && AllPresent(g, c, e, feeds, unfed)
    requires forall s :: s in blocked <==> exists k :: k in failed && k.Cell? && k.source == s
    ensures forall s :: s in blocked <==> exists k :: k in failed + unfed && k.Cell? && k.source == s
  {}

  /** Every cycle, cut short or not, silences first: up to some instant nothing opens;
      the instants after it exist only if every cell route was settled by then, and
      only unmuted cells are audible at any of them. */
  ghost predicate TwoPhase(d: Desired, g: Graph, a: Moment, b: Moment) {
    exists m :: BarrierSoFar(d, g, a, m) && (m == b || (BarrierDone(d, m) && OpenedAfter(d, g, a, m, b)))
  }

  ghost predicate OpenedAfter(d: Desired, g: Graph, a: Moment, m: Moment, b: Moment) {
    exists done, blocked :: Opening(d, g, a, m, b, done, blocked)
  }

  /** After a completed pass every audible cell is unmuted, and every cell route of
      a source that reported no failure is tuned. */
  ghost predicate Reconciled(d: Desired, g: Graph, b: Moment, blocked: set<string>) {
    && OpenUnmuted(d, b.world)
    && (forall k :: k in b.routes && k.Cell? ==> k.source in d.sources.at)
    && (forall k :: k in b.routes && k.Cell? && k.source !in blocked ==>
          Tuned(g, b.routes[k], LevelOf(d, k), MutedIn(d, k)))
  }

  lemma FailedPhase(d: Desired, g: Graph, a: Moment, m: Moment)
    requires BarrierSoFar(d, g, a, m)
    ensures TwoPhase(d, g, a, m)
  {}

  lemma OpenPhase(
    d: Desired, g: Graph, a: Moment, m: Moment, b: Moment, done: set<RouteKey>, blocked: set<string>)
    requires BarrierSoFar(d, g, a, m) && BarrierDone(d, m) && Opening(d, g, a, m, b, done, blocked)
    ensures TwoPhase(d, g, a, b)
  {
    assert OpenedAfter(d, g, a, m, b);
  }

  lemma ReconciledAfter(
    d: Desired, g: Graph, a: Moment, m: Moment, b: Moment, done: set<RouteKey>, blocked: set<string>)
    requires Opening(d, g, a, m, b, done, blocked) && b.routes.Keys <= done
    ensures Reconciled(d, g, b, blocked)
  {
    forall k | k in b.routes && k.Cell?
      ensures k.source in d.sources.at
    {
      assert Settled(d, k, b.routes[k], b.world);
    }
  }

  /** The barrier and the opening pass together justify every level written to a cell. */
  lemma TwoPhaseCalls(d: Desired, g: Graph, a: Moment, b: Moment)
    requires TwoPhase(d, g, a, b)
    ensures CallsJustified(d, a.routes, g, a.calls, b.calls)
  {}

  /** Two members of one group are never audible at once, at any instant of the cycle. */
  lemma TwoPhaseExclusive(groups: map<string, string>, d: Desired, g: Graph, a: Moment, b: Moment)
    requires Admissible(groups, d) && TwoPhase(d, g, a, b)
    requires Exclusive(groups, a.world) && AlwaysExclusive(groups, a.history)
    ensures Exclusive(groups, b.world) && AlwaysExclusive(groups, b.history)
  {
    var m :| BarrierSoFar(d, g, a, m) && (m == b || (BarrierDone(d, m) && OpenedAfter(d, g, a, m, b)));
    BarrierExclusive(groups, d, g, a, m);
    if m != b {
      var done, blocked :| Opening(d, g, a, m, b, done, blocked);
      OpeningExclusive(groups, d, g, a, m, b, done, blocked);
    }
  }

  lemma BarrierExclusive(groups: map<string, string>, d: Desired, g: Graph, a: Moment, m: Moment)
    requires BarrierSoFar(d, g, a, m)
    requires Exclusive(groups, a.world) && AlwaysExclusive(groups, a.history)
    ensures Exclusive(groups, m.world) && AlwaysExclusive(groups, m.history)
  {
    hide Exclusive, OnlyOpens;
    QuieterIsExclusive(groups, m.world, a.world);
    forall i | 0 <= i < |m.history|
      ensures Exclusive(groups, m.history[i])
    {
      if i < |a.history| {
        assert m.history[i] == a.history[i];
      } else {
        QuieterIsExclusive(groups, m.history[i], a.world);
      }
    }
  }

  lemma OpeningExclusive(
    groups: map<string, string>, d: Desired, g: Graph, a: Moment, m: Moment, b: Moment,
    done: set<RouteKey>, blocked: set<string>)
    requires Admissible(groups, d) && Opening(d, g, a, m, b, done, blocked)
    requires AlwaysExclusive(groups, m.history)
    ensures Exclusive(groups, b.world) && AlwaysExclusive(groups, b.history)
  {
    hide Exclusive, OpenUnmuted, Admissible;
    OpenUnmutedIsExclusive(groups, d, b.world);
    forall i | 0 <= i < |b.history|
      ensures Exclusive(groups, b.history[i])
    {
      if i < |m.history| {
        assert b.history[i] == m.history[i];
      } else {
        OpenUnmutedIsExclusive(groups, d, b.history[i]);
      }
    }
  }

  // ---------------------------------------------------------------- retune

  predicate SourceRetunable(before: Source, after: Source) {
    if before.level == after.level then before == after
    else before.(level := after.level) == after && ((before.level <= 0.0) <==> (after.level <= 0.0))
  }

  /** `key` names a cell of a known source and mix. */
  ghost predicate KnownCell(d: Desired, key: string) {
    exists s, m :: s in d.sources.at && m in d.mixes.at && CellKey(s, m) == key
  }

  ghost predicate CellRetunable(d: Desired, next: Desired, key: string) {
    && key in d.matrix.cells.at && key in next.matrix.cells.at
    && var before, after := d.matrix.cells.at[key], next.matrix.cells.at[key];
       if before.volume == after.volume then before == after
       else before.(volume := after.volume) == after && ((before.volume <= 0.0) <==> (after.volume <= 0.0))
            && KnownCell(next, key)
  }

  /** `next` differs from `d` only in source levels and cell volumes, none across zero. */
  ghost predicate LevelsOnly(d: Desired, next: Desired) {
    && d.mixes.at == next.mixes.at && d.scenes == next.scenes
    && d.matrix.outputs.at == next.matrix.outputs.at && d.matrix.volumes.at == next.matrix.volumes.at
    && d.matrix.extra == next.matrix.extra
    && d.sources.keys == next.sources.keys && d.matrix.cells.keys == next.matrix.cells.keys
    && (forall s :: s in next.sources.keys ==> SourceRetunable(d.sources.at[s], next.sources.at[s]))
    && (forall c :: c in next.matrix.cells.keys ==> CellRetunable(d, next, c))
  }

  predicate TouchesSource(d: Desired, next: Desired, k: RouteKey)
    requires d.sources.keys == next.sources.keys
  {
    k.Cell? && k.source in next.sources.at && k.mix in next.mixes.at
    && d.sources.at[k.source].level != next.sources.at[k.source].level
  }

  predicate TouchesCell(d: Desired, next: Desired, k: RouteKey)
    requires d.matrix.cells.keys == next.matrix.cells.keys
  {
    k.Cell? && k.source in next.sources.at && k.mix in next.mixes.at
    && CellKey(k.source, k.mix) in next.matrix.cells.at
    && Volume(d, k) != Volume(next, k)
  }

  predicate Touches(d: Desired, next: Desired, k: RouteKey)
    requires d.sources.keys == next.sources.keys && d.matrix.cells.keys == next.matrix.cells.keys
  {
    TouchesSource(d, next, k) || TouchesCell(d, next, k)
  }

  lemma NamesOneCell(d: Desired, key: RouteKey)
    requires WellFormed(d) && key.Cell? && key.source in d.sources.at
    ensures forall k: RouteKey ::
      (k.Cell? && k.source in d.sources.at && CellKey(k.source, k.mix) == CellKey(key.source, key.mix)) ==> k == key
  {
    forall k: RouteKey | k.Cell? && k.source in d.sources.at && CellKey(k.source, k.mix) == CellKey(key.source, key.mix)
      ensures k == key
    {
      CellKeyInjective(k.source, k.mix, key.source, key.mix);
    }
  }

  lemma KnownIs(d: Desired, key: RouteKey, c: string)
    requires key.Cell? && key.source in d.sources.at && key.mix in d.mixes.at && CellKey(key.source, key.mix) == c
    ensures KnownCell(d, c)
  {}

  datatype Write = Write(key: RouteKey, node: nat, applied: Applied)

  /** The last level of `r`, moved to where `next` wants it. */
  ghost predicate PlannedWrite(next: Desired, routes: map<RouteKey, Route>, w: Write) {
    && w.key.Cell? && w.key.source in next.sources.at && w.key in routes && routes[w.key].applied.Some?
    && routes[w.key].node == Some(w.node) && routes[w.key].applied.value.level != LevelOf(next, w.key)
    && w.applied == routes[w.key].applied.value.(level := LevelOf(next, w.key))
    && w.applied.muted == MutedIn(next, w.key)
  }

  ghost predicate Planned(next: Desired, routes: map<RouteKey, Route>, done: set<RouteKey>, writes: seq<Write>) {
    && (forall i :: 0 <= i < |writes| ==> PlannedWrite(next, routes, writes[i]))
    && (forall k :: k in done && k.Cell? && k.source in next.sources.at && Volume(next, k) > 0.0 ==>
          AppliedAs(next, k, routes) || exists i :: 0 <= i < |writes| && writes[i].key == k)
  }

  /** The last level command on this route is the one `d` asks for. */
  ghost predicate AppliedAs(d: Desired, k: RouteKey, routes: map<RouteKey, Route>)
    requires k.Cell? && k.source in d.sources.at
  {
    k in routes && routes[k].applied.Some?
    && routes[k].applied.value.level == LevelOf(d, k) && routes[k].applied.value.muted == MutedIn(d, k)
  }

  ghost function TouchedKeys(d: Desired, next: Desired): set<RouteKey>
    requires d.sources.keys == next.sources.keys && d.matrix.cells.keys == next.matrix.cells.keys
  {
    set s, m | s in next.sources.at && m in next.mixes.at && Touches(d, next, Cell(s, m)) :: Cell(s, m)
  }

  lemma TouchedSame(d: Desired, next: Desired, touched: set<RouteKey>)
    requires d.sources.keys == next.sources.keys && d.matrix.cells.keys == next.matrix.cells.keys
    requires forall k :: k in touched <==> Touches(d, next, k)
    ensures touched == TouchedKeys(d, next)
  {}

  lemma MovedNone(next: Desired, routes: map<RouteKey, Route>)
    ensures RoutesMoved(next, routes, routes)
  {}

  lemma PlannedEach(next: Desired, routes: map<RouteKey, Route>, done: set<RouteKey>, writes: seq<Write>)
    requires Planned(next, routes, done, writes)
    ensures forall i :: 0 <= i < |writes| ==> PlannedWrite(next, routes, writes[i])
  {}

  /** A plan under way: the touched cells in `done` are planned and their routes alive. */
  ghost predicate Planning(
    next: Desired, routes: map<RouteKey, Route>, w: World, touched: set<RouteKey>, done: set<RouteKey>,
    writes: seq<Write>)
  {
    && Planned(next, routes, done, writes)
    && (forall i :: 0 <= i < |writes| ==> writes[i].key in touched)
    && (forall k :: k in done && k.Cell? && Volume(next, k) > 0.0 ==> Alive(routes, w, k))
  }

  predicate Alive(routes: map<RouteKey, Route>, w: World, k: RouteKey) {
    k in routes && routes[k].owner in w && w[routes[k].owner].alive
  }

  lemma PlanningStart(next: Desired, routes: map<RouteKey, Route>, w: World, touched: set<RouteKey>)
    ensures Planning(next, routes, w, touched, {}, [])
  {}

  lemma PlanningIdle(
    next: Desired, routes: map<RouteKey, Route>, w: World, touched: set<RouteKey>, done: set<RouteKey>,
    writes: seq<Write>,
    key: RouteKey)
    requires Planning(next, routes, w, touched, done, writes) && key.Cell? && key.source in next.sources.at
    requires Volume(next, key) <= 0.0
    ensures Planning(next, routes, w, touched, done + {key}, writes)
  {
    PlannedKey(next, routes, done, writes, key);
    hide Planned, Volume, Alive;
  }

  lemma PlanningStep(
    next: Desired, routes: map<RouteKey, Route>, w: World, touched: set<RouteKey>, done: set<RouteKey>,
    writes: seq<Write>,
    key: RouteKey, write: Option<Write>)
    requires Planning(next, routes, w, touched, done, writes) && key in touched && key.Cell?
      && key.source in next.sources.at
    requires Alive(routes, w, key)
    requires if write.Some?
      then write.value.key == key && PlannedWrite(next, routes, write.value)
      else AppliedAs(next, key, routes)
    ensures Planning(next, routes, w, touched, done + {key}, if write.Some? then writes + [write.value] else writes)
  {
    hide PlannedWrite, AppliedAs, Volume, Alive;
    var more := if write.Some? then writes + [write.value] else writes;
    if write.Some? {
      PlannedMore(next, routes, done, writes, more);
      assert more[|writes|].key == key;
    }
    PlannedKey(next, routes, done, more, key);
    hide Planned;
  }

  lemma PlanningEnd(
    next: Desired, routes: map<RouteKey, Route>, w: World, touched: set<RouteKey>, writes: seq<Write>)
    requires Planning(next, routes, w, touched, touched, writes)
    ensures Planned(next, routes, touched, writes) && forall i :: 0 <= i < |writes| ==> writes[i].key in touched
    ensures forall k :: k in touched && k.Cell? && Volume(next, k) > 0.0 ==> Alive(routes, w, k)
  {}

  lemma NothingPlanned(next: Desired, routes: map<RouteKey, Route>)
    ensures Planned(next, routes, {}, [])
  {}

  lemma PlannedKey(next: Desired, routes: map<RouteKey, Route>, done: set<RouteKey>, writes: seq<Write>, key: RouteKey)
    requires Planned(next, routes, done, writes) && key.Cell? && key.source in next.sources.at
    requires Volume(next, key) > 0.0 ==>
      AppliedAs(next, key, routes) || exists i :: 0 <= i < |writes| && writes[i].key == key
    ensures Planned(next, routes, done + {key}, writes)
  {
    hide LevelOf, MutedIn, PlannedWrite;
  }

  lemma PlannedMore(
    next: Desired, routes: map<RouteKey, Route>, done: set<RouteKey>, before: seq<Write>, writes: seq<Write>)
    requires Planned(next, routes, done, before) && before <= writes
    requires forall i :: |before| <= i < |writes| ==> PlannedWrite(next, routes, writes[i])
    ensures Planned(next, routes, done, writes)
  {
    forall k | k in done && k.Cell? && k.source in next.sources.at && Volume(next, k) > 0.0
      ensures AppliedAs(next, k, routes) || exists i :: 0 <= i < |writes| && writes[i].key == k
    {
      if !AppliedAs(next, k, routes) {
        var i :| 0 <= i < |before| && before[i].key == k;
        assert writes[i].key == k;
      }
    }
  }

  /** Identity, mute, name, owner and spec stay; a level may move to where `next` wants it. */
  ghost predicate RoutesMoved(next: Desired, r0: map<RouteKey, Route>, r: map<RouteKey, Route>) {
    && r.Keys == r0.Keys
    && (forall k :: k in r ==> r[k] == r0[k].(applied := r[k].applied, node := r[k].node))
    && (forall k :: k in r ==> r[k].applied == r0[k].applied || LevelMoved(next, k, r0[k], r[k]))
  }

  ghost predicate LevelMoved(next: Desired, k: RouteKey, was: Route, now: Route) {
    k.Cell? && k.source in next.sources.at && was.applied.Some?
    && now.applied == Some(was.applied.value.(level := LevelOf(next, k)))
  }

  ghost predicate Written(writes: seq<Write>, routes: map<RouteKey, Route>) {
    forall j :: 0 <= j < |writes| ==>
      writes[j].key in routes && routes[writes[j].key].applied == Some(writes[j].applied)
  }

  lemma MovedKeeps(next: Desired, r0: map<RouteKey, Route>, r: map<RouteKey, Route>, w: Write)
    requires RoutesMoved(next, r0, r) && PlannedWrite(next, r0, w)
    ensures w.key in r && r[w.key].applied.Some? && r[w.key].applied.value.muted == w.applied.muted
  {
    hide LevelOf, MutedIn;
  }

  lemma MovedOwners(next: Desired, r0: map<RouteKey, Route>, r: map<RouteKey, Route>)
    requires RoutesMoved(next, r0, r)
    ensures r.Keys == r0.Keys && forall k :: k in r ==> r[k].owner == r0[k].owner
  {}

  /** The commands of a retune, all of which succeeded. */
  function Volumes(writes: seq<Write>): seq<Call> {
    seq(|writes|, i requires 0 <= i < |writes| => VolumeCall(writes[i].node, writes[i].applied.level, true))
  }

  lemma NothingWritten()
    ensures Volumes([]) == []
  {}

  lemma NoVolumes(writes: seq<Write>, routes: map<RouteKey, Route>)
    ensures Volumes(writes[..0]) == [] && Written(writes[..0], routes)
  {}

  lemma VolumesMore(writes: seq<Write>, i: nat)
    requires i < |writes|
    ensures Volumes(writes[..i + 1]) ==
      Volumes(writes[..i]) + [VolumeCall(writes[i].node, writes[i].applied.level, true)]
  {}

  /** A volume command that succeeded backs the level it moved. */
  lemma VolumeBacks(r: Route, was: Route, calls: seq<Call>, node: nat)
    requires Backed(was, calls) && was.applied.Some? && r.applied.Some?
      && r.applied.value.muted == was.applied.value.muted
    ensures Backed(r, calls + [VolumeCall(node, r.applied.value.level, true)])
  {
    var more := calls + [VolumeCall(node, r.applied.value.level, true)];
    assert more[|calls|].VolumeCall? && more[|calls|].ok;
    BackedStill(was, calls, more);
  }

  lemma WrittenStep(
    next: Desired, r0: map<RouteKey, Route>, r: map<RouteKey, Route>, r': map<RouteKey, Route>,
    writes: seq<Write>, i: nat, ok: bool)
    requires RoutesMoved(next, r0, r) && i < |writes| && Written(writes[..i], r)
    requires forall j :: 0 <= j <= i ==> PlannedWrite(next, r0, writes[j])
    requires writes[i].key in r
    requires r' == r[writes[i].key := if ok then r[writes[i].key].(applied := Some(writes[i].applied))
                                      else r[writes[i].key].(node := None)]
    ensures RoutesMoved(next, r0, r') && (ok ==> Written(writes[..i + 1], r'))
  {
    hide LevelOf, MutedIn;
  }

  /** The edit only moved levels, and every wanted route that it touched has its new one. */
  ghost predicate TouchedMoved(d: Desired, next: Desired, routes: map<RouteKey, Route>) {
    LevelsOnly(d, next)
    && forall k :: Touches(d, next, k) && Volume(next, k) > 0.0 ==> AppliedAs(next, k, routes)
  }

  lemma TouchesCells(d: Desired, next: Desired)
    requires LevelsOnly(d, next)
    ensures d.sources.keys == next.sources.keys && d.matrix.cells.keys == next.matrix.cells.keys
    ensures forall k :: Touches(d, next, k) ==> k.Cell? && k.source in next.sources.at
  {}

  lemma MovedAll(
    d: Desired, next: Desired, r0: map<RouteKey, Route>, r: map<RouteKey, Route>,
    touched: set<RouteKey>, writes: seq<Write>)
    requires LevelsOnly(d, next) && (forall k :: k in touched <==> Touches(d, next, k))
    requires Planned(next, r0, touched, writes) && RoutesMoved(next, r0, r) && Written(writes, r)
    ensures TouchedMoved(d, next, r)
  {
    forall k | Touches(d, next, k) && Volume(next, k) > 0.0
      ensures AppliedAs(next, k, r)
    {
      assert k in touched;
      if !AppliedAs(next, k, r0) {
        var i :| 0 <= i < |writes| && writes[i].key == k;
        assert PlannedWrite(next, r0, writes[i]);
      }
    }
  }

  /** From `a` to `b` nothing opened, and what was muted still is. */
  ghost predicate Quieted(a: Moment, b: Moment) {
    Consistent(b) && Opened(a, b, {}) && MutesKept(a.world, b.world) && a.calls <= b.calls
  }

  lemma QuietedRefl(a: Moment)
    requires Consistent(a)
    ensures Quieted(a, a)
  {}

  lemma QuietedTrans(a: Moment, b: Moment, c: Moment)
    requires Quieted(a, b) && Quieted(b, c)
    ensures Quieted(a, c)
  {
    OpenedTrans(a, b, c, {});
  }

  lemma QuietedStep(a: Moment, b: Moment, c: Moment, key: RouteKey)
    requires Quieted(a, b) && Acts(b, c, key, {})
    ensures Quieted(a, c)
  {
    OpenedTrans(a, b, c, {});
  }

  /** Every wanted cell route in the table has exactly the level and mute `d` asks for. */
  ghost predicate AllTuned(d: Desired, routes: map<RouteKey, Route>) {
    forall k :: k in routes && Wanted(d, k) ==> AppliedAs(d, k, routes)
  }

  /** The snapshot shows the nodes the routes were tuned on, silent ones muted. */
  ghost predicate Agrees(g: Graph, d: Desired, routes: map<RouteKey, Route>) {
    forall k :: k in routes && Wanted(d, k) && g.Owned(routes[k].name, routes[k].owner).Some? ==>
      var node := g.Owned(routes[k].name, routes[k].owner).value;
      && (routes[k].applied.Some? ==> node.identity == routes[k].applied.value.identity)
      && (MutedIn(d, k) ==> node.muted == Some(true))
  }

  /** An edit the fast path accepts keeps the wanted routes and every mute. */
  lemma LevelsOnlyKeepsRoutes(d: Desired, next: Desired, k: RouteKey)
    requires LevelsOnly(d, next)
    ensures Wanted(d, k) <==> Wanted(next, k)
    ensures k.Cell? && k.source in d.sources.at ==> k.source in next.sources.at && MutedIn(d, k) == MutedIn(next, k)
  {
    if k.Cell? && k.source in d.sources.at {
      assert k.source in next.sources.keys;
      var c := CellKey(k.source, k.mix);
      assert c in d.matrix.cells.at <==> c in d.matrix.cells.keys;
      assert c in next.matrix.cells.at <==> c in next.matrix.cells.keys;
    }
  }

  /** After a successful retune every route satisfies the equation of the new state. */
  lemma RetuneTunes(d: Desired, next: Desired, r0: map<RouteKey, Route>, r: map<RouteKey, Route>)
    requires AllTuned(d, r0) && RoutesMoved(next, r0, r) && TouchedMoved(d, next, r)
    ensures AllTuned(next, r)
  {
    forall k | k in r && Wanted(next, k)
      ensures AppliedAs(next, k, r)
    {
      LevelsOnlyKeepsRoutes(d, next, k);
      assert AppliedAs(d, k, r0);
      if !Touches(d, next, k) {
        UntouchedLevel(d, next, k);
      }
    }
  }

  lemma UntouchedLevel(d: Desired, next: Desired, k: RouteKey)
    requires LevelsOnly(d, next) && Wanted(next, k) && !Touches(d, next, k)
    ensures k.source in d.sources.at && LevelOf(d, k) == LevelOf(next, k)
  {
    hide SourceRetunable, CellRetunable, MutedIn;
    var c := CellKey(k.source, k.mix);
    assert c in d.matrix.cells.at <==> c in d.matrix.cells.keys;
    assert c in next.matrix.cells.at <==> c in next.matrix.cells.keys;
    assert k.source in d.sources.keys;
  }

  /** The full pass that verifies a retune has nothing left to write to any cell. */
  lemma RetuneThenPassIsQuiet(
    d: Desired, next: Desired, r0: map<RouteKey, Route>, g: Graph, a: Moment, b: Moment)
    requires AllTuned(d, r0) && RoutesMoved(next, r0, a.routes) && TouchedMoved(d, next, a.routes)
    requires Agrees(g, next, a.routes) && TwoPhase(next, g, a, b)
    ensures AllTuned(next, a.routes)
    ensures a.calls <= b.calls
    ensures forall i :: |a.calls| <= i < |b.calls| ==> b.calls[i].LinkCall? || AtFeed(a.routes, g, b.calls[i])
  {
    RetuneTunes(d, next, r0, a.routes);
    TwoPhaseCalls(next, g, a, b);
    hide AllTuned, RoutesMoved, TouchedMoved, TwoPhase, Agrees;
    forall i | |a.calls| <= i < |b.calls|
      ensures b.calls[i].LinkCall? || AtFeed(a.routes, g, b.calls[i])
    {
      if !b.calls[i].LinkCall? {
        assert CallJustified(next, a.routes, g, b.calls[i]);
        var key :| ForRoute(next, a.routes, g, key, b.calls[i]);
        if key.Cell? {
          TunedIsUnjustified(next, a.routes, g, key);
        }
      }
    }
  }

  /** A volume or mute command to the node of a capture or output route. */
  ghost predicate AtFeed(routes: map<RouteKey, Route>, g: Graph, c: Call) {
    exists key :: key in routes && !key.Cell? && AtNode(c, g.Owned(routes[key].name, routes[key].owner))
  }

  predicate AtNode(c: Call, node: Option<GraphNode>) {
    !c.LinkCall? && node.Some? && c.node == node.value.id
  }

  /** Then it goes to the node of no cell, if the graph gives no two nodes one number. */
  lemma FeedIsNoCell(a: Moment, g: Graph, c: Call, k: RouteKey)
    requires Consistent(a) && AtFeed(a.routes, g, c) && k in a.routes && k.Cell?
    requires forall x, y :: x in g.names && y in g.names && g.Node(x).Some? && g.Node(y).Some? && x != y ==>
      g.Node(x).value.id != g.Node(y).value.id
    ensures !AtNode(c, g.Owned(a.routes[k].name, a.routes[k].owner))
  {
    var key :| key in a.routes && !key.Cell? && AtNode(c, g.Owned(a.routes[key].name, a.routes[key].owner));
    hide AllBacked;
    assert Owns(a.routes[k], k, a.world) && Owns(a.routes[key], key, a.world);
  }

  lemma TunedIsUnjustified(d: Desired, routes: map<RouteKey, Route>, g: Graph, k: RouteKey)
    requires AllTuned(d, routes) && Agrees(g, d, routes) && Wanted(d, k)
    ensures !Justified(routes, g, k, LevelOf(d, k), MutedIn(d, k))
  {}

  lemma QuietedExclusive(groups: map<string, string>, a: Moment, b: Moment)
    requires Quieted(a, b) && Exclusive(groups, a.world) && AlwaysExclusive(groups, a.history)
    ensures Exclusive(groups, b.world) && AlwaysExclusive(groups, b.history)
  {
    hide Exclusive, OnlyOpens, Consistent, MutesKept;
    QuieterIsExclusive(groups, b.world, a.world);
    forall i | 0 <= i < |b.history|
      ensures Exclusive(groups, b.history[i])
    {
      if i < |a.history| {
        assert b.history[i] == a.history[i];
      } else {
        QuieterIsExclusive(groups, b.history[i], a.world);
      }
    }
  }

  // The mutes a snapshot reports stand until something is unmuted.
  lemma SnapshotStands(a: Moment, b: Moment)
    requires Consistent(a) && Quieted(a, b) && b.routes.Keys <= a.routes.Keys
    requires forall k :: k in b.routes ==> b.routes[k] == a.routes[k]
    ensures MutesKept(a.world, b.world) && forall k :: k in b.routes ==> b.routes[k].owner in a.world
  {}

  lemma DriftStep(groups: map<string, string>, a: Moment, b: Moment)
    requires Consistent(a) && Exclusive(groups, a.world) && AlwaysExclusive(groups, a.history)
    requires b == a.(world := b.world, history := a.history + [b.world]) && b.world.Keys == a.world.Keys
    requires forall o :: o in b.world ==>
      && b.world[o].key == a.world[o].key && b.world[o].name == a.world[o].name
      && (b.world[o].alive ==> a.world[o].alive)
      && (b.world[o].linked ==> a.world[o].linked && b.world[o].muted == a.world[o].muted)
    ensures Consistent(b) && Exclusive(groups, b.world) && AlwaysExclusive(groups, b.history)
  {
    assert OnlyOpens(b.world, a.world, {});
    QuieterIsExclusive(groups, b.world, a.world);
    hide Exclusive, OnlyOpens;
    assert forall o :: o in b.world ==> o in a.world;
    assert forall k :: k in b.routes ==> Owns(a.routes[k], k, a.world);
  }

  predicate ShownSilent(g: Graph, r: Route) {
    var node := g.Owned(r.name, r.owner);
    r.applied.Some? && r.applied.value.muted && node.Some? && node.value.identity == r.applied.value.identity
  }

  /** What one turn of the worker meets: the desired state it was given, what the
      tools would report, and how the audio graph drifted meanwhile. */
  datatype Turn = Turn(
    woken: bool, capturesPending: bool, inTime: bool, due: bool, desired: Desired,
    reported: Option<Graph>, findings: Findings,
    exits: set<Owner>, unlinked: set<Owner>, unmuted: set<Owner>)
}
