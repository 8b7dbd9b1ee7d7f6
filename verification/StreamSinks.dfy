/** The sinks that a pass provides for mixes and app sources (mixer.rs), and what the log
    of commands about sinks tells over any run. */
module StreamSinks {
  import opened Wrappers
  import opened Model
  import opened Strings
  import opened Outputs
  import opened StreamServers
  import opened StreamPasses

  /** A sink that is needed: that of a mix, or the intake of an app source. */
  datatype Demand = Demand(name: string, mix: Option<Mix>)

  /** The streams of an app source, before it is known whether its intake may be used. */
  datatype Order = Order(intake: string, ids: seq<NodeIdentity>)

  datatype Table = Table(sinks: map<string, OwnedSink>, persistent: map<string, PersistentSink>)

  function Demands(mixes: seq<Mix>, orders: seq<Order>): seq<Demand> {
    seq(|mixes|, i requires 0 <= i < |mixes| => Demand(mixes[i].sink, Some(mixes[i])))
    + seq(|orders|, i requires 0 <= i < |orders| => Demand(orders[i].intake, None))
  }

  function ClaimsOf(orders: seq<Order>, ready: set<string>): seq<Claims> {
    seq(|orders|, i requires 0 <= i < |orders| =>
      Claims(orders[i].intake, orders[i].intake in ready, orders[i].ids))
  }

  /** How far the routes let a pass get: to the barrier, which comes before the app sources;
      to a feed or a stale route that fails, which come after; or to its end. */
  datatype Course = Barred | Halted | Whole

  function Reached(course: Course, orders: seq<Order>): seq<Order> {
    if course.Barred? then [] else orders
  }

  function ClaimsIn(course: Course, orders: seq<Order>, ready: set<string>): seq<Claims> {
    ClaimsOf(orders, if course.Barred? then {} else ready)
  }

  function SinkNames(mixes: seq<Mix>): set<string> {
    set m | m in mixes :: m.sink
  }

  function Intakes(orders: seq<Order>): set<string> {
    set o | o in orders :: o.intake
  }

  // The name test of the mix store keeps the intakes' prefix for the intakes.
  predicate GoodMixes(mixes: seq<Mix>) {
    && (forall i, j :: 0 <= i < j < |mixes| ==> mixes[i].sink != mixes[j].sink)
    && (forall i :: 0 <= i < |mixes| ==> OpenWaveName(mixes[i].sink) && !IntakeName(mixes[i].sink))
  }

  predicate GoodOrders(orders: seq<Order>) {
    && (forall i, j :: 0 <= i < j < |orders| ==> orders[i].intake != orders[j].intake)
    && (forall i :: 0 <= i < |orders| ==> IntakeName(orders[i].intake))
    && Distinct(ClaimedIds(ClaimsOf(orders, {})))
  }

  predicate GoodDemands(demands: seq<Demand>) {
    && (forall i, j :: 0 <= i < j < |demands| ==> demands[i].name != demands[j].name)
    && (forall i :: 0 <= i < |demands| ==> OpenWaveName(demands[i].name))
  }

  lemma DemandsAreGood(mixes: seq<Mix>, orders: seq<Order>)
    requires GoodMixes(mixes) && GoodOrders(orders)
    ensures GoodDemands(Demands(mixes, orders))
  {
    var all, n := Demands(mixes, orders), |mixes|;
    assert forall i :: 0 <= i < |all| ==>
      all[i].name == if i < n then mixes[i].sink else orders[i - n].intake;
    forall i | 0 <= i < |all|
      ensures OpenWaveName(all[i].name) && (IntakeName(all[i].name) <==> i >= n)
    {
      IntakesAreOurs(all[i].name);
    }
  }

  lemma NoOrders()
    ensures GoodOrders([])
  {}

  /** Whose intake may be used does not matter for what is claimed. */
  lemma {:induction false} SameIds(orders: seq<Order>, a: set<string>, b: set<string>)
    ensures ClaimedIds(ClaimsOf(orders, a)) == ClaimedIds(ClaimsOf(orders, b))
  {
    if orders != [] {
      var n := |orders| - 1;
      SameIds(orders[..n], a, b);
      assert ClaimsOf(orders, a)[..n] == ClaimsOf(orders[..n], a);
      assert ClaimsOf(orders, b)[..n] == ClaimsOf(orders[..n], b);
    }
  }

  lemma ClaimedIntakes(orders: seq<Order>, ready: set<string>, mixes: set<string>)
    ensures KeptNames(ClaimsOf(orders, ready), mixes) == mixes + Intakes(orders)
  {
    var claims := ClaimsOf(orders, ready);
    forall o | o in orders
      ensures exists c :: c in claims && c.intake == o.intake
    {
      var i :| 0 <= i < |orders| && orders[i] == o;
      assert claims[i] in claims;
    }
    forall c | c in claims
      ensures exists o :: o in orders && o.intake == c.intake
    {
      var i :| 0 <= i < |claims| && claims[i] == c;
      assert orders[i] in orders;
    }
  }

  // ---------------------------------------------------------------- providing sinks

  function Entry<V>(m: map<string, V>, name: string): Option<V> {
    if name in m then Some(m[name]) else None
  }

  /** The name is free, and ours was not there for three observations, if it ever was. */
  predicate LoadDue(g: Graph, sinks: map<string, OwnedSink>, name: string) {
    name !in g.names && (name in sinks ==> sinks[name].missing >= 2)
  }

  /** The node shown under the name is the module we loaded for it. */
  predicate OurModule(g: Graph, sinks: map<string, OwnedSink>, name: string) {
    var node := g.Node(name);
    node.Some? && name in sinks && sinks[name].cookie == g.cookie
    && node.value.owner == Some(sinks[name].owner) && node.value.moduleId == Some(sinks[name].moduleId)
  }

  /** The node shown under the name is the one on record, with the definition we wrote. */
  predicate Evident(g: Graph, persistent: map<string, PersistentSink>, name: string) {
    var node := g.Node(name);
    node.Some? && name in persistent && persistent[name].identity == node.value.identity
    && DefinitionMatches(node.value, persistent[name].definition)
  }

  predicate Proven(g: Graph, t: Table, name: string) {
    if name in t.sinks then OurModule(g, t.sinks, name) else Evident(g, t.persistent, name)
  }

  /** A sink that may be used: a module of ours, or a mix's sink that is on record or whose
      stamp is the definition of that mix. */
  predicate Usable(g: Graph, pulse: set<string>, t: Table, d: Demand) {
    && g.Node(d.name).Some? && d.name in pulse
    && (if d.name in t.sinks then
          OurModule(g, t.sinks, d.name)
        else
          d.mix.Some?
          && (Evident(g, t.persistent, d.name) || DefinitionMatches(g.Node(d.name).value, d.mix.value)))
  }

  /** What becomes of the handle: proof ends its absences, absence counts, and what is due
      is replaced by what was loaded, if anything was. */
  function HandleAfter(g: Graph, pulse: set<string>, t: Table, d: Demand, loaded: Option<OwnedSink>)
      : Option<OwnedSink> {
    if Usable(g, pulse, t, d) then
      if d.name in t.sinks then Some(t.sinks[d.name].(missing := 0)) else None
    else if d.name in g.names then Entry(t.sinks, d.name)
    else if LoadDue(g, t.sinks, d.name) then loaded
    else Some(t.sinks[d.name].(missing := t.sinks[d.name].missing + 1))
  }

  /** What becomes of the evidence for a persistent sink: a stamp that is the definition of
      the mix is taken down. */
  function EvidenceAfter(g: Graph, pulse: set<string>, t: Table, d: Demand): Option<PersistentSink> {
    if Usable(g, pulse, t, d) && d.name !in t.sinks && !Evident(g, t.persistent, d.name) then
      Some(PersistentSink(g.Node(d.name).value.identity, d.mix.value))
    else Entry(t.persistent, d.name)
  }

  function Handle(cookie: nat, owner: nat, moduleId: Option<nat>): Option<OwnedSink> {
    if moduleId.Some? then Some(OwnedSink(cookie, moduleId.value, owner, 0)) else None
  }

  /** One sink is provided, and no other name is touched. */
  ghost predicate Provided(
    g: Graph, pulse: set<string>, d: Demand, was: Table, now: Table, acts: seq<Act>, acts': seq<Act>, owner: nat,
    moduleId: Option<nat>)
  {
    && Entry(now.sinks, d.name) == HandleAfter(g, pulse, was, d, Handle(g.cookie, owner, moduleId))
    && Entry(now.persistent, d.name) == EvidenceAfter(g, pulse, was, d)
    && now.sinks - {d.name} == was.sinks - {d.name} && now.persistent - {d.name} == was.persistent - {d.name}
    && acts' == if LoadDue(g, was.sinks, d.name) then acts + [Loaded(d.name, owner, moduleId)] else acts
  }

  lemma FurnishedActs(
    g: Graph, pulse: set<string>, d: Demand, was: Table, now: Table, acts: seq<Act>, acts': seq<Act>, owner: nat,
    moduleId: Option<nat>)
    requires Provided(g, pulse, d, was, now, acts, acts', owner, moduleId)
    ensures acts <= acts'
  {}

  /** The handle that the last load of a name gave. */
  function LoadedAs(cookie: nat, w: seq<Act>, name: string): Option<OwnedSink> {
    if w == [] then None
    else
      var e := w[|w| - 1];
      if e.name != name then LoadedAs(cookie, w[..|w| - 1], name)
      else if e.Loaded? then Handle(cookie, e.owner, e.moduleId) else None
  }

  lemma {:induction false} LoadedAsIn(cookie: nat, w: seq<Act>, name: string)
    ensures var h := LoadedAs(cookie, w, name);
      h.Some? ==> h.value.cookie == cookie && Loaded(name, h.value.owner, Some(h.value.moduleId)) in w
  {
    if w != [] && w[|w| - 1].name != name {
      LoadedAsIn(cookie, w[..|w| - 1], name);
    }
  }

  /** The names loaded: those that are due, each once, in order. */
  function DueNames(g: Graph, sinks: map<string, OwnedSink>, demands: seq<Demand>): seq<string> {
    if demands == [] then []
    else
      var d := demands[|demands| - 1];
      DueNames(g, sinks, demands[..|demands| - 1]) + if LoadDue(g, sinks, d.name) then [d.name] else []
  }

  predicate LoadsOf(w: seq<Act>, names: seq<string>) {
    |w| == |names| && forall i :: 0 <= i < |w| ==> w[i].Loaded? && w[i].name == names[i]
  }

  /** Every demand is met as the tables stood before, and nothing else changes. */
  ghost predicate Furnished(
    g: Graph, pulse: set<string>, demands: seq<Demand>, was: Table, now: Table, ready: set<string>, acts: seq<Act>,
    acts': seq<Act>)
  {
    && acts <= acts' && LoadsOf(acts'[|acts|..], DueNames(g, was.sinks, demands))
    && ReadyIs(g, pulse, demands, was, ready)
    && (forall d :: d in demands ==> Met(g, pulse, d, was, now, acts'[|acts|..]))
    && (forall name :: !Named(demands, name) ==> SameAt(was, now, name))
  }

  predicate Named(demands: seq<Demand>, name: string) {
    exists d :: d in demands && d.name == name
  }

  lemma NamedMore(demands: seq<Demand>, d: Demand, name: string)
    ensures Named(demands + [d], name) <==> Named(demands, name) || name == d.name
  {
    assert d in demands + [d];
    forall e | e in demands
      ensures e in demands + [d]
    {}
  }

  /** A sink may be used if and only if it is provably ours. */
  ghost predicate ReadyIs(g: Graph, pulse: set<string>, demands: seq<Demand>, was: Table, ready: set<string>) {
    && (forall d :: d in demands ==> (d.name in ready <==> Usable(g, pulse, was, d)))
    && (forall name :: name in ready ==> Named(demands, name))
  }

  lemma MoreReady(g: Graph, pulse: set<string>, demands: seq<Demand>, d: Demand, was: Table, ready: set<string>)
    requires ReadyIs(g, pulse, demands, was, ready) && forall e :: e in demands ==> e.name != d.name
    ensures ReadyIs(g, pulse, demands + [d], was, if Usable(g, pulse, was, d) then ready + {d.name} else ready)
  {
    hide Usable;
    var more := if Usable(g, pulse, was, d) then ready + {d.name} else ready;
    forall name | name in more
      ensures Named(demands + [d], name)
    {
      NamedMore(demands, d, name);
    }
  }

  predicate Met(g: Graph, pulse: set<string>, d: Demand, was: Table, now: Table, w: seq<Act>) {
    && Entry(now.sinks, d.name) == HandleAfter(g, pulse, was, d, LoadedAs(g.cookie, w, d.name))
    && Entry(now.persistent, d.name) == EvidenceAfter(g, pulse, was, d)
  }

  predicate SameAt(was: Table, now: Table, name: string) {
    Entry(now.sinks, name) == Entry(was.sinks, name) && Entry(now.persistent, name) == Entry(was.persistent, name)
  }

  lemma FurnishedNone(g: Graph, pulse: set<string>, t: Table, acts: seq<Act>)
    ensures Furnished(g, pulse, [], t, t, {}, acts, acts)
  {}

  lemma NextIsFresh(
    g: Graph, pulse: set<string>, demands: seq<Demand>, n: nat, was: Table, mid: Table, ready: set<string>,
    acts: seq<Act>, acts': seq<Act>)
    requires n < |demands| && forall i, j :: 0 <= i < j < |demands| ==> demands[i].name != demands[j].name
    requires Furnished(g, pulse, demands[..n], was, mid, ready, acts, acts')
    ensures SameAt(was, mid, demands[n].name)
    ensures Usable(g, pulse, mid, demands[n]) <==> Usable(g, pulse, was, demands[n])
  {
    hide Met, LoadsOf, DueNames, ReadyIs, Usable, HandleAfter, EvidenceAfter, LoadDue;
    assert !Named(demands[..n], demands[n].name);
    SameDemand(g, pulse, demands[n], was, mid, None);
  }

  lemma SameDemand(g: Graph, pulse: set<string>, d: Demand, was: Table, mid: Table, loaded: Option<OwnedSink>)
    requires SameAt(was, mid, d.name)
    ensures Usable(g, pulse, mid, d) <==> Usable(g, pulse, was, d)
    ensures HandleAfter(g, pulse, mid, d, loaded) == HandleAfter(g, pulse, was, d, loaded)
    ensures EvidenceAfter(g, pulse, mid, d) == EvidenceAfter(g, pulse, was, d)
    ensures LoadDue(g, mid.sinks, d.name) <==> LoadDue(g, was.sinks, d.name)
  {
    assert d.name in mid.sinks <==> d.name in was.sinks;
    assert d.name in mid.persistent <==> d.name in was.persistent;
  }

  lemma LoadedAsMore(cookie: nat, w: seq<Act>, e: Act, name: string)
    ensures LoadedAs(cookie, w + [e], name) ==
      if e.name != name then LoadedAs(cookie, w, name)
      else if e.Loaded? then Handle(cookie, e.owner, e.moduleId) else None
  {
    assert (w + [e])[..|w|] == w;
  }

  lemma MoreLoads(
    g: Graph, sinks: map<string, OwnedSink>, demands: seq<Demand>, n: nat, acts: seq<Act>, acts1: seq<Act>,
    acts2: seq<Act>, owner: nat, moduleId: Option<nat>)
    requires n < |demands| && acts <= acts1 && LoadsOf(acts1[|acts|..], DueNames(g, sinks, demands[..n]))
    requires acts2 ==
      if LoadDue(g, sinks, demands[n].name) then acts1 + [Loaded(demands[n].name, owner, moduleId)] else acts1
    ensures acts <= acts2 && LoadsOf(acts2[|acts|..], DueNames(g, sinks, demands[..n + 1]))
    ensures acts2[|acts|..] == acts1[|acts|..]
      + if LoadDue(g, sinks, demands[n].name) then [Loaded(demands[n].name, owner, moduleId)] else []
  {
    assert demands[..n + 1][..n] == demands[..n];
    hide LoadDue;
  }

  /** The demands before are met as they were, by tables that differ at another name. */
  lemma OthersMet(
    g: Graph, pulse: set<string>, demands: seq<Demand>, d: Demand, was: Table, mid: Table, now: Table, w1: seq<Act>,
    w2: seq<Act>)
    requires forall e :: e in demands ==> e.name != d.name && Met(g, pulse, e, was, mid, w1)
    requires now.sinks - {d.name} == mid.sinks - {d.name} && now.persistent - {d.name} == mid.persistent - {d.name}
    requires w2 == w1 || exists e: Act :: w2 == w1 + [e] && e.name == d.name
    ensures forall e :: e in demands ==> Met(g, pulse, e, was, now, w2)
  {
    hide HandleAfter, EvidenceAfter, LoadedAs;
    forall e | e in demands
      ensures Met(g, pulse, e, was, now, w2)
    {
      assert Met(g, pulse, e, was, mid, w1);
      OtherEntries(mid, now, d.name, e.name);
      if w2 != w1 {
        var a: Act :| w2 == w1 + [a] && a.name == d.name;
        LoadedAsMore(g.cookie, w1, a, e.name);
      }
    }
  }

  lemma OtherEntries(was: Table, now: Table, name: string, other: string)
    requires now.sinks - {name} == was.sinks - {name} && now.persistent - {name} == was.persistent - {name}
    requires other != name
    ensures SameAt(was, now, other)
  {
    assert other in now.sinks <==> other in now.sinks - {name};
    assert other in was.sinks <==> other in was.sinks - {name};
    assert other in now.persistent <==> other in now.persistent - {name};
    assert other in was.persistent <==> other in was.persistent - {name};
  }

  lemma ThisMet(
    g: Graph, pulse: set<string>, d: Demand, was: Table, mid: Table, now: Table, acts1: seq<Act>, acts2: seq<Act>,
    w1: seq<Act>, w2: seq<Act>, owner: nat, moduleId: Option<nat>)
    requires SameAt(was, mid, d.name) && Provided(g, pulse, d, mid, now, acts1, acts2, owner, moduleId)
    requires w2 == w1 + if LoadDue(g, was.sinks, d.name) then [Loaded(d.name, owner, moduleId)] else []
    ensures Met(g, pulse, d, was, now, w2)
  {
    SameDemand(g, pulse, d, was, mid, Handle(g.cookie, owner, moduleId));
    if LoadDue(g, was.sinks, d.name) {
      LoadedAsMore(g.cookie, w1, Loaded(d.name, owner, moduleId), d.name);
    }
  }

  /** One more demand, for a name that is new. */
  lemma FurnishedMore(
    g: Graph, pulse: set<string>, demands: seq<Demand>, n: nat, was: Table, mid: Table, now: Table, ready: set<string>,
    acts: seq<Act>, acts1: seq<Act>, acts2: seq<Act>, owner: nat, moduleId: Option<nat>)
    requires n < |demands| && forall i, j :: 0 <= i < j < |demands| ==> demands[i].name != demands[j].name
    requires Furnished(g, pulse, demands[..n], was, mid, ready, acts, acts1)
    requires Provided(g, pulse, demands[n], mid, now, acts1, acts2, owner, moduleId)
    ensures Furnished(g, pulse, demands[..n + 1], was, now,
      if Usable(g, pulse, mid, demands[n]) then ready + {demands[n].name} else ready, acts, acts2)
  {
    hide HandleAfter, EvidenceAfter, Usable, LoadDue, LoadedAs, DueNames, LoadsOf, Met, ReadyIs;
    var d, w1, w2 := demands[n], acts1[|acts|..], acts2[|acts|..];
    assert forall e :: e in demands[..n] ==> e.name != d.name;
    NextIsFresh(g, pulse, demands, n, was, mid, ready, acts, acts1);
    assert demands[..n + 1] == demands[..n] + [d];
    SameDemand(g, pulse, d, was, mid, Handle(g.cookie, owner, moduleId));
    MoreLoads(g, was.sinks, demands, n, acts, acts1, acts2, owner, moduleId);
    OthersMet(g, pulse, demands[..n], d, was, mid, now, w1, w2);
    ThisMet(g, pulse, d, was, mid, now, acts1, acts2, w1, w2, owner, moduleId);
    MoreReady(g, pulse, demands[..n], d, was, ready);
    forall name | !Named(demands[..n + 1], name)
      ensures SameAt(was, now, name)
    {
      NamedMore(demands[..n], d, name);
      OtherEntries(mid, now, d.name, name);
      assert SameAt(was, mid, name);
    }
  }

  // ---------------------------------------------------------------- the log of commands

  /** Each handle is of a load on record. */
  ghost predicate LoadedHere(acts: seq<Act>, sinks: map<string, OwnedSink>) {
    forall name :: name in sinks ==> Loaded(name, sinks[name].owner, Some(sinks[name].moduleId)) in acts
  }

  /** Evidence is only of definitions that were asked for, each under the name of its sink. */
  ghost predicate AskedFor(evidence: map<string, PersistentSink>, asked: set<Mix>) {
    forall name :: name in evidence ==> evidence[name].definition in asked && evidence[name].definition.sink == name
  }

  /** What is unloaded was loaded before, under this name and owner token and with this
      number; what is destroyed is no module and bears a definition that was asked for. */
  predicate Rightful(before: seq<Act>, e: Act, asked: set<Mix>) {
    match e
    case Loaded(_, _, _) => true
    case Unloaded(name, node, _, _) =>
      node.owner.Some? && node.moduleId.Some? && Loaded(name, node.owner.value, node.moduleId) in before
    case Destroyed(name, node, _) =>
      node.moduleId.None? && node.definition.Some? && node.definition.value in asked
        && node.definition.value.sink == name
  }

  ghost predicate OwnHistory(acts: seq<Act>, asked: set<Mix>) {
    forall i :: 0 <= i < |acts| ==> Rightful(acts[..i], acts[i], asked)
  }

  lemma MoreAsked(acts: seq<Act>, asked: set<Mix>, more: set<Mix>)
    requires OwnHistory(acts, asked) && asked <= more
    ensures OwnHistory(acts, more)
  {
    forall i | 0 <= i < |acts|
      ensures Rightful(acts[..i], acts[i], more)
    {
      assert Rightful(acts[..i], acts[i], asked);
    }
  }

  lemma MoreEvidence(
    removed: map<string, PersistentSink>, persistent: map<string, PersistentSink>, gone: map<string, PersistentSink>,
    asked: set<Mix>, more: set<Mix>)
    requires AskedFor(removed, asked) && AskedFor(persistent, asked) && asked <= more && Fewer(gone, persistent)
    ensures AskedFor(removed + gone, more) && AskedFor(persistent, more)
  {}

  lemma HistoryMore(acts: seq<Act>, acts': seq<Act>, asked: set<Mix>)
    requires OwnHistory(acts, asked) && acts <= acts'
    requires forall i :: |acts| <= i < |acts'| ==> Rightful(acts'[..i], acts'[i], asked)
    ensures OwnHistory(acts', asked)
  {
    hide Rightful;
    forall i | 0 <= i < |acts'|
      ensures Rightful(acts'[..i], acts'[i], asked)
    {
      if i < |acts| {
        assert acts'[..i] == acts[..i] && acts'[i] == acts[i];
      }
    }
  }

  /** Providing sinks leaves every handle on record and every evidence asked for. */
  lemma FurnishedLog(
    g: Graph, pulse: set<string>, demands: seq<Demand>, was: Table, now: Table, ready: set<string>, acts: seq<Act>,
    acts': seq<Act>, asked: set<Mix>)
    requires Furnished(g, pulse, demands, was, now, ready, acts, acts')
    requires LoadedHere(acts, was.sinks) && AskedFor(was.persistent, asked) && OwnHistory(acts, asked)
    requires forall d :: d in demands && d.mix.Some? ==> d.mix.value in asked && d.mix.value.sink == d.name
    ensures LoadedHere(acts', now.sinks) && AskedFor(now.persistent, asked) && OwnHistory(acts', asked)
  {
    var w := acts'[|acts|..];
    assert forall i :: |acts| <= i < |acts'| ==> acts'[i] == w[i - |acts|];
    HistoryMore(acts, acts', asked);
    forall name | name in now.sinks
      ensures Loaded(name, now.sinks[name].owner, Some(now.sinks[name].moduleId)) in acts'
    {
      HandleOnRecord(g, pulse, demands, was, now, ready, acts, acts', name);
    }
    forall name | name in now.persistent
      ensures now.persistent[name].definition in asked && now.persistent[name].definition.sink == name
    {
      EvidenceAskedFor(g, pulse, demands, was, now, ready, acts, acts', asked, name);
    }
  }

  lemma HandleOnRecord(
    g: Graph, pulse: set<string>, demands: seq<Demand>, was: Table, now: Table, ready: set<string>, acts: seq<Act>,
    acts': seq<Act>, name: string)
    requires Furnished(g, pulse, demands, was, now, ready, acts, acts') && LoadedHere(acts, was.sinks)
    requires name in now.sinks
    ensures Loaded(name, now.sinks[name].owner, Some(now.sinks[name].moduleId)) in acts'
  {
    var w := acts'[|acts|..];
    hide Usable, LoadedAs, DueNames, LoadsOf, ReadyIs, EvidenceAfter;
    LoadedAsIn(g.cookie, w, name);
    if Named(demands, name) {
      var d :| d in demands && d.name == name;
      assert Met(g, pulse, d, was, now, w);
    } else {
      assert SameAt(was, now, name);
    }
  }

  lemma EvidenceAskedFor(
    g: Graph, pulse: set<string>, demands: seq<Demand>, was: Table, now: Table, ready: set<string>, acts: seq<Act>,
    acts': seq<Act>, asked: set<Mix>, name: string)
    requires Furnished(g, pulse, demands, was, now, ready, acts, acts') && AskedFor(was.persistent, asked)
    requires forall d :: d in demands && d.mix.Some? ==> d.mix.value in asked && d.mix.value.sink == d.name
    requires name in now.persistent
    ensures now.persistent[name].definition in asked && now.persistent[name].definition.sink == name
  {
    hide LoadedAs, DueNames, LoadsOf, ReadyIs, HandleAfter;
    if Named(demands, name) {
      var d :| d in demands && d.name == name;
      assert Met(g, pulse, d, was, now, acts'[|acts|..]);
    } else {
      assert SameAt(was, now, name);
    }
  }

  /** Cleanup takes away only what its log accounts for. */
  lemma CleanedLog(
    acts: seq<Act>, acts': seq<Act>, kept: set<string>, sinks: map<string, OwnedSink>, now: map<string, OwnedSink>,
    removed: map<string, PersistentSink>, asked: set<Mix>)
    requires OnlyOurs(acts', |acts|, kept, sinks, removed) && acts <= acts'
    requires LoadedHere(acts, sinks) && AskedFor(removed, asked) && OwnHistory(acts, asked)
    requires forall name :: name in now ==> name in sinks && now[name] == sinks[name]
    ensures OwnHistory(acts', asked) && LoadedHere(acts', now)
  {
    forall i | |acts| <= i < |acts'|
      ensures Rightful(acts'[..i], acts'[i], asked)
    {
      if OwnUnload(acts'[i], sinks) {
        var handle := sinks[acts'[i].name];
        var k :| 0 <= k < |acts| && acts[k] == Loaded(acts'[i].name, handle.owner, Some(handle.moduleId));
        assert acts'[..i][k] == acts[k];
      }
    }
    HistoryMore(acts, acts', asked);
  }

  /** Everything ready was proven to be ours, in this very observation. */
  lemma ReadyIsProven(
    g: Graph, pulse: set<string>, demands: seq<Demand>, was: Table, now: Table, ready: set<string>, acts: seq<Act>,
    acts': seq<Act>, name: string)
    requires Furnished(g, pulse, demands, was, now, ready, acts, acts') && name in ready
    ensures name in pulse && Proven(g, now, name)
  {
    hide LoadedAs, DueNames, LoadsOf;
    assert Named(demands, name);
    var d :| d in demands && d.name == name;
    assert Usable(g, pulse, was, d) && Met(g, pulse, d, was, now, acts'[|acts|..]);
  }

  /** The sinks once provided: which may be used, and the log up to then. */
  datatype Fit = Fit(ready: set<string>, persistent: map<string, PersistentSink>, acts: seq<Act>)

  /** Every stream and every move is dealt with by the rules. */
  ghost predicate Dealt(claims: seq<Claims>, mixes: set<string>, s: Sight, now: Ledger, moves: seq<Move>, n: nat)
    requires n <= |moves|
  {
    && (forall id :: Conducted(id, claims, KeptNames(claims, mixes), s, now))
    && (forall m :: m in moves[n..] ==> Warranted(m, claims, KeptNames(claims, mixes), s))
  }

  /** Of the sinks there were, those still wanted stay, and others go only once absent; and
      only our own were taken away. */
  ghost predicate Cleaned(
    wanted: set<string>, sinks: map<string, OwnedSink>, now: map<string, OwnedSink>,
    removed: map<string, PersistentSink>, acts: seq<Act>, n: nat, stages: seq<map<string, SinkNode>>, m: nat)
  {
    && OnlyOurs(acts, n, wanted, sinks, removed)
    && Swept(sinks, now, stages, m, {})
    && (forall name :: name in wanted && name in sinks ==> name in now)
  }

  lemma SweptOurs(
    wanted: set<string>, sinks: map<string, OwnedSink>, now: map<string, OwnedSink>,
    removed: map<string, PersistentSink>, acts: seq<Act>, n: nat, stages: seq<map<string, SinkNode>>, m: nat)
    requires OnlyOurs(acts, n, wanted, sinks, removed) && Swept(sinks, now, stages, m, {})
    requires forall name :: name in wanted && name in sinks ==> name in now
    ensures Cleaned(wanted, sinks, now, removed, acts, n, stages, m)
  {}

  lemma NothingCleaned(
    kept: set<string>, sinks: map<string, OwnedSink>, removed: map<string, PersistentSink>, acts: seq<Act>,
    stages: seq<map<string, SinkNode>>)
    ensures forall retained: set<string> ::
      Cleaned(kept + retained, sinks, sinks, removed, acts, |acts|, stages, |stages|)
  {}

  lemma CleanedSince(
    wanted: set<string>, sinks: map<string, OwnedSink>, now: map<string, OwnedSink>,
    removed: map<string, PersistentSink>, acts: seq<Act>, n: nat, stages: seq<map<string, SinkNode>>, m: nat, k: nat)
    requires Cleaned(wanted, sinks, now, removed, acts, n, stages, m) && k <= m
    ensures Cleaned(wanted, sinks, now, removed, acts, n, stages, k)
  {
    SweptSince(sinks, now, stages, m, k, {});
  }

  lemma NothingAsked(acts: seq<Act>, asked: set<Mix>)
    ensures LoadedHere(acts, map[]) && AskedFor(map[], asked)
  {}

  lemma StillAsked(
    removed: map<string, PersistentSink>, removed': map<string, PersistentSink>,
    persistent: map<string, PersistentSink>,
    persistent': map<string, PersistentSink>, asked: set<Mix>)
    requires AskedFor(removed, asked) && AskedFor(persistent, asked)
    requires Fewer(removed', removed) && Fewer(persistent', persistent)
    ensures AskedFor(removed', asked) && AskedFor(persistent', asked)
  {}

  lemma StillAccounted(
    acts: seq<Act>, acts': seq<Act>, kept: set<string>, sinks: map<string, OwnedSink>, sinks': map<string, OwnedSink>,
    removed: map<string, PersistentSink>, removed': map<string, PersistentSink>,
    persistent: map<string, PersistentSink>,
    persistent': map<string, PersistentSink>, stages: seq<map<string, SinkNode>>, n: nat, asked: set<Mix>)
    requires LoadedHere(acts, sinks) && OwnHistory(acts, asked)
    requires AskedFor(removed, asked) && AskedFor(persistent, asked)
    requires OnlyOurs(acts', |acts|, kept, sinks, removed) && acts <= acts' && Fewer(persistent', persistent)
    requires Swept(sinks, sinks', stages, n, {}) && Swept(removed, removed', stages, n, kept)
    ensures LoadedHere(acts', sinks') && OwnHistory(acts', asked)
    ensures AskedFor(removed', asked) && AskedFor(persistent', asked)
  {
    hide LoadedHere, OwnHistory, AskedFor, OnlyOurs, Swept, Fewer;
    SweptFewer(removed, removed', stages, n, kept);
    SweptIs(sinks, sinks', stages, n, {});
    CleanedLog(acts, acts', kept, sinks, sinks', removed, asked);
    StillAsked(removed, removed', persistent, persistent', asked);
  }

  lemma DemandsAsked(mixes: seq<Mix>, orders: seq<Order>, asked: set<Mix>)
    requires forall m :: m in mixes ==> m in asked
    ensures forall d :: d in Demands(mixes, orders) && d.mix.Some? ==>
      d.mix.value in asked && d.mix.value.sink == d.name
  {
    var all := Demands(mixes, orders);
    forall d | d in all && d.mix.Some?
      ensures d.mix.value in asked && d.mix.value.sink == d.name
    {
      var i :| 0 <= i < |all| && all[i] == d;
      assert i < |mixes| && d == Demand(mixes[i].sink, Some(mixes[i]));
    }
  }

  lemma ClaimsAreGood(course: Course, orders: seq<Order>, ready: set<string>, mixes: set<string>)
    requires GoodOrders(orders)
    ensures var claims := ClaimsIn(course, orders, ready);
      && Distinct(ClaimedIds(claims)) && KeptNames(claims, mixes) == mixes + Intakes(orders)
      && (forall c :: c in claims ==> IntakeName(c.intake) && (course.Barred? ==> !c.ready))
  {
    var usable := if course.Barred? then {} else ready;
    SameIds(orders, usable, {});
    ClaimedIntakes(orders, usable, mixes);
    hide ClaimedIds, Distinct, KeptNames, Intakes;
    assert forall k :: 0 <= k < |orders| ==>
      ClaimsOf(orders, usable)[k] == Claims(orders[k].intake, orders[k].intake in usable, orders[k].ids);
  }

  // ---------------------------------------------------------------- runs of passes

  /** New mixes, if they changed, and then a pass. */
  datatype Round = Round(mixes: Option<seq<Mix>>, pulse: set<string>, orders: seq<Order>, course: Course)

  /** An intake is used exactly when the observation proves it to be ours. */
  ghost predicate Grounded(r: Round, t: Turn) {
    && |t.claims| == |r.orders|
    && forall k :: 0 <= k < |r.orders| ==>
         && t.claims[k].intake == r.orders[k].intake && t.claims[k].ids == r.orders[k].ids
         && (t.claims[k].ready <==>
               t.sight.Some? && !r.course.Barred? && t.claims[k].intake in r.pulse
               && OurModule(t.sight.value.graph, t.sight.value.sinks, t.claims[k].intake))
  }

  lemma IntakeGrounded(
    g: Graph, pulse: set<string>, mixes: seq<Mix>, orders: seq<Order>, k: nat, was: Table, now: Table,
    ready: set<string>, acts: seq<Act>, acts': seq<Act>)
    requires k < |orders| && Furnished(g, pulse, Demands(mixes, orders), was, now, ready, acts, acts')
    ensures orders[k].intake in ready <==> orders[k].intake in pulse && OurModule(g, now.sinks, orders[k].intake)
  {
    var d := Demand(orders[k].intake, None);
    assert Demands(mixes, orders)[|mixes| + k] == d;
    assert d in Demands(mixes, orders);
    hide LoadedAs, DueNames, LoadsOf, Named;
    assert Met(g, pulse, d, was, now, acts'[|acts|..]);
  }

  lemma RoundGrounded(
    r: Round, t: Turn, mixes: seq<Mix>, was: Table, fit: Fit, acts: seq<Act>)
    requires t.claims == ClaimsIn(r.course, r.orders, fit.ready) && (t.sight.None? ==> fit.ready == {})
    requires t.sight.Some? ==>
      Furnished(t.sight.value.graph, r.pulse, Demands(mixes, Reached(r.course, r.orders)), was,
        Table(t.sight.value.sinks, fit.persistent), fit.ready, acts, fit.acts)
    ensures Grounded(r, t)
  {
    hide Furnished, OurModule;
    if t.sight.Some? && !r.course.Barred? {
      forall k | 0 <= k < |r.orders|
        ensures t.claims[k].ready <==>
          t.claims[k].intake in r.pulse && OurModule(t.sight.value.graph, t.sight.value.sinks, t.claims[k].intake)
      {
        IntakeGrounded(t.sight.value.graph, r.pulse, mixes, r.orders, k, was,
          Table(t.sight.value.sinks, fit.persistent), fit.ready, acts, fit.acts);
      }
    }
  }
}
