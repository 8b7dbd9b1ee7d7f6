/** Recovery remedies and the restoration they owe (runtime recovery.rs): the obligation
    is on record before the remedy is attempted, and only its own target discharges it. */
module Recovery {
  import opened Wrappers
  import opened Model
  import opened Strings

  // ---------------------------------------------------------------- what the tools print

  datatype GraphObject = GraphObject(name: string, serial: Option<string>)

  datatype HealthGraph = HealthGraph(cookie: Option<nat>, nodes: seq<GraphObject>, devices: seq<GraphObject>)

  datatype PulseNode = PulseNode(name: Option<string>, serial: Option<string>, card: Option<string>)

  datatype PulseCard = PulseCard(name: Option<string>, index: Option<string>, profile: Option<string>)

  function Named(objects: seq<GraphObject>, name: string): seq<GraphObject> {
    if objects == [] then []
    else (if objects[0].name == name then [objects[0]] else []) + Named(objects[1..], name)
  }

  /** The runtime identity of the only object of that name. */
  function GraphIdentity(cookie: Option<nat>, objects: seq<GraphObject>, name: string): Result<NodeIdentity> {
    var found := Named(objects, name);
    if cookie.None? || |found| != 1 || found[0].serial.None? then Err(Identity)
    else Ok(NodeIdentity(cookie.value, found[0].serial.value))
  }

  function Keyed<T>(entries: seq<T>, key: T -> Option<string>, value: string): seq<T> {
    if entries == [] then []
    else (if key(entries[0]) == Some(value) then [entries[0]] else []) + Keyed(entries[1..], key, value)
  }

  function Unique<T>(entries: seq<T>, key: T -> Option<string>, value: string): Result<T> {
    var found := Keyed(entries, key, value);
    if |found| == 1 then Ok(found[0]) else Err(Identity)
  }

  // ---------------------------------------------------------------- obligations and events

  datatype CardTarget = CardTarget(name: string, index: string, identity: NodeIdentity, profile: string)

  datatype Obligation = Card(target: CardTarget) | Sink(name: string, identity: NodeIdentity)

  function TargetIdentity(o: Obligation): NodeIdentity {
    match o
    case Card(t) => t.identity
    case Sink(_, id) => id
  }

  /** What the tools last printed. */
  datatype Sight = Sight(graph: Option<HealthGraph>, cards: Option<seq<PulseCard>>, nodes: Option<seq<PulseNode>>)

  /** The check a remedy is for: the name and node checked, and when. */
  datatype Cause = Cause(name: string, identity: NodeIdentity, at: nat)

  /** A command with effect: a remedy, with what was on record when it was issued, the check
      it was issued for and what the tools showed then, or a restoration, with the identity
      that an observation had just shown for its target. */
  datatype Event =
    | Remedy(target: Obligation, onRecord: Option<Obligation>, cause: Cause, sight: Sight)
    | Restore(target: Obligation, seen: NodeIdentity, ok: bool)

  /** The targets a remedy may still be applied to: issued, whatever it reported, and not
      successfully restored since. */
  function Disturbed(trace: seq<Event>): set<Obligation> {
    if trace == [] then {}
    else
      var before := Disturbed(trace[..|trace| - 1]);
      match trace[|trace| - 1]
      case Remedy(o, _, _, _) => before + {o}
      case Restore(o, _, ok) => if ok then before - {o} else before
  }

  /** The times of the card cycles, or of the sink suspensions, issued for this name. */
  function Remedies(trace: seq<Event>, cards: bool, name: string): seq<nat> {
    if trace == [] then []
    else
      var e, before := trace[|trace| - 1], Remedies(trace[..|trace| - 1], cards, name);
      if e.Remedy? && e.target.Card? == cards && e.cause.name == name then before + [e.cause.at] else before
  }

  ghost predicate NoRemedy(was: seq<Event>, now: seq<Event>) {
    forall cards, n :: Remedies(now, cards, n) == Remedies(was, cards, n)
  }

  /** One remedy was issued: this one. */
  ghost predicate OneRemedy(was: seq<Event>, now: seq<Event>, cards: bool, name: string, at: nat) {
    forall c, n :: Remedies(now, c, n) ==
      if c == cards && n == name then Remedies(was, cards, name) + [at] else Remedies(was, c, n)
  }

  lemma RemediesExtend(trace: seq<Event>, e: Event)
    ensures e.Restore? ==> NoRemedy(trace, trace + [e])
    ensures e.Remedy? ==> OneRemedy(trace, trace + [e], e.target.Card?, e.cause.name, e.cause.at)
  {
    assert (trace + [e])[..|trace|] == trace;
  }

  /** The tools show the node checked under its name, in both graphs; and the target is that
      very sink, or the card that the node names. */
  predicate TargetFor(o: Obligation, name: string, identity: NodeIdentity, sight: Sight) {
    && sight.graph.Some? && GraphIdentity(sight.graph.value.cookie, sight.graph.value.nodes, name) == Ok(identity)
    && sight.nodes.Some? && SinkSerial(sight.nodes.value, name, identity.serial)
    && match o
       case Sink(sink, id) => sink == name && id == identity
       case Card(t) =>
         && Unique(sight.nodes.value, (n: PulseNode) => n.name, name).value.card == Some(t.index)
         && sight.cards.Some? && Unique(sight.cards.value, (c: PulseCard) => c.index, t.index).Ok?
         && Unique(sight.cards.value, (c: PulseCard) => c.index, t.index).value.name == Some(t.name)
         && Unique(sight.cards.value, (c: PulseCard) => c.index, t.index).value.profile == Some(t.profile)
         && GraphIdentity(sight.graph.value.cookie, sight.graph.value.devices, t.name) == Ok(t.identity)
  }

  /** A remedy is issued only with itself on record and nothing else disturbed, for the node
      checked, and a restoration only to the identity that was disturbed. */
  predicate Proper(trace: seq<Event>, i: nat)
    requires i < |trace|
  {
    match trace[i]
    case Remedy(o, onRecord, cause, sight) =>
      onRecord == Some(o) && Disturbed(trace[..i]) == {} && TargetFor(o, cause.name, cause.identity, sight)
    case Restore(o, seen, _) => seen == TargetIdentity(o) && Disturbed(trace[..i]) <= {o}
  }

  ghost predicate Disciplined(trace: seq<Event>) {
    forall i :: 0 <= i < |trace| ==> Proper(trace, i)
  }

  lemma DisciplinedExtend(trace: seq<Event>, e: Event)
    requires Disciplined(trace) && Proper(trace + [e], |trace|)
    ensures Disciplined(trace + [e])
  {
    var after := trace + [e];
    forall i | 0 <= i < |after|
      ensures Proper(after, i)
    {
      if i < |trace| {
        assert Proper(trace, i) && after[..i] == trace[..i];
      }
    }
  }

  /** At every instant of a disciplined run at most one target is disturbed. */
  lemma OneDisturbed(trace: seq<Event>, n: nat)
    requires Disciplined(trace) && n <= |trace|
    ensures exists o :: Disturbed(trace[..n]) <= {o}
  {
    if n == 0 {
      var o: Obligation :| true;
      assert Disturbed(trace[..0]) <= {o};
    } else {
      assert Proper(trace, n - 1) && trace[..n][..n - 1] == trace[..n - 1];
      assert Disturbed(trace[..n]) <= {trace[n - 1].target};
    }
  }

  /** The tools: every observation is arbitrary and may fail, every command may fail and
      may have applied all the same. What the last observations showed is remembered, and
      a command may only be sent to a target that they show. */
  class Host {
    ghost var trace: seq<Event>
    ghost var graph: Option<HealthGraph>
    ghost var cards: Option<seq<PulseCard>>
    ghost var nodes: Option<seq<PulseNode>>
    ghost var cancels: nat  // how often work was found cancelled

    constructor ()
      ensures trace == []
    {
      trace, graph, cards, nodes, cancels := [], None, None, None, 0;
    }

    ghost predicate Shows(o: Obligation)
      reads this
    {
      match o
      case Card(t) =>
        && graph.Some? && GraphIdentity(graph.value.cookie, graph.value.devices, t.name) == Ok(t.identity)
        && cards.Some? && CardIndexed(cards.value, t.name, t.index)
      case Sink(name, identity) =>
        && graph.Some? && GraphIdentity(graph.value.cookie, graph.value.nodes, name) == Ok(identity)
        && nodes.Some? && SinkSerial(nodes.value, name, identity.serial)
    }

    ghost function Now(): Sight
      reads this
    {
      Sight(graph, cards, nodes)
    }

    method Cancelled() returns (c: bool)
      modifies this`cancels
      ensures cancels == if c then old(cancels) + 1 else old(cancels)
    {
      c := *;
      cancels := if c then cancels + 1 else cancels;
    }

    method Graph() returns (g: Result<HealthGraph>)
      modifies this`graph
      ensures graph == if g.Ok? then Some(g.value) else None
    {
      g := *;
      graph := if g.Ok? then Some(g.value) else None;
    }

    method Cards() returns (c: Result<seq<PulseCard>>)
      modifies this`cards
      ensures cards == if c.Ok? then Some(c.value) else None
    {
      c := *;
      cards := if c.Ok? then Some(c.value) else None;
    }

    /** The listing of sources or of sinks. */
    method PulseNodes() returns (n: Result<seq<PulseNode>>)
      modifies this`nodes
      ensures nodes == if n.Ok? then Some(n.value) else None
    {
      n := *;
      nodes := if n.Ok? then Some(n.value) else None;
    }

    /** `set-card-profile off` or `suspend-sink 1`. */
    method Apply(target: Obligation, onRecord: Option<Obligation>, ghost cause: Cause) returns (ok: bool)
      requires Shows(target)
      modifies this`trace
      ensures trace == old(trace) + [Remedy(target, onRecord, cause, Now())]
    {
      ok := *;
      trace := trace + [Remedy(target, onRecord, cause, Now())];
    }

    /** `set-card-profile <profile>` or `suspend-sink 0`, never cancelled. */
    method Repay(target: Obligation, seen: NodeIdentity) returns (ok: bool)
      requires Shows(target) && seen == TargetIdentity(target)
      modifies this`trace
      ensures trace == old(trace) + [Restore(target, seen, ok)]
    {
      ok := *;
      trace := trace + [Restore(target, seen, ok)];
    }
  }

  predicate CardIndexed(cards: seq<PulseCard>, name: string, index: string) {
    var card := Unique(cards, (c: PulseCard) => c.name, name);
    card.Ok? && card.value.index == Some(index)
  }

  predicate SinkSerial(nodes: seq<PulseNode>, name: string, serial: string) {
    var node := Unique(nodes, (n: PulseNode) => n.name, name);
    node.Ok? && node.value.serial == Some(serial)
  }

  lemma {:induction false} KeyedIs<T>(entries: seq<T>, key: T -> Option<string>, value: string, e: T)
    ensures e in Keyed(entries, key, value) <==> e in entries && key(e) == Some(value)
  {
    if entries != [] {
      KeyedIs(entries[1..], key, value, e);
    }
  }

  /** The only card of an index, under a name that is unique, is the card of that name. */
  lemma SameCard(cards: seq<PulseCard>, index: string, name: string)
    requires var card := Unique(cards, (c: PulseCard) => c.index, index);
      card.Ok? && card.value.name == Some(name)
    requires Unique(cards, (c: PulseCard) => c.name, name).Ok?
    ensures CardIndexed(cards, name, index)
  {
    var card := Unique(cards, (c: PulseCard) => c.index, index).value;
    assert card in Keyed(cards, (c: PulseCard) => c.index, index);
    KeyedIs(cards, (c: PulseCard) => c.index, index, card);
    KeyedIs(cards, (c: PulseCard) => c.name, name, card);
  }

  /** The graph shows this very node under this name. */
  method ValidateNode(host: Host, name: string, identity: NodeIdentity) returns (r: Result<HealthGraph>)
    modifies host`graph
    ensures r.Ok? ==> host.graph == Some(r.value) && GraphIdentity(r.value.cookie, r.value.nodes, name) == Ok(identity)
  {
    var graph := host.Graph();
    if graph.Err? {
      return Err(graph.code);
    }
    r := if GraphIdentity(graph.value.cookie, graph.value.nodes, name) == Ok(identity) then graph else Err(Identity);
  }

  method ValidateSink(host: Host, name: string, identity: NodeIdentity) returns (r: Result<NodeIdentity>)
    modifies host`graph, host`nodes
    ensures r.Ok? ==> r.value == identity && host.Shows(Sink(name, identity))
    ensures r.Ok? ==> TargetFor(Sink(name, identity), name, identity, host.Now())
  {
    var graph := ValidateNode(host, name, identity);
    if graph.Err? {
      return Err(graph.code);
    }
    var sinks := host.PulseNodes();
    if sinks.Err? {
      return Err(sinks.code);
    }
    r := if SinkSerial(sinks.value, name, identity.serial) then Ok(identity) else Err(Identity);
  }

  /** The card behind a node: the node as both graphs show it, the card it names, and that
      card's own identity and profile. */
  method ResolveCard(host: Host, name: string, identity: NodeIdentity) returns (r: Result<CardTarget>)
    modifies host`graph, host`nodes, host`cards
    ensures r.Ok? ==> StartsWith(name, "alsa_input.") || StartsWith(name, "alsa_output.")
    ensures r.Ok? ==> r.value.profile != "" && r.value.profile != "off"
    ensures r.Ok? ==> host.Shows(Card(r.value))
    ensures r.Ok? ==> TargetFor(Card(r.value), name, identity, host.Now())
  {
    if !StartsWith(name, "alsa_input.") && !StartsWith(name, "alsa_output.") {
      return Err(Identity);
    }
    var graph := ValidateNode(host, name, identity);
    if graph.Err? {
      return Err(graph.code);
    }
    var nodes := host.PulseNodes();
    if nodes.Err? {
      return Err(nodes.code);
    }
    var node := Unique(nodes.value, (n: PulseNode) => n.name, name);
    if node.Err? || node.value.serial != Some(identity.serial) || node.value.card.None? {
      return Err(Identity);
    }
    var index := node.value.card.value;
    var cards := host.Cards();
    if cards.Err? {
      return Err(cards.code);
    }
    var card := Unique(cards.value, (c: PulseCard) => c.index, index);
    if card.Err? || card.value.name.None? || card.value.name.value == "" {
      return Err(Identity);
    }
    var cardName := card.value.name.value;
    if Unique(cards.value, (c: PulseCard) => c.name, cardName).Err? {
      return Err(Identity);
    }
    if card.value.profile.None? || card.value.profile.value in {"", "off"} {
      return Err(Unavailable);
    }
    var cardIdentity := GraphIdentity(graph.value.cookie, graph.value.devices, cardName);
    if cardIdentity.Err? {
      return Err(Identity);
    }
    SameCard(cards.value, index, cardName);
    r := Ok(CardTarget(cardName, index, cardIdentity.value, card.value.profile.value));
  }

  class Restoration {
    var pending: Option<Obligation>

    constructor ()
      ensures pending == None
    {
      pending := None;
    }

    /** Whatever a remedy may have disturbed is exactly what is on record. */
    ghost predicate Answers(host: Host)
      reads this, host`trace
    {
      Disciplined(host.trace) && forall o :: o in Disturbed(host.trace) ==> pending == Some(o)
    }

    /** Tries to discharge the obligation. Only the recorded identity, seen just now, may. */
    method RestoreWith(host: Host) returns (r: Result<()>)
      requires Answers(host)
      modifies this, host
      ensures Answers(host) && host.cancels == old(host.cancels) && NoRemedy(old(host.trace), host.trace)
      ensures r.Ok? <==> pending == None
      ensures r.Err? ==> pending == old(pending)
      ensures r.Ok? ==> Disturbed(host.trace) == {}
      ensures r.Ok? && old(pending).Some? ==>
        host.trace == old(host.trace) + [Restore(old(pending).value, TargetIdentity(old(pending).value), true)]
      ensures r.Err? && host.trace != old(host.trace) ==>
        host.trace == old(host.trace) + [Restore(old(pending).value, TargetIdentity(old(pending).value), false)]
    {
      if pending.None? {
        return Ok(());
      }
      var owed := pending.value;
      var seen: NodeIdentity;
      match owed {
        case Card(target) =>
          var graph := host.Graph();
          if graph.Err? {
            return Err(Unavailable);
          }
          var identity := GraphIdentity(graph.value.cookie, graph.value.devices, target.name);
          if identity != Ok(target.identity) {
            return Err(Unavailable);
          }
          var cards := host.Cards();
          if cards.Err? {
            return Err(Unavailable);
          }
          if !CardIndexed(cards.value, target.name, target.index) {
            return Err(Unavailable);
          }
          seen := identity.value;
        case Sink(name, identity) =>
          var valid := ValidateSink(host, name, identity);
          if valid.Err? {
            return Err(Unavailable);
          }
          seen := valid.value;
      }
      ghost var trace := host.trace;
      var ok := host.Repay(owed, seen);
      assert host.trace[..|trace|] == trace;
      DisciplinedExtend(trace, Restore(owed, seen, ok));
      RemediesExtend(trace, Restore(owed, seen, ok));
      if !ok {
        return Err(Unavailable);
      }
      pending := None;
      r := Ok(());
    }

    /** Puts the remedy on record, issues it, and restores whatever it did. */
    method Undertake(host: Host, target: Obligation, ghost cause: Cause) returns (r: Result<()>)
      requires Answers(host) && pending == None && host.Shows(target)
      requires TargetFor(target, cause.name, cause.identity, host.Now())
      modifies this, host
      ensures Answers(host) && (r.Ok? ==> pending == None) && pending in {None, Some(target)}
      ensures Undertaken(old(host.trace), host.trace, target, cause)
      ensures r.Ok? ==> RemedyAndRestored(old(host.trace), host.trace, target, cause)
      ensures host.cancels == old(host.cancels)
      ensures OneRemedy(old(host.trace), host.trace, target.Card?, cause.name, cause.at)
    {
      hide TargetFor;
      pending := Some(target);
      ghost var trace, e := host.trace, Remedy(target, Some(target), cause, host.Now());
      var changed := host.Apply(target, pending, cause);
      assert host.trace[..|trace|] == trace;
      DisciplinedExtend(trace, e);
      RemediesExtend(trace, e);
      var restored := RestoreWith(host);
      r := if changed && restored.Ok? then Ok(()) else Err(Unavailable);
    }

    /** The remedy was issued for this check, with itself on record, and after it at most its
        own restoration. */
    static predicate Undertaken(before: seq<Event>, after: seq<Event>, target: Obligation, cause: Cause) {
      var n := |before|;
      && n < |after| <= n + 2 && after[..n] == before
      && after[n].Remedy? && after[n].target == target && after[n].onRecord == Some(target) && after[n].cause == cause
      && (n + 1 < |after| ==> after[n + 1].Restore? && after[n + 1].target == target)
    }

    /** The remedy was issued and then restored, and nothing else was done. */
    static predicate RemedyAndRestored(before: seq<Event>, after: seq<Event>, target: Obligation, cause: Cause) {
      Undertaken(before, after, target, cause)
      && after[|before| + 1..] == [Restore(target, TargetIdentity(target), true)]
    }

    /** Nothing was done, or the card cycle (or sink suspension) for this check alone. */
    static ghost predicate ForCheck(before: seq<Event>, after: seq<Event>, cards: bool, cause: Cause) {
      after == before || exists t: Obligation :: t.Card? == cards && Undertaken(before, after, t, cause)
    }

    method CycleCardWith(host: Host, name: string, identity: NodeIdentity, ghost at: nat) returns (r: Result<()>)
      requires Answers(host)
      modifies this, host
      ensures Answers(host) && host.cancels >= old(host.cancels)
      ensures ForCheck(old(host.trace), host.trace, true, Cause(name, identity, at))
      ensures NoRemedy(old(host.trace), host.trace) || OneRemedy(old(host.trace), host.trace, true, name, at)
      ensures old(pending).Some? ==> r.Err? && pending == old(pending) && host.trace == old(host.trace)
      ensures r.Ok? ==> pending == None && OneRemedy(old(host.trace), host.trace, true, name, at)
      ensures r.Ok? ==> exists t :: RemedyAndRestored(old(host.trace), host.trace, Card(t), Cause(name, identity, at))
    {
      if pending.Some? {
        return Err(Unavailable);
      }
      var cancelled := host.Cancelled();
      if cancelled {
        return Err(Cancelled);
      }
      var first := ResolveCard(host, name, identity);
      if first.Err? {
        return Err(first.code);
      }
      // The mapping may change while it is collected: a replaced target is never switched.
      var second := ResolveCard(host, name, identity);
      if second.Err? {
        return Err(second.code);
      }
      if second != first {
        return Err(Identity);
      }
      cancelled := host.Cancelled();
      if cancelled {
        return Err(Cancelled);
      }
      r := Undertake(host, Card(first.value), Cause(name, identity, at));
    }

    method RecycleSinkWith(host: Host, name: string, identity: NodeIdentity, ghost at: nat) returns (r: Result<()>)
      requires Answers(host)
      modifies this, host
      ensures Answers(host) && host.cancels >= old(host.cancels)
      ensures ForCheck(old(host.trace), host.trace, false, Cause(name, identity, at))
      ensures NoRemedy(old(host.trace), host.trace) || OneRemedy(old(host.trace), host.trace, false, name, at)
      ensures old(pending).Some? ==> r.Err? && pending == old(pending) && host.trace == old(host.trace)
      ensures r.Ok? ==> pending == None && OneRemedy(old(host.trace), host.trace, false, name, at)
      ensures r.Ok? ==> RemedyAndRestored(old(host.trace), host.trace, Sink(name, identity), Cause(name, identity, at))
      ensures host.trace != old(host.trace) ==>
        && StartsWith(name, "alsa_output.")
        && Undertaken(old(host.trace), host.trace, Sink(name, identity), Cause(name, identity, at))
    {
      if pending.Some? {
        return Err(Unavailable);
      }
      if !StartsWith(name, "alsa_output.") {
        return Err(Identity);
      }
      var cancelled := host.Cancelled();
      if cancelled {
        return Err(Cancelled);
      }
      var valid := ValidateSink(host, name, identity);
      if valid.Err? {
        return Err(valid.code);
      }
      cancelled := host.Cancelled();
      if cancelled {
        return Err(Cancelled);
      }
      r := Undertake(host, Sink(name, identity), Cause(name, identity, at));
    }
  }
}
