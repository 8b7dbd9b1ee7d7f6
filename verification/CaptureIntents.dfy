/** Capture-mute intents (mixer.rs), shared under one mutex between the callers of
    `Mixer` and its worker. Each method section that holds the lock is one atomic step;
    wherever the lock is free, `Interfere` lets other threads take any steps. */
module CaptureIntents {
  import opened Wrappers
  import opened Model

  datatype Binding = Binding(epoch: nat, owners: seq<string>)

  predicate SameBinding(a: Binding, b: Binding) {
    a.epoch == b.epoch && |a.owners| == |b.owners| && forall o :: o in a.owners ==> o in b.owners
  }

  datatype Request = Request(binding: Binding, muted: bool, written: Option<NodeIdentity>)

  // Mute is None while it is not known.
  datatype Capture = Capture(nodeName: string, identity: NodeIdentity, muted: Option<bool>)

  function OwnersOf(d: Desired, name: string): set<string> {
    set s | s in d.sources.at && d.sources.at[s].kind == Device && d.sources.at[s].nodeName == name
  }

  /** A binding names exactly the device sources of its capture. */
  predicate Binds(d: Desired, name: string, b: Binding) {
    var owners := OwnersOf(d, name);
    owners != {} && |owners| == |b.owners| && forall o :: o in owners ==> o in b.owners
  }

  predicate Current(bindings: map<string, Binding>, name: string, b: Binding) {
    name in bindings && SameBinding(bindings[name], b)
  }

  function Named(captures: seq<Capture>, name: string): seq<Capture> {
    if captures == [] then []
    else (if captures[0].nodeName == name then [captures[0]] else []) + Named(captures[1..], name)
  }

  // ---------------------------------------------------------------- evidence

  /** A mute command sent to one capture. */
  datatype Command = Command(name: string, identity: NodeIdentity, muted: bool)

  /** What has happened, in order. */
  datatype Entry =
    | Made(name: string, binding: Binding, muted: bool)  // an intent was accepted
    | Bound(bindings: map<string, Binding>)              // a desired state was accepted
    | Halted                                             // the mixer was stopped
    | Sent(command: Command, ok: bool)                   // a command was over, and reported this
    | Observed(captures: seq<Capture>)                   // a snapshot was taken

  /** A command for the value of an intent that succeeded, and a snapshot that shows the
      value on the very capture it was sent to. */
  predicate Confirms(made: Entry, sent: Entry, seen: Entry)
    requires made.Made?
  {
    && sent.Sent? && sent.ok && sent.command.name == made.name && sent.command.muted == made.muted
    && seen.Observed?
    && Named(seen.captures, made.name) == [Capture(made.name, sent.command.identity, Some(made.muted))]
  }

  ghost predicate Confirmed(log: seq<Entry>, i: nat, j: nat)
    requires i < j < |log| && log[i].Made?
  {
    exists k :: 0 <= k < j && Confirms(log[i], log[k], log[j])
  }

  /** The reasons for the intent made at `i` to go, in what happened at `j`: a newer intent
      of that name, a desired state without its binding, the stop, or a confirmation. */
  ghost predicate Ends(log: seq<Entry>, i: nat, j: nat)
    requires i < j < |log| && log[i].Made?
  {
    match log[j]
    case Made(name, _, _) => name == log[i].name
    case Bound(bindings) => !Current(bindings, log[i].name, log[i].binding)
    case Halted => true
    case Observed(_) => Confirmed(log, i, j)
    case Sent(_, _) => false
  }

  ghost predicate Ended(log: seq<Entry>, i: nat)
    requires i < |log| && log[i].Made?
  {
    exists j :: i < j < |log| && Ends(log, i, j)
  }

  /** The commands in a log, in order. */
  function Sends(log: seq<Entry>): seq<Command> {
    if log == [] then []
    else
      var e, before := log[|log| - 1], Sends(log[..|log| - 1]);
      if e.Sent? then before + [e.command] else before
  }

  /** An observation as published, with the intents outstanding at that instant. */
  datatype Published = Published(captures: seq<Capture>, outstanding: set<string>)

  predicate Masked(p: Published) {
    forall c :: c in p.captures && c.nodeName in p.outstanding ==> c.muted == None
  }

  /** The history behind the map of intents: everything that happened, where in it each
      outstanding intent was made, and the command that proves it written. */
  datatype Books = Books(log: seq<Entry>, born: map<string, nat>, proof: map<string, nat>)

  ghost predicate Outstanding(requests: map<string, Request>, k: Books, i: nat)
    requires i < |k.log| && k.log[i].Made?
  {
    k.log[i].name in requests && k.log[i].name in k.born && k.born[k.log[i].name] == i
  }

  /** The intent was made, and a command of its value to this capture succeeded, before `t`. */
  ghost predicate Proven(k: Books, n: string, r: Request, t: nat) {
    r.written.Some? ==>
      && n in k.born && k.born[n] < t
      && n in k.proof && k.proof[n] < t && k.proof[n] < |k.log|
      && k.log[k.proof[n]] == Sent(Command(n, r.written.value, r.muted), true)
  }

  ghost predicate Recorded(k: Books, n: string, r: Request) {
    n in k.born && k.born[n] < |k.log| && k.log[k.born[n]] == Made(n, r.binding, r.muted)
  }

  /** Every intent ever made is outstanding, or something happened that ends it. */
  ghost predicate Accounted(requests: map<string, Request>, k: Books) {
    && (forall n :: n in requests ==> Recorded(k, n, requests[n]) && Proven(k, n, requests[n], |k.log|))
    && (forall i :: 0 <= i < |k.log| && k.log[i].Made? ==> Outstanding(requests, k, i) || Ended(k.log, i))
  }

  lemma EndedStill(log: seq<Entry>, e: Entry, i: nat)
    requires i < |log| && log[i].Made? && Ended(log, i)
    ensures Ended(log + [e], i)
  {
    var j :| i < j < |log| && Ends(log, i, j);
    var more := log + [e];
    if log[j].Observed? {
      var k :| 0 <= k < j && Confirms(log[i], log[k], log[j]);
      assert Confirms(more[i], more[k], more[j]);
    }
    assert Ends(more, i, j);
  }

  // Something else happened.
  lemma GrowStep(requests: map<string, Request>, k: Books, e: Entry)
    requires Accounted(requests, k) && !e.Made?
    ensures Accounted(requests, k.(log := k.log + [e]))
    ensures Undisturbed(requests, requests, k, k.(log := k.log + [e]))
    ensures !e.Sent? ==> Sends(k.log + [e]) == Sends(k.log)
    ensures e.Sent? ==> Sends(k.log + [e]) == Sends(k.log) + [e.command]
  {
    var k' := k.(log := k.log + [e]);
    assert k'.log[..|k.log|] == k.log;
    hide Confirms, Current, Ended, Ends;
    forall n | n in requests
      ensures Recorded(k', n, requests[n]) && Proven(k', n, requests[n], |k'.log|)
      ensures requests[n].written.Some? ==> SameHistory(k, k', n)
    {
      assert Recorded(k, n, requests[n]) && Proven(k, n, requests[n], |k.log|);
    }
    forall i | 0 <= i < |k'.log| && k'.log[i].Made?
      ensures Outstanding(requests, k', i) || Ended(k'.log, i)
    {
      assert Outstanding(requests, k, i) || Ended(k.log, i);
      if Ended(k.log, i) {
        EndedStill(k.log, e, i);
      }
    }
  }

  // Intents leave, each for something that happened.
  lemma LeaveStep(was: map<string, Request>, now: map<string, Request>, k: Books)
    requires Accounted(was, k)
    requires forall n :: n in now ==> n in was && now[n] == was[n]
    requires forall n :: n in was && n !in now ==> Recorded(k, n, was[n]) && Ended(k.log, k.born[n])
    ensures Accounted(now, k)
  {
    hide Ended;
    forall i | 0 <= i < |k.log| && k.log[i].Made?
      ensures Outstanding(now, k, i) || Ended(k.log, i)
    {
      assert Outstanding(was, k, i) || Ended(k.log, i);
    }
  }

  // Intents whose binding a new desired state drops are over.
  lemma Unbound(was: map<string, Request>, k: Books, bindings: map<string, Binding>)
    requires Accounted(was, k)
    ensures var k' := k.(log := k.log + [Bound(bindings)]);
      forall n :: n in was && !Current(bindings, n, was[n].binding) ==>
        Recorded(k', n, was[n]) && Ended(k'.log, k'.born[n])
  {
    var k' := k.(log := k.log + [Bound(bindings)]);
    AllProven(was, k);
    hide Current, Accounted;
    forall n | n in was && !Current(bindings, n, was[n].binding)
      ensures Recorded(k', n, was[n]) && Ended(k'.log, k'.born[n])
    {
      assert Recorded(k, n, was[n]) && Ends(k'.log, k'.born[n], |k.log|);
    }
  }

  lemma FewerUndisturbed(was: map<string, Request>, now: map<string, Request>, k: Books, k': Books)
    requires Undisturbed(was, was, k, k') && forall n :: n in now ==> n in was && now[n] == was[n]
    ensures Undisturbed(was, now, k, k')
  {}

  // A new intent takes the place of what stood under its name.
  lemma MakeStep(was: map<string, Request>, now: map<string, Request>, k: Books, k': Books, name: string, r: Request)
    requires Accounted(was, k) && now == was[name := r] && r.written.None?
    requires k' == k.(log := k.log + [Made(name, r.binding, r.muted)], born := k.born[name := |k.log|])
    ensures Accounted(now, k') && Sends(k'.log) == Sends(k.log)
  {
    assert k'.log[..|k.log|] == k.log;
    forall i | 0 <= i < |k'.log| && k'.log[i].Made?
      ensures Outstanding(now, k', i) || Ended(k'.log, i)
    {
      if i < |k.log| {
        assert Outstanding(was, k, i) || Ended(k.log, i);
        if Ended(k.log, i) {
          EndedStill(k.log, k'.log[|k.log|], i);
        } else if k.log[i].name == name {
          assert Ends(k'.log, i, |k.log|);
        }
      }
    }
    hide Ended;
    forall n | n in now
      ensures Recorded(k', n, now[n]) && Proven(k', n, now[n], |k'.log|)
    {
      if n != name {
        assert Recorded(k, n, was[n]) && Proven(k, n, was[n], |k.log|);
      }
    }
  }

  // The worker marks an intent written, on the strength of a command that succeeded.
  lemma MarkStep(was: map<string, Request>, now: map<string, Request>, k: Books, k': Books, name: string,
      id: NodeIdentity, sent: nat)
    requires Accounted(was, k) && name in was && now == was[name := was[name].(written := Some(id))]
    requires sent < |k.log| && k.log[sent] == Sent(Command(name, id, was[name].muted), true)
    requires k' == k.(proof := k.proof[name := sent])
    ensures Accounted(now, k')
  {
    hide Ended;
    forall i | 0 <= i < |k.log| && k.log[i].Made?
      ensures Outstanding(now, k', i) || Ended(k.log, i)
    {
      assert Outstanding(was, k, i) || Ended(k.log, i);
    }
    forall n | n in now
      ensures Recorded(k', n, now[n]) && Proven(k', n, now[n], |k'.log|)
    {
      assert Recorded(k, n, was[n]) && Proven(k, n, was[n], |k.log|);
    }
  }

  /** Other threads cannot mark an intent written: one that is marked is the one it was. */
  ghost predicate Undisturbed(was: map<string, Request>, now: map<string, Request>, k: Books, k': Books) {
    k.log <= k'.log && forall n :: n in now && now[n].written.Some? ==>
      n in was && was[n] == now[n] && SameHistory(k, k', n)
  }

  ghost predicate SameHistory(k: Books, k': Books, n: string) {
    n in k.born && n in k'.born && k.born[n] == k'.born[n] && n in k.proof && n in k'.proof && k.proof[n] == k'.proof[n]
  }

  lemma UndisturbedTrans(
    a: map<string, Request>, b: map<string, Request>, c: map<string, Request>, k0: Books, k1: Books, k2: Books)
    requires Undisturbed(a, b, k0, k1) && Undisturbed(b, c, k1, k2)
    ensures Undisturbed(a, c, k0, k2) && k1.log <= k2.log
  {}

  lemma AllProven(requests: map<string, Request>, k: Books)
    requires Accounted(requests, k)
    ensures Undisturbed(requests, requests, k, k)
    ensures forall n :: n in requests ==> Recorded(k, n, requests[n]) && Proven(k, n, requests[n], |k.log|)
  {
    hide Ended;
    forall n | n in requests && requests[n].written.Some?
      ensures SameHistory(k, k, n)
    {
      assert Proven(k, n, requests[n], |k.log|);
    }
  }

  /** Steps of other threads: no commands and no snapshots. */
  ghost predicate Elsewhere(was: seq<Entry>, now: seq<Entry>) {
    && was <= now && Sends(now) == Sends(was)
    && forall i :: |was| <= i < |now| ==> now[i].Made? || now[i].Bound? || now[i].Halted?
  }

  /** No snapshot was taken since. */
  ghost predicate Onward(was: seq<Entry>, now: seq<Entry>) {
    was <= now && forall i :: |was| <= i < |now| ==> !now[i].Observed?
  }

  lemma ElsewhereRefl(log: seq<Entry>)
    ensures Elsewhere(log, log)
  {}

  lemma ElsewhereMore(was: seq<Entry>, log: seq<Entry>, e: Entry)
    requires Elsewhere(was, log) && (e.Made? || e.Bound? || e.Halted?)
    ensures Elsewhere(was, log + [e])
  {
    assert (log + [e])[..|log|] == log;
  }

  lemma OnwardRefl(log: seq<Entry>)
    ensures Onward(log, log)
  {}

  lemma OnwardElsewhere(was: seq<Entry>, log: seq<Entry>, now: seq<Entry>)
    requires Onward(was, log) && Elsewhere(log, now)
    ensures Onward(was, now) && Sends(now) == Sends(log) && log <= now
  {}

  lemma OnwardSent(was: seq<Entry>, log: seq<Entry>, e: Entry)
    requires Onward(was, log) && e.Sent?
    ensures Onward(was, log + [e])
  {}

  lemma OnwardTrans(was: seq<Entry>, log: seq<Entry>, now: seq<Entry>)
    requires Onward(was, log) && Onward(log, now)
    ensures Onward(was, now) && was <= log <= now
  {}

  /** An intent made after the last snapshot is not discharged by it: while there is no newer
      one, it stays, or a newer intent, another desired state or the stop has ended it. */
  lemma NewerStays(requests: map<string, Request>, k: Books, i: nat)
    requires Accounted(requests, k) && i < |k.log| && k.log[i].Made?
    requires forall j :: i < j < |k.log| ==> !k.log[j].Observed?
    ensures Outstanding(requests, k, i)
      || exists j :: i < j < |k.log| && Ends(k.log, i, j) && (k.log[j].Made? || k.log[j].Bound? || k.log[j].Halted?)
  {
    if !Outstanding(requests, k, i) {
      var j :| i < j < |k.log| && Ends(k.log, i, j);
      assert Ends(k.log, i, j);
    }
  }

  predicate SameValue(current: Request, request: Request) {
    current.muted == request.muted && SameBinding(current.binding, request.binding)
  }

  predicate SameIntent(current: Request, request: Request) {
    SameValue(current, request) && current.written == request.written
  }

  /** Every intent under these names that counts as written was written before `t`. */
  ghost predicate AllOld(requests: map<string, Request>, k: Books, names: set<string>, t: nat) {
    forall n :: n in names && n in requests ==> Proven(k, n, requests[n], t)
  }

  // No thread but the worker marks intents, so what is marked was marked before the snapshot.
  lemma OldEnough(was: map<string, Request>, k: Books, now: map<string, Request>, k': Books)
    requires Accounted(was, k) && Undisturbed(was, now, k, k')
    ensures AllOld(now, k', now.Keys, |k.log|)
  {
    hide Ended;
    forall n | n in now
      ensures Proven(k', n, now[n], |k.log|)
    {
      assert n in was ==> Proven(k, n, was[n], |k.log|);
    }
  }

  lemma FewerOld(requests: map<string, Request>, k: Books, names: set<string>, t: nat, name: string)
    requires AllOld(requests, k, names, t) && name in names
    ensures AllOld(requests, k, names - {name}, t)
    ensures name in requests ==> Proven(k, name, requests[name], t)
  {}

  lemma StillOld(
    was: map<string, Request>, k: Books, now: map<string, Request>, k': Books, names: set<string>, t: nat, name: string)
    requires AllOld(was, k, names, t) && Undisturbed(was, now, k, k') && name in names
    ensures AllOld(now, k', names, t) && AllOld(now, k', names - {name}, t)
    ensures name in now ==> Proven(k', name, now[name], t)
  {}

  lemma MarkedOld(
    was: map<string, Request>, k: Books, now: map<string, Request>, k': Books, names: set<string>, t: nat, name: string)
    requires AllOld(was, k, names, t) && name !in names && now.Keys == was.Keys && k.log <= k'.log
    requires forall n :: n in now && n != name ==>
      now[n] == was[n] && (now[n].written.Some? ==> SameHistory(k, k', n))
    ensures AllOld(now, k', names, t)
  {}

  // The snapshot's word on one capture is withdrawn once a command may have changed it.
  function Unknown(captures: seq<Capture>, name: string): (r: seq<Capture>) {
    seq(|captures|, i requires 0 <= i < |captures| =>
      if captures[i].nodeName == name then captures[i].(muted := None) else captures[i])
  }

  function Mask(captures: seq<Capture>, outstanding: set<string>): (r: seq<Capture>)
    ensures Masked(Published(r, outstanding))
    ensures forall n :: n !in outstanding ==> Named(r, n) == Named(captures, n)
  {
    if captures == [] then []
    else
      var c := captures[0];
      [if c.nodeName in outstanding then c.(muted := None) else c] + Mask(captures[1..], outstanding)
  }

  lemma {:induction false} MaskKeeps(captures: seq<Capture>, outstanding: set<string>, names: set<string>)
    requires forall c :: c in captures && c.nodeName in names ==> c.muted == None
    ensures forall c :: c in Mask(captures, outstanding) && c.nodeName in names ==> c.muted == None
  {
    if captures != [] {
      MaskKeeps(captures[1..], outstanding, names);
    }
  }

  lemma {:induction false} NamedIs(captures: seq<Capture>, name: string)
    ensures forall c :: c in Named(captures, name) ==> c.nodeName == name
  {
    if captures != [] {
      NamedIs(captures[1..], name);
    }
  }

  lemma UnknownMasked(captures: seq<Capture>, outstanding: set<string>)
    requires forall i :: 0 <= i < |captures| ==> captures[i].muted == None
    ensures Masked(Published(captures, outstanding))
  {}

  // What the commands for other names leave of the snapshot's word on captures.
  ghost predicate Withdrawn(captures: seq<Capture>, seen: seq<Capture>, names: set<string>) {
    && |seen| == |captures|
    && forall i :: 0 <= i < |captures| ==>
      seen[i] == if captures[i].nodeName in names then captures[i].(muted := None) else captures[i]
  }

  lemma WithdrawnMore(captures: seq<Capture>, seen: seq<Capture>, rest: seq<Capture>, names: set<string>, name: string)
    requires Withdrawn(captures, seen, names) && rest == Unknown(seen, name)
    ensures Withdrawn(captures, rest, names + {name})
  {}

  lemma NoMore(captures: seq<Capture>)
    ensures Names([]) == {} && Withdrawn(captures, captures, Names([]))
  {}

  lemma {:induction false} NamedStill(captures: seq<Capture>, seen: seq<Capture>, names: set<string>, name: string)
    requires Withdrawn(captures, seen, names) && name !in names
    ensures Named(seen, name) == Named(captures, name)
  {
    if captures != [] {
      NamedStill(captures[1..], seen[1..], names, name);
    }
  }

  function Names(commands: seq<Command>): set<string> {
    set c | c in commands :: c.name
  }

  lemma NamesMore(commands: seq<Command>, more: seq<Command>)
    requires |more| <= 1
    ensures Names(commands + more) == if more == [] then Names(commands) else Names(commands) + {more[0].name}
    ensures |Names(commands)| == |commands| && (more != [] ==> more[0].name !in Names(commands)) ==>
      |Names(commands + more)| == |commands + more|
  {
    if more == [] {
      assert commands + more == commands;
    } else {
      assert Names(commands + more) == Names(commands) + {more[0].name};
    }
  }

  class Mixer {
    var revision: nat
    var desired: Option<Desired>
    var bindings: map<string, Binding>
    var requests: map<string, Request>
    var stopped: bool
    ghost var books: Books
    ghost var published: seq<Published>

    constructor ()
      ensures Valid() && requests == map[] && published == [] && !stopped
      ensures books == Books([], map[], map[])
    {
      revision, desired, bindings, requests, stopped := 0, None, map[], map[], false;
      books, published := Books([], map[], map[]), [];
    }

    ghost predicate Valid()
      reads this
    {
      && Accounted(requests, books)
      && (forall n :: n in requests ==> Current(bindings, n, requests[n].binding))
      && (stopped ==> requests == map[])
      && (forall i :: 0 <= i < |published| ==> Masked(published[i]))
    }

    method SetDesired(revision': nat, desired': Desired, bindings': map<string, Binding>) returns (r: Result<()>)
      requires Valid()
      modifies this
      ensures Valid() && Undisturbed(old(requests), requests, old(books), books)
      ensures r.Ok? <==> (!old(stopped) && (old(desired).Some? ==> old(revision) <= revision')
        && forall n :: n in bindings' ==> Binds(desired', n, bindings'[n]))
      ensures r.Ok? ==> revision == revision' && desired == Some(desired') && bindings == bindings'
      ensures requests == if r.Err? then old(requests) else
        map n | n in old(requests) && Current(bindings', n, old(requests)[n].binding) :: old(requests)[n]
      ensures published == old(published) && stopped == old(stopped) && (r.Err? ==> bindings == old(bindings))
      ensures books.log == if r.Err? then old(books).log else old(books).log + [Bound(bindings')]
    {
      hide Binds, Current, Accounted, Masked;
      AllProven(requests, books);
      if stopped {
        return Err(Frozen);
      }
      if desired.Some? && revision' < revision {
        return Err(Invalid);
      }
      if !forall n | n in bindings' :: Binds(desired', n, bindings'[n]) {
        return Err(Identity);
      }
      ghost var was, k := requests, books;
      requests := map n | n in requests && Current(bindings', n, requests[n].binding) :: requests[n];
      books := k.(log := k.log + [Bound(bindings')]);
      hide Recorded, Ended, Undisturbed, Proven;
      GrowStep(was, k, Bound(bindings'));
      Unbound(was, k, bindings');
      LeaveStep(was, requests, books);
      FewerUndisturbed(was, requests, k, books);
      revision, desired, bindings := revision', Some(desired'), bindings';
      r := Ok(());
    }

    method SetCaptureMute(name: string, binding: Binding, muted: bool) returns (r: Result<()>)
      requires Valid()
      modifies this
      ensures Valid() && Undisturbed(old(requests), requests, old(books), books)
      ensures r.Ok? <==> !old(stopped) && Current(bindings, name, binding)
      ensures requests == if r.Err? then old(requests) else old(requests)[name := Request(binding, muted, None)]
      ensures published == old(published) && stopped == old(stopped) && bindings == old(bindings)
      ensures books.log == if r.Err? then old(books).log else old(books).log + [Made(name, binding, muted)]
    {
      AllProven(requests, books);
      if stopped {
        return Err(Frozen);
      }
      if !Current(bindings, name, binding) {
        return Err(Identity);
      }
      ghost var was, k := requests, books;
      requests := requests[name := Request(binding, muted, None)];
      books := k.(log := k.log + [Made(name, binding, muted)], born := k.born[name := |k.log|]);
      hide Accounted;
      MakeStep(was, requests, k, books, name, requests[name]);
      r := Ok(());
    }

    method Stop()
      requires Valid()
      modifies this
      ensures Valid() && Undisturbed(old(requests), requests, old(books), books)
      ensures stopped && requests == map[] && published == old(published) && bindings == old(bindings)
      ensures books.log == old(books).log + [Halted]
    {
      ghost var was, k := requests, books;
      stopped := true;
      requests := map[];
      books := k.(log := k.log + [Halted]);
      GrowStep(was, k, Halted);
      AllProven(was, books);
      forall n | n in was
        ensures Recorded(books, n, was[n]) && Ended(books.log, books.born[n])
      {
        assert Recorded(k, n, was[n]) && Ends(books.log, books.born[n], |k.log|);
      }
      hide Accounted;
      LeaveStep(was, requests, books);
    }

    /** The lock is free: other threads take any number of steps with any arguments. */
    method Interfere()
      requires Valid()
      modifies this
      ensures Valid() && Undisturbed(old(requests), requests, old(books), books)
      ensures published == old(published) && Elsewhere(old(books).log, books.log)
    {
      AllProven(requests, books);
      var steps: nat := *;
      hide Accounted, Elsewhere, Undisturbed, Current, Binds, Masked;
      ElsewhereRefl(books.log);
      while steps > 0
        invariant Valid() && Undisturbed(old(requests), requests, old(books), books)
        invariant published == old(published) && Elsewhere(old(books).log, books.log)
      {
        var choice: nat, name: string, binding: Binding, muted: bool := *, *, *, *;
        var revision': nat, desired': Desired, bindings': map<string, Binding> := *, *, *;
        ghost var was, k, log := requests, books, books.log;
        AllProven(was, k);
        if choice == 0 {
          var r := SetDesired(revision', desired', bindings');
          ElsewhereMore(old(books).log, log, Bound(bindings'));
        } else if choice == 1 {
          var r := SetCaptureMute(name, binding, muted);
          ElsewhereMore(old(books).log, log, Made(name, binding, muted));
        } else if choice == 2 {
          Stop();
          ElsewhereMore(old(books).log, log, Halted);
        }
        UndisturbedTrans(old(requests), was, requests, old(books), k, books);
        steps := steps - 1;
      }
    }

    // -------------------------------------------------------------- the worker's sections

    /** The intent to act on now, if its binding is still the current one. */
    method Pick(name: string) returns (r: Option<Request>)
      requires Valid()
      ensures r == if name in requests then Some(requests[name]) else None
    {
      r := if name in requests && Current(bindings, name, requests[name].binding) then Some(requests[name]) else None;
    }

    /** Removes the intent that the snapshot taken at `t` confirms, unless it is another by now. */
    method Discharge(name: string, request: Request, ghost t: nat)
      requires Valid() && request.written.Some? && t < |books.log| && books.log[t].Observed?
      requires name in requests ==> Proven(books, name, requests[name], t)
      requires Named(books.log[t].captures, name) == [Capture(name, request.written.value, Some(request.muted))]
      modifies this`requests
      ensures Valid() && Undisturbed(old(requests), requests, books, books)
      ensures requests == if name in old(requests) && SameIntent(old(requests)[name], request)
        then old(requests) - {name} else old(requests)
    {
      AllProven(requests, books);
      if name in requests && SameIntent(requests[name], request) {
        ghost var was, k := requests, books;
        requests := requests - {name};
        assert Recorded(k, name, was[name]) && Ended(k.log, k.born[name]) by {
          assert Confirms(k.log[k.born[name]], k.log[k.proof[name]], k.log[t]);
          assert Ends(k.log, k.born[name], t);
        }
        hide Accounted, Current, Masked, Ended;
        LeaveStep(was, requests, k);
      }
    }

    /** The backend's mute command; what it reports is what is on record of it. */
    method Send(command: Command) returns (ok: bool)
      requires Valid()
      modifies this`books
      ensures Valid() && books == old(books).(log := old(books).log + [Sent(command, ok)])
      ensures Undisturbed(requests, requests, old(books), books)
      ensures Sends(books.log) == Sends(old(books).log) + [command]
    {
      ok := *;
      GrowStep(requests, books, Sent(command, ok));
      books := books.(log := books.log + [Sent(command, ok)]);
    }

    /** Records that a command was written, for an intent that still asks for that value:
        the one at `sent`, which succeeded. */
    method MarkWritten(name: string, request: Request, id: NodeIdentity, ghost sent: nat)
      requires Valid()
      requires sent < |books.log| && books.log[sent] == Sent(Command(name, id, request.muted), true)
      modifies this`requests, this`books
      ensures Valid() && requests.Keys == old(requests).Keys
      ensures books.log == old(books).log && books.born == old(books).born
      ensures forall n :: n in requests && n != name ==>
        requests[n] == old(requests)[n] && (requests[n].written.Some? ==> SameHistory(old(books), books, n))
      ensures requests == if name in old(requests) && SameValue(old(requests)[name], request)
        then old(requests)[name := old(requests)[name].(written := Some(id))] else old(requests)
    {
      AllProven(requests, books);
      if name in requests && SameValue(requests[name], request) {
        ghost var was, k := requests, books;
        requests := requests[name := requests[name].(written := Some(id))];
        books := k.(proof := k.proof[name := sent]);
        hide Accounted, Current, Masked;
        MarkStep(was, requests, k, books, name, id, sent);
      }
    }

    /** One command, to the only capture of that name, unless it was written and is shown. */
    static function CommandsFor(requests: map<string, Request>, seen: seq<Capture>, name: string): (r: seq<Command>)
      ensures |r| <= 1 && forall c :: c in r ==> c.name == name
    {
      var found := Named(seen, name);
      if name !in requests || |found| != 1 then []
      else if requests[name].written == Some(found[0].identity) && found[0].muted == Some(requests[name].muted) then []
      else [Command(name, found[0].identity, requests[name].muted)]
    }

    /** One intent: discharge it if the snapshot taken at `t` confirms it, or write it. Other
        threads go on while the command is under way. */
    method SyncOne(seen: seq<Capture>, name: string, ghost t: nat, ghost names: set<string>)
        returns (rest: seq<Capture>)
      requires Valid() && AllOld(requests, books, names, t) && name in names
      requires t < |books.log| && books.log[t].Observed? && Named(seen, name) == Named(books.log[t].captures, name)
      modifies this
      ensures Valid() && published == old(published) && Onward(old(books).log, books.log)
      ensures AllOld(requests, books, names - {name}, t)
      ensures Sends(books.log) == Sends(old(books).log) + CommandsFor(old(requests), seen, name)
      ensures rest == if CommandsFor(old(requests), seen, name) == [] then seen else Unknown(seen, name)
    {
      hide Accounted, Undisturbed, Current, Masked, Proven, AllOld, SameBinding, SameHistory, Elsewhere, Onward, Sends;
      rest := seen;
      FewerOld(requests, books, names, t, name);
      OnwardRefl(books.log);
      var request := Pick(name);
      var found := Named(seen, name);
      if request.None? || |found| != 1 {
        return;  // offline: the intent stays; ambiguous: nothing may be assumed
      }
      NamedIs(seen, name);
      ghost var was, k := requests, books;
      Interfere();
      StillOld(was, k, requests, books, names, t, name);
      OnwardElsewhere(k.log, k.log, books.log);
      if request.value.written == Some(found[0].identity) && found[0].muted == Some(request.value.muted) {
        was, k := requests, books;
        Discharge(name, request.value, t);
        StillOld(was, k, requests, books, names, t, name);
        return;
      }
      var command := Command(name, found[0].identity, request.value.muted);
      was, k := requests, books;
      var ok := Send(command);
      StillOld(was, k, requests, books, names, t, name);
      OnwardSent(old(books).log, k.log, Sent(command, ok));
      ghost var sent := |k.log|;
      was, k := requests, books;
      Interfere();
      StillOld(was, k, requests, books, names, t, name);
      OnwardElsewhere(old(books).log, k.log, books.log);
      rest := Unknown(seen, name);
      if ok {
        was, k := requests, books;
        MarkWritten(name, request.value, found[0].identity, sent);
        MarkedOld(was, k, requests, books, names - {name}, t, name);
      }
    }

    /** Brings capture mutes in line with the intents, at most one command to each capture.
        What a command may have changed is unknown until a later snapshot. */
    method SyncCaptureMutes(captures: seq<Capture>, ghost t: nat)
      returns (seen: seq<Capture>, ghost sent: seq<Command>)
      requires Valid() && t < |books.log| && books.log[t] == Observed(captures)
      requires AllOld(requests, books, requests.Keys, t)
      modifies this
      ensures Valid() && published == old(published) && Onward(old(books).log, books.log)
      ensures Sends(books.log) == Sends(old(books).log) + sent && |Names(sent)| == |sent|
      ensures Withdrawn(captures, seen, Names(sent))
    {
      seen := captures;
      var todo := requests.Keys;
      hide Accounted, Undisturbed, Current, Masked, AllOld, Onward, Elsewhere, Sends, Withdrawn, Names,
        CommandsFor, Unknown, Named;
      OnwardRefl(books.log);
      sent := [];
      NoMore(captures);
      while todo != {}
        invariant Valid() && published == old(published) && Onward(old(books).log, books.log)
        invariant AllOld(requests, books, todo, t) && todo !! Names(sent) && |Names(sent)| == |sent|
        invariant Sends(books.log) == Sends(old(books).log) + sent && Withdrawn(captures, seen, Names(sent))
        invariant t < |books.log| && books.log[t] == Observed(captures)
        decreases |todo|
      {
        var name :| name in todo;
        ghost var was, k := requests, books;
        Interfere();
        StillOld(was, k, requests, books, todo, t, name);
        OnwardElsewhere(old(books).log, k.log, books.log);
        if stopped {
          return;
        }
        k := books;
        ghost var more := CommandsFor(requests, seen, name);
        ghost var before := seen;
        NamedStill(captures, seen, Names(sent), name);
        seen := SyncOne(seen, name, t, todo);
        OnwardTrans(old(books).log, k.log, books.log);
        NamesMore(sent, more);
        if more != [] {
          WithdrawnMore(captures, before, seen, Names(sent), name);
        }
        assert Sends(books.log) == Sends(old(books).log) + (sent + more);
        sent := sent + more;
        todo := todo - {name};
      }
    }

    /** Publishes a known observation under the lock, hiding every mute still in question. */
    method Publish(captures: seq<Capture>) returns (p: seq<Capture>)
      requires Valid()
      modifies this`published
      ensures Valid() && published == old(published) + [Published(p, requests.Keys)]
      ensures p == Mask(captures, requests.Keys)
    {
      p := Mask(captures, requests.Keys);
      published := published + [Published(p, requests.Keys)];
    }

    /** What can be said of a graph that is not known: nothing of any mute. */
    method PublishUnknown(last: seq<Capture>) returns (p: seq<Capture>)
      requires Valid()
      modifies this`published
      ensures Valid() && published == old(published) + [Published(p, requests.Keys)]
      ensures |p| == |last| && forall i :: 0 <= i < |p| ==> p[i] == last[i].(muted := None)
    {
      p := seq(|last|, i requires 0 <= i < |last| => last[i].(muted := None));
      UnknownMasked(p, requests.Keys);
      published := published + [Published(p, requests.Keys)];
    }

    /** One cycle: a snapshot, the intents, everything else, and what is published of it;
        `whole` if the observations that cleanup made later were whole too. */
    method Cycle(report: Option<seq<Capture>>, whole: bool, last: seq<Capture>)
      returns (p: seq<Capture>, ghost sent: seq<Command>)
      requires Valid()
      modifies this
      ensures Valid() && exists held :: published == old(published) + [Published(p, held)]
      ensures report.None? || !whole ==> |p| == |last| && forall i :: 0 <= i < |p| ==> p[i] == last[i].(muted := None)
      ensures report.None? ==> books == old(books) && requests == old(requests) && sent == []
      ensures Sends(books.log) == Sends(old(books).log) + sent && |Names(sent)| == |sent|
      ensures forall c :: c in p && c.nodeName in Names(sent) ==> c.muted == None
    {
      hide Accounted, Undisturbed, Current, Masked, Proven, Onward, AllOld, Sends;
      sent := [];
      if report.None? {
        p := PublishUnknown(last);
        return;
      }
      ghost var was, k := requests, books;
      Observe(report.value);
      ghost var was', k' := requests, books;
      Interfere();
      UndisturbedTrans(was, was', requests, k, k', books);
      OldEnough(was, k, requests, books);
      var seen: seq<Capture>;
      seen, sent := SyncCaptureMutes(report.value, |k.log|);
      Interfere();
      if whole {
        p := Publish(seen);
        MaskKeeps(seen, requests.Keys, Names(sent));
      } else {
        p := PublishUnknown(last);
      }
    }

    /** A snapshot is taken; the books say what it showed. */
    ghost method Observe(captures: seq<Capture>)
      requires Valid()
      modifies this`books
      ensures Valid() && books == old(books).(log := old(books).log + [Observed(captures)])
      ensures Undisturbed(requests, requests, old(books), books) && Sends(books.log) == Sends(old(books).log)
    {
      GrowStep(requests, books, Observed(captures));
      books := books.(log := books.log + [Observed(captures)]);
    }

    /** Whatever the other threads do and the snapshots say, every intent ever made is
        outstanding, or something happened that ends it: this is the worker's loop, each
        cycle under arbitrary interference. */
    method Work(reports: seq<(Option<seq<Capture>>, bool)>)
      requires Valid()
      modifies this
      ensures Valid()
      ensures forall i :: 0 <= i < |books.log| && books.log[i].Made? ==>
        Outstanding(requests, books, i) || Ended(books.log, i)
    {
      hide Undisturbed, Current, Masked, Ended, Outstanding;
      var last: seq<Capture> := [];
      for i := 0 to |reports|
        invariant Valid()
      {
        Interfere();
        if stopped {
          return;
        }
        var p, sent := Cycle(reports[i].0, reports[i].1, last);
        if reports[i].0.Some? && reports[i].1 {
          last := p;
        }
      }
    }
  }
}
