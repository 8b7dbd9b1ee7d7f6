/** The health monitor (runtime health.rs): one check after another on one watch and one
    restoration, and a shutdown that does not lose what is owed. */
module HealthMonitoring {
  import opened Wrappers
  import opened Model
  import opened HealthPolicy
  import opened HealthWatches
  import opened HealthRuns
  import opened Recovery

  /** The remedies issued since `was` are at most one for each of these names, at this time. */
  ghost predicate RemediesFor(was: seq<Event>, now: seq<Event>, cards: bool, names: set<string>, at: nat) {
    && (forall c, n :: c != cards ==> Remedies(now, c, n) == Remedies(was, c, n))
    && (forall n :: Remedies(now, cards, n) == Remedies(was, cards, n)
          || (n in names && Remedies(now, cards, n) == Remedies(was, cards, n) + [at]))
  }

  /** Every remedy since event `n` is for a name of this check, on the node it was seen on. */
  ghost predicate Caused(trace: seq<Event>, n: nat, samples: HealthSamples, at: nat) {
    forall i :: n <= i < |trace| && trace[i].Remedy? ==>
      && trace[i].cause.at == at
      && (if trace[i].target.Card? then CaptureSeen(samples, trace[i].cause) else SinkSeen(samples, trace[i].cause))
  }

  predicate CaptureSeen(samples: HealthSamples, cause: Cause) {
    && cause.name in samples.captures.at && samples.captures.at[cause.name].Some?
    && samples.captures.at[cause.name].value.identity == cause.identity
  }

  predicate SinkSeen(samples: HealthSamples, cause: Cause) {
    && cause.name in samples.sinks.at && samples.sinks.at[cause.name].Some?
    && samples.sinks.at[cause.name].value.identity == cause.identity
  }

  lemma CausedStep(was: seq<Event>, now: seq<Event>, n: nat, samples: HealthSamples, cards: bool, cause: Cause)
    requires n <= |was| && Caused(was, n, samples, cause.at) && Restoration.ForCheck(was, now, cards, cause)
    requires cards ==> CaptureSeen(samples, cause)
    requires !cards ==> SinkSeen(samples, cause)
    ensures n <= |now| && Caused(now, n, samples, cause.at)
  {
    if now != was {
      var t: Obligation :| t.Card? == cards && Restoration.Undertaken(was, now, t, cause);
      assert forall i :: 0 <= i < |was| ==> now[i] == was[i];
    }
  }

  /** Each of these names had its remedy. */
  ghost predicate AllRemedied(was: seq<Event>, now: seq<Event>, cards: bool, names: set<string>, at: nat) {
    forall n :: n in names ==> Remedies(now, cards, n) == Remedies(was, cards, n) + [at]
  }

  lemma NoRemedies(was: seq<Event>, cards: bool, at: nat)
    ensures RemediesFor(was, was, cards, {}, at) && AllRemedied(was, was, cards, {}, at)
  {}

  lemma RemediesStep(was: seq<Event>, mid: seq<Event>, now: seq<Event>, cards: bool, names: set<string>, name: string,
      at: nat)
    requires RemediesFor(was, mid, cards, names, at) && name !in names
    requires NoRemedy(mid, now) || OneRemedy(mid, now, cards, name, at)
    ensures RemediesFor(was, now, cards, names + {name}, at)
    ensures AllRemedied(was, mid, cards, names, at) && OneRemedy(mid, now, cards, name, at) ==>
      AllRemedied(was, now, cards, names + {name}, at)
  {}

  /** What a check issued: card cycles for `cycled` and sink suspensions for `recycled`. */
  ghost predicate Issued(was: seq<Event>, now: seq<Event>, cycled: set<string>, recycled: set<string>, at: nat) {
    forall cards, n ::
      Remedies(now, cards, n) == Remedies(was, cards, n)
      || (n in (if cards then cycled else recycled) && Remedies(now, cards, n) == Remedies(was, cards, n) + [at])
  }

  lemma IssuedBoth(was: seq<Event>, mid: seq<Event>, now: seq<Event>, cycled: set<string>, recycled: set<string>,
      at: nat)
    requires RemediesFor(was, mid, true, cycled, at) && RemediesFor(mid, now, false, recycled, at)
    ensures Issued(was, now, cycled, recycled, at)
    ensures AllRemedied(was, mid, true, cycled, at) ==> AllRemedied(was, now, true, cycled, at)
    ensures AllRemedied(mid, now, false, recycled, at) ==> AllRemedied(was, now, false, recycled, at)
  {
    forall cards, n
      ensures Remedies(now, cards, n) == Remedies(was, cards, n)
        || (n in (if cards then cycled else recycled) && Remedies(now, cards, n) == Remedies(was, cards, n) + [at])
    {
      assert cards || !cards;
    }
  }

  lemma IssuedNone(was: seq<Event>, now: seq<Event>, at: nat)
    requires NoRemedy(was, now)
    ensures Issued(was, now, {}, {}, at)
  {}

  /** Checks every name, then repays or, if nothing is owed and this is allowed, tries
      remedies: at most one for each name whose budget an attempt spent, and no others. */
  method CheckOnce(
    watch: HealthWatch, host: Host, autoRecover: bool, samples: Option<HealthSamples>, now: nat,
    restoration: Restoration)
    returns (report: HealthReport, failed: bool, ghost cycled: set<string>, ghost recycled: set<string>)
    requires watch.Tracking() && restoration.Answers(host)
    modifies watch, watch.capture, watch.capture.glitch, watch.capture.budget, watch.sink, restoration, host
    ensures watch.Tracking() && restoration.Answers(host)
    ensures forall n :: watch.capture.State(n) == CaptureStep(
      watch.capture.Config(), old(watch.capture.State(n)), CaptureIn(samples, n), now, n in cycled)
    ensures forall n :: watch.sink.State(n) == SinkStep(
      watch.sink.cfg, old(watch.sink.State(n)), SinkIn(samples, n), now, n in recycled)
    ensures forall n :: n in cycled ==>
      CheckCapture(watch.capture.Config(), old(watch.capture.State(n)), CaptureIn(samples, n), now).1.recoveryDue
    ensures forall n :: n in recycled ==>
      CheckSink(watch.sink.cfg, old(watch.sink.State(n)), SinkIn(samples, n), now).1.recoveryDue
    ensures
      autoRecover && old(restoration.pending).None? && host.cancels == old(host.cancels)
      && restoration.pending.None? ==>
      && (forall n ::
            CheckCapture(
              watch.capture.Config(), old(watch.capture.State(n)), CaptureIn(samples, n), now).1.recoveryDue ==>
              n in cycled)
      && (forall n ::
            CheckSink(watch.sink.cfg, old(watch.sink.State(n)), SinkIn(samples, n), now).1.recoveryDue ==>
              n in recycled)
    ensures old(restoration.pending).Some? ==> cycled == {} && recycled == {}
    ensures !autoRecover ==> cycled == {} && recycled == {}
    ensures Issued(old(host.trace), host.trace, cycled, recycled, now)
    ensures !failed ==> AllRemedied(old(host.trace), host.trace, true, cycled, now)
    ensures !failed ==> AllRemedied(old(host.trace), host.trace, false, recycled, now)
    ensures samples.Some? ==>
      |host.trace| >= |old(host.trace)| && Caused(host.trace, |old(host.trace)|, samples.value, now)
  {
    hide CheckCapture, CheckSink, AttemptCapture, AttemptSink, Disciplined, Issued, NoRemedy, RemediesFor, Remedies;
    failed := false;
    IssuedNone(host.trace, host.trace, now) by {
      NothingNew(host.trace);
    }
    cycled, recycled := {}, {};
    DueWasSeen(watch.capture.Config(), watch.sink.cfg);
    report := watch.Observe(samples, now);
    if restoration.pending.Some? {
      // Repaying is no new attempt, and this sample is no ground to start one.
      var r := restoration.RestoreWith(host);
      IssuedNone(old(host.trace), host.trace, now);
      failed := r.Err?;
      return;
    }
    if samples.None? {
      return;
    }
    var cardsFailed: bool, sinksFailed: bool;
    cardsFailed, cycled := CycleCards(
      watch, host, autoRecover, samples.value, now, restoration, report, |old(host.trace)|);
    ghost var trace := host.trace;
    sinksFailed, recycled := RecycleSinks(
      watch, host, autoRecover, samples.value, now, restoration, report, |old(host.trace)|);
    IssuedBoth(old(host.trace), trace, host.trace, cycled, recycled, now);
    failed := cardsFailed || sinksFailed;
  }

  lemma NothingNew(trace: seq<Event>)
    ensures NoRemedy(trace, trace)
  {}

  /** Nothing is due for a name that was not seen. */
  lemma DueWasSeen(cfg: CaptureConfig, sinkCfg: SinkConfig)
    ensures forall s, now :: !CheckCapture(cfg, s, None, now).1.recoveryDue
    ensures forall s, now :: !CheckSink(sinkCfg, s, None, now).1.recoveryDue
  {}

  function CaptureStep(cfg: CaptureConfig, s: CaptureState, sample: Option<CaptureSample>, now: nat,
      attempt: bool): CaptureState {
    var s' := CheckCapture(cfg, s, sample, now).0;
    if attempt then AttemptCapture(s', now) else s'
  }

  function SinkStep(cfg: SinkConfig, s: SinkState, sample: Option<SinkSample>, now: nat, attempt: bool): SinkState {
    var s' := CheckSink(cfg, s, sample, now).0;
    if attempt then AttemptSink(s', now) else s'
  }

  /** Spends the budget before discovery too, so that repeated failures are bounded. */
  method TryCycle(
    watch: HealthWatch, host: Host, name: string, identity: NodeIdentity, now: nat, restoration: Restoration)
    returns (ok: bool)
    requires watch.Tracking() && restoration.Answers(host) && name in watch.captures
    modifies watch.capture, watch.capture.glitch, watch.capture.budget, restoration, host
    ensures watch.Tracking() && restoration.Answers(host) && host.cancels >= old(host.cancels)
    ensures old(restoration.pending).Some? ==> restoration.pending.Some?
    ensures watch.capture.State(name) == AttemptCapture(old(watch.capture.State(name)), now)
    ensures forall n :: n != name ==> watch.capture.State(n) == old(watch.capture.State(n))
    ensures NoRemedy(old(host.trace), host.trace) || OneRemedy(old(host.trace), host.trace, true, name, now)
    ensures ok ==> OneRemedy(old(host.trace), host.trace, true, name, now)
    ensures Restoration.ForCheck(old(host.trace), host.trace, true, Cause(name, identity, now))
  {
    hide Disciplined, AttemptCapture, NoRemedy, OneRemedy, Restoration.ForCheck;
    watch.capture.RecordAttempt(name, now);
    var r := restoration.CycleCardWith(host, name, identity, now);
    ok := r.Ok?;
  }

  method TryRecycle(
    watch: HealthWatch, host: Host, name: string, identity: NodeIdentity, now: nat, restoration: Restoration)
    returns (ok: bool)
    requires watch.Tracking() && restoration.Answers(host) && name in watch.sinks
    modifies watch.sink, restoration, host
    ensures watch.Tracking() && restoration.Answers(host) && host.cancels >= old(host.cancels)
    ensures old(restoration.pending).Some? ==> restoration.pending.Some?
    ensures watch.sink.State(name) == AttemptSink(old(watch.sink.State(name)), now)
    ensures forall n :: n != name ==> watch.sink.State(n) == old(watch.sink.State(n))
    ensures NoRemedy(old(host.trace), host.trace) || OneRemedy(old(host.trace), host.trace, false, name, now)
    ensures ok ==> OneRemedy(old(host.trace), host.trace, false, name, now)
    ensures Restoration.ForCheck(old(host.trace), host.trace, false, Cause(name, identity, now))
  {
    hide Disciplined, AttemptSink, NoRemedy, OneRemedy, Restoration.ForCheck;
    watch.sink.RecordAttempt(name, now);
    var r := restoration.RecycleSinkWith(host, name, identity, now);
    ok := r.Ok?;
  }

  /** One name: its remedy is tried when it is due, unless work was cancelled or is left owing. */
  method ConsiderCard(
    watch: HealthWatch, host: Host, autoRecover: bool, due: bool, sample: Option<CaptureSample>, name: string, now: nat,
    restoration: Restoration)
    returns (tried: bool, failed: bool)
    requires watch.Tracking() && restoration.Answers(host) && name in watch.captures
    modifies watch.capture, watch.capture.glitch, watch.capture.budget, restoration, host
    ensures watch.Tracking() && restoration.Answers(host) && host.cancels >= old(host.cancels)
    ensures old(restoration.pending).Some? ==> restoration.pending.Some?
    ensures tried ==> autoRecover && due
    ensures
      autoRecover && due && sample.Some? && host.cancels == old(host.cancels) && old(restoration.pending).None? ==>
        tried
    ensures watch.capture.State(name) ==
      if tried then AttemptCapture(old(watch.capture.State(name)), now) else old(watch.capture.State(name))
    ensures forall n :: n != name ==> watch.capture.State(n) == old(watch.capture.State(n))
    ensures !tried ==> !failed && host.trace == old(host.trace)
    ensures NoRemedy(old(host.trace), host.trace) || OneRemedy(old(host.trace), host.trace, true, name, now)
    ensures tried && !failed ==> OneRemedy(old(host.trace), host.trace, true, name, now)
    ensures tried ==>
      && sample.Some?
      && Restoration.ForCheck(old(host.trace), host.trace, true, Cause(name, sample.value.identity, now))
  {
    hide AttemptCapture, Disciplined, Disturbed, PauseCapture, Restoration.Answers, NoRemedy, OneRemedy, Remedies,
      Restoration.ForCheck;
    tried, failed := false, false;
    NothingNew(host.trace);
    var cancelled := host.Cancelled();
    if autoRecover && due && !cancelled && restoration.pending.None? && sample.Some? {
      var ok := TryCycle(watch, host, name, sample.value.identity, now, restoration);
      tried, failed := true, !ok;
    }
  }

  method CycleCards(
    watch: HealthWatch, host: Host, autoRecover: bool, samples: HealthSamples, now: nat,
    restoration: Restoration, report: HealthReport, ghost n: nat)
    returns (failed: bool, ghost cycled: set<string>)
    requires watch.Tracking() && restoration.Answers(host) && n <= |host.trace| && Caused(host.trace, n, samples, now)
    requires report.captures.Keys == samples.captures.at.Keys <= watch.captures
    modifies watch.capture, watch.capture.glitch, watch.capture.budget, restoration, host
    ensures watch.Tracking() && restoration.Answers(host)
    ensures forall n ::
      watch.capture.State(n) == if n in cycled then AttemptCapture(old(watch.capture.State(n)), now)
        else old(watch.capture.State(n))
    ensures forall n :: n in cycled ==> n in report.captures && report.captures[n].recoveryDue
    ensures !autoRecover ==> cycled == {}
    ensures RemediesFor(old(host.trace), host.trace, true, cycled, now)
    ensures !failed ==> AllRemedied(old(host.trace), host.trace, true, cycled, now)
    ensures n <= |host.trace| && Caused(host.trace, n, samples, now)
    ensures host.cancels >= old(host.cancels) && (old(restoration.pending).Some? ==> restoration.pending.Some?)
    ensures autoRecover && host.cancels == old(host.cancels) && restoration.pending.None? ==>
      forall n :: n in report.captures && report.captures[n].recoveryDue && samples.captures.at[n].Some? ==> n in cycled
  {
    hide HealthWatch.Tracking, AttemptCapture, Disciplined, Disturbed, PauseCapture, Restoration.Answers, RemediesFor,
      Caused, Restoration.ForCheck, AllRemedied, NoRemedy, OneRemedy, Remedies;
    failed, cycled := false, {};
    NoRemedies(host.trace, true, now);
    var names := samples.captures.keys;
    for i := 0 to |names|
      invariant watch.Tracking() && restoration.Answers(host)
      invariant forall n :: n in cycled ==> n in names[..i] && n in report.captures && report.captures[n].recoveryDue
      invariant forall n ::
        watch.capture.State(n) == if n in cycled then AttemptCapture(old(watch.capture.State(n)), now)
          else old(watch.capture.State(n))
      invariant !autoRecover ==> cycled == {}
      invariant RemediesFor(old(host.trace), host.trace, true, cycled, now)
      invariant n <= |host.trace| && Caused(host.trace, n, samples, now)
      invariant !failed ==> AllRemedied(old(host.trace), host.trace, true, cycled, now)
      invariant host.cancels >= old(host.cancels) && (old(restoration.pending).Some? ==> restoration.pending.Some?)
      invariant autoRecover && host.cancels == old(host.cancels) && restoration.pending.None? ==>
        forall n :: n in names[..i] && report.captures[n].recoveryDue && samples.captures.at[n].Some? ==> n in cycled
    {
      var name := names[i];
      assert name !in names[..i];
      ghost var trace := host.trace;
      var tried, bad := ConsiderCard(
        watch, host, autoRecover, report.captures[name].recoveryDue, samples.captures.at[name], name, now, restoration);
      if tried {
        CausedStep(trace, host.trace, n, samples, true, Cause(name, samples.captures.at[name].value.identity, now));
        RemediesStep(old(host.trace), trace, host.trace, true, cycled, name, now);
        failed, cycled := failed || bad, cycled + {name};
      }
    }
  }

  /** One name: its remedy is tried when it is due, unless work was cancelled or is left owing. */
  method ConsiderSink(
    watch: HealthWatch, host: Host, autoRecover: bool, due: bool, sample: Option<SinkSample>, name: string, now: nat,
    restoration: Restoration)
    returns (tried: bool, failed: bool)
    requires watch.Tracking() && restoration.Answers(host) && name in watch.sinks
    modifies watch.sink, restoration, host
    ensures watch.Tracking() && restoration.Answers(host) && host.cancels >= old(host.cancels)
    ensures old(restoration.pending).Some? ==> restoration.pending.Some?
    ensures tried ==> autoRecover && due
    ensures
      autoRecover && due && sample.Some? && host.cancels == old(host.cancels) && old(restoration.pending).None? ==>
        tried
    ensures watch.sink.State(name) ==
      if tried then AttemptSink(old(watch.sink.State(name)), now) else old(watch.sink.State(name))
    ensures forall n :: n != name ==> watch.sink.State(n) == old(watch.sink.State(n))
    ensures !tried ==> !failed && host.trace == old(host.trace)
    ensures NoRemedy(old(host.trace), host.trace) || OneRemedy(old(host.trace), host.trace, false, name, now)
    ensures tried && !failed ==> OneRemedy(old(host.trace), host.trace, false, name, now)
    ensures tried ==>
      && sample.Some?
      && Restoration.ForCheck(old(host.trace), host.trace, false, Cause(name, sample.value.identity, now))
  {
    hide AttemptSink, Disciplined, Disturbed, PauseSink, Restoration.Answers, NoRemedy, OneRemedy, Remedies,
      Restoration.ForCheck;
    tried, failed := false, false;
    NothingNew(host.trace);
    var cancelled := host.Cancelled();
    if autoRecover && due && !cancelled && restoration.pending.None? && sample.Some? {
      var ok := TryRecycle(watch, host, name, sample.value.identity, now, restoration);
      tried, failed := true, !ok;
    }
  }

  method RecycleSinks(
    watch: HealthWatch, host: Host, autoRecover: bool, samples: HealthSamples, now: nat,
    restoration: Restoration, report: HealthReport, ghost n: nat)
    returns (failed: bool, ghost recycled: set<string>)
    requires watch.Tracking() && restoration.Answers(host) && n <= |host.trace| && Caused(host.trace, n, samples, now)
    requires report.sinks.Keys == samples.sinks.at.Keys <= watch.sinks
    modifies watch.sink, restoration, host
    ensures watch.Tracking() && restoration.Answers(host)
    ensures forall n ::
      watch.sink.State(n) == if n in recycled then AttemptSink(old(watch.sink.State(n)), now)
        else old(watch.sink.State(n))
    ensures forall n :: n in recycled ==> n in report.sinks && report.sinks[n].recoveryDue
    ensures !autoRecover ==> recycled == {}
    ensures RemediesFor(old(host.trace), host.trace, false, recycled, now)
    ensures !failed ==> AllRemedied(old(host.trace), host.trace, false, recycled, now)
    ensures n <= |host.trace| && Caused(host.trace, n, samples, now)
    ensures host.cancels >= old(host.cancels) && (old(restoration.pending).Some? ==> restoration.pending.Some?)
    ensures autoRecover && host.cancels == old(host.cancels) && restoration.pending.None? ==>
      forall n :: n in report.sinks && report.sinks[n].recoveryDue && samples.sinks.at[n].Some? ==> n in recycled
  {
    hide HealthWatch.Tracking, AttemptSink, Disciplined, Disturbed, PauseSink, Restoration.Answers, RemediesFor,
      Caused, Restoration.ForCheck, AllRemedied, NoRemedy, OneRemedy, Remedies;
    failed, recycled := false, {};
    NoRemedies(host.trace, false, now);
    var names := samples.sinks.keys;
    for i := 0 to |names|
      invariant watch.Tracking() && restoration.Answers(host)
      invariant forall n :: n in recycled ==> n in names[..i] && n in report.sinks && report.sinks[n].recoveryDue
      invariant forall n ::
        watch.sink.State(n) == if n in recycled then AttemptSink(old(watch.sink.State(n)), now)
          else old(watch.sink.State(n))
      invariant !autoRecover ==> recycled == {}
      invariant RemediesFor(old(host.trace), host.trace, false, recycled, now)
      invariant n <= |host.trace| && Caused(host.trace, n, samples, now)
      invariant !failed ==> AllRemedied(old(host.trace), host.trace, false, recycled, now)
      invariant host.cancels >= old(host.cancels) && (old(restoration.pending).Some? ==> restoration.pending.Some?)
      invariant autoRecover && host.cancels == old(host.cancels) && restoration.pending.None? ==>
        forall n :: n in names[..i] && report.sinks[n].recoveryDue && samples.sinks.at[n].Some? ==> n in recycled
    {
      var name := names[i];
      assert name !in names[..i];
      ghost var trace := host.trace;
      var tried, bad := ConsiderSink(
        watch, host, autoRecover, report.sinks[name].recoveryDue, samples.sinks.at[name], name, now, restoration);
      if tried {
        CausedStep(trace, host.trace, n, samples, false, Cause(name, samples.sinks.at[name].value.identity, now));
        RemediesStep(old(host.trace), trace, host.trace, false, recycled, name, now);
        failed, recycled := failed || bad, recycled + {name};
      }
    }
  }

  datatype Round = Round(samples: Option<HealthSamples>, now: nat)

  lemma RunExtend(cfg: CaptureConfig, checks: seq<Check>, c: Check)
    requires Run(cfg, checks) && (checks != [] ==> checks[|checks| - 1].now <= c.now)
    requires c.attempt ==> CheckCapture(cfg, After(cfg, checks), c.sample, c.now).1.recoveryDue
    ensures Run(cfg, checks + [c])
    ensures After(cfg, checks + [c]) == CaptureStep(cfg, After(cfg, checks), c.sample, c.now, c.attempt)
  {
    var all := checks + [c];
    assert all[..|checks|] == checks && all[..|all|] == all;
    forall n | 0 < n <= |all| && all[n - 1].attempt
      ensures Observed(cfg, all[..n]).1.recoveryDue
    {
      if n <= |checks| {
        assert all[..n] == checks[..n] && checks[n - 1].attempt;
      }
    }
  }

  lemma SinkRunExtend(cfg: SinkConfig, checks: seq<SinkCheck>, c: SinkCheck)
    requires SinkRun(cfg, checks)
    requires c.attempt ==> CheckSink(cfg, SinkAfter(cfg, checks), c.sample, c.now).1.recoveryDue
    ensures SinkRun(cfg, checks + [c])
    ensures SinkAfter(cfg, checks + [c]) == SinkStep(cfg, SinkAfter(cfg, checks), c.sample, c.now, c.attempt)
  {
    var all := checks + [c];
    assert all[..|checks|] == checks && all[..|all|] == all;
    forall n | 0 < n <= |all| && all[n - 1].attempt
      ensures SinkRecoveryDue(cfg, SinkObserved(cfg, all[..n]), all[n - 1].now)
    {
      if n <= |checks| {
        assert all[..n] == checks[..n] && checks[n - 1].attempt;
      }
    }
  }

  /** The remedies of one name, as the host has seen them, against the checks it was given:
      `cycles` are the times of its card cycles, each of an attempt, and `recycles` the
      checks at which its sink was suspended. */
  ghost predicate Answered(
    start: seq<Event>, trace: seq<Event>, name: string, checks: seq<Check>, sinkChecks: seq<SinkCheck>,
    cycles: seq<nat>, picks: seq<nat>, recycles: seq<nat>, sinkPicks: seq<nat>)
  {
    && Remedies(trace, true, name) == Remedies(start, true, name) + cycles
    && Remedies(trace, false, name) == Remedies(start, false, name) + Times(sinkChecks, recycles)
    && Picked(cycles, Attempts(checks), picks)
    && Picked(recycles, SinkAttempts(sinkChecks), sinkPicks)
  }

  /** When the checks at these places were made. */
  function Times(checks: seq<SinkCheck>, at: seq<nat>): (r: seq<nat>) {
    seq(|at|, i requires 0 <= i < |at| => if at[i] < |checks| then checks[at[i]].now else 0)
  }

  lemma AnsweredStart(trace: seq<Event>, name: string)
    ensures Answered(trace, trace, name, [], [], [], [], [], [])
  {
    assert Times([], []) == [];
  }

  lemma CyclesStep(
    start: seq<nat>, was: seq<nat>, now: seq<nat>, checks: seq<Check>, cycles: seq<nat>, picks: seq<nat>, c: Check)
    returns (cycles': seq<nat>, picks': seq<nat>)
    requires was == start + cycles && Picked(cycles, Attempts(checks), picks)
    requires now == was || (c.attempt && now == was + [c.now])
    ensures now == start + cycles' && Picked(cycles', Attempts(checks + [c]), picks')
  {
    hide Picked;
    assert (checks + [c])[..|checks|] == checks;
    var attempts := Attempts(checks);
    PickedMore(cycles, attempts, picks, c.now);
    cycles', picks' := cycles, picks;
    if now != was {
      cycles', picks' := cycles + [c.now], picks + [|attempts|];
    }
  }

  lemma RecyclesStep(
    start: seq<nat>, was: seq<nat>, now: seq<nat>, checks: seq<SinkCheck>, recycles: seq<nat>, picks: seq<nat>,
    d: SinkCheck)
    returns (recycles': seq<nat>, picks': seq<nat>)
    requires was == start + Times(checks, recycles) && Picked(recycles, SinkAttempts(checks), picks)
    requires now == was || (d.attempt && now == was + [d.now])
    ensures now == start + Times(checks + [d], recycles') && Picked(recycles', SinkAttempts(checks + [d]), picks')
  {
    assert (checks + [d])[..|checks|] == checks;
    var attempts := SinkAttempts(checks);
    TimesMore(checks, d, recycles);
    hide Picked;
    PickedMore(recycles, attempts, picks, |checks|);
    recycles', picks' := recycles, picks;
    if now != was {
      recycles', picks' := recycles + [|checks|], picks + [|attempts|];
    }
  }

  lemma AnsweredStep(
    start: seq<Event>, was: seq<Event>, now: seq<Event>, name: string, checks: seq<Check>, sinkChecks: seq<SinkCheck>,
    cycles: seq<nat>, picks: seq<nat>, recycles: seq<nat>, sinkPicks: seq<nat>,
    cycled: set<string>, recycled: set<string>, c: Check, d: SinkCheck)
    returns (cycles': seq<nat>, picks': seq<nat>, recycles': seq<nat>, sinkPicks': seq<nat>)
    requires Answered(start, was, name, checks, sinkChecks, cycles, picks, recycles, sinkPicks)
    requires Issued(was, now, cycled, recycled, c.now) && c.now == d.now
    requires c.attempt == (name in cycled) && d.attempt == (name in recycled)
    ensures Answered(start, now, name, checks + [c], sinkChecks + [d], cycles', picks', recycles', sinkPicks')
  {
    hide Remedies, Picked, Times, Attempts, SinkAttempts;
    cycles', picks' := CyclesStep(
      Remedies(start, true, name), Remedies(was, true, name), Remedies(now, true, name), checks, cycles, picks, c);
    recycles', sinkPicks' := RecyclesStep(
      Remedies(start, false, name), Remedies(was, false, name), Remedies(now, false, name), sinkChecks, recycles,
        sinkPicks, d);
  }

  lemma TimesMore(checks: seq<SinkCheck>, d: SinkCheck, at: seq<nat>)
    requires forall i :: 0 <= i < |at| ==> at[i] < |checks|
    ensures Times(checks + [d], at) == Times(checks, at)
    ensures Times(checks + [d], at + [|checks|]) == Times(checks, at) + [d.now]
  {}

  /** The monitor's loop over any observations at nondecreasing times: for every name, the
      remedies that the host saw keep to the rate bounds, and with recovery off there are none. */
  method Work(
    watch: HealthWatch, host: Host, autoRecover: bool, rounds: seq<Round>, restoration: Restoration, ghost name: string)
    returns (ghost checks: seq<Check>, ghost sinkChecks: seq<SinkCheck>, ghost cycles: seq<nat>,
      ghost recycles: seq<nat>)
    requires watch.Tracking() && restoration.Answers(host)
    requires watch.capture.Config().Valid() && watch.sink.cfg.Valid()
    requires watch.capture.State(name) == FRESH_CAPTURE && watch.sink.State(name) == FRESH_SINK
    requires forall i, j :: 0 <= i <= j < |rounds| ==> rounds[i].now <= rounds[j].now
    modifies watch, watch.capture, watch.capture.glitch, watch.capture.budget, watch.sink, restoration, host
    ensures watch.Tracking() && restoration.Answers(host)
    ensures |checks| == |sinkChecks| == |rounds|
    ensures forall i :: 0 <= i < |rounds| ==>
      checks[i].sample == CaptureIn(rounds[i].samples, name) && checks[i].now == rounds[i].now
    ensures forall i :: 0 <= i < |rounds| ==>
      sinkChecks[i].sample == SinkIn(rounds[i].samples, name) && sinkChecks[i].now == rounds[i].now
    ensures After(watch.capture.Config(), checks) == watch.capture.State(name)
    ensures SinkAfter(watch.sink.cfg, sinkChecks) == watch.sink.State(name)
    ensures Remedies(host.trace, true, name) == Remedies(old(host.trace), true, name) + cycles
    ensures Spaced(watch.capture.Config(), cycles)
    ensures Remedies(host.trace, false, name) == Remedies(old(host.trace), false, name) + Times(sinkChecks, recycles)
    ensures SinkSpaced(watch.sink.cfg, sinkChecks, recycles)
    ensures !autoRecover ==> NoRemedy(old(host.trace), host.trace)
  {
    hide CheckCapture, CheckSink, AttemptCapture, AttemptSink, Disciplined, Spaced, SinkSpaced, Run, SinkRun, Answered,
      Issued,
      Remedies, NoRemedy, Picked;
    checks, sinkChecks, cycles, recycles := [], [], [], [];
    ghost var picks: seq<nat>, sinkPicks: seq<nat> := [], [];
    ghost var cfg, sinkCfg := watch.capture.Config(), watch.sink.cfg;
    EmptyRuns(cfg, sinkCfg);
    AnsweredStart(host.trace, name);
    NothingNew(host.trace);
    for i := 0 to |rounds|
      invariant watch.Tracking() && restoration.Answers(host)
      invariant |checks| == |sinkChecks| == i && Run(cfg, checks) && SinkRun(sinkCfg, sinkChecks)
      invariant forall k :: 0 <= k < i ==>
        checks[k].sample == CaptureIn(rounds[k].samples, name) && checks[k].now == rounds[k].now
      invariant forall k :: 0 <= k < i ==>
        sinkChecks[k].sample == SinkIn(rounds[k].samples, name) && sinkChecks[k].now == rounds[k].now
      invariant After(cfg, checks) == watch.capture.State(name)
      invariant SinkAfter(sinkCfg, sinkChecks) == watch.sink.State(name)
      invariant Answered(old(host.trace), host.trace, name, checks, sinkChecks, cycles, picks, recycles, sinkPicks)
      invariant !autoRecover ==> NoRemedy(old(host.trace), host.trace)
    {
      ghost var trace := host.trace;
      var report, failed, cycled, recycled :=
        CheckOnce(watch, host, autoRecover, rounds[i].samples, rounds[i].now, restoration);
      ghost var c := Check(CaptureIn(rounds[i].samples, name), rounds[i].now, name in cycled);
      ghost var d := SinkCheck(SinkIn(rounds[i].samples, name), rounds[i].now, name in recycled);
      RunExtend(cfg, checks, c);
      SinkRunExtend(sinkCfg, sinkChecks, d);
      cycles, picks, recycles, sinkPicks := AnsweredStep(old(host.trace), trace, host.trace, name, checks, sinkChecks,
        cycles, picks, recycles, sinkPicks, cycled, recycled, c, d);
      if !autoRecover {
        StillNone(old(host.trace), trace, host.trace, rounds[i].now);
      }
      checks, sinkChecks := checks + [c], sinkChecks + [d];
    }
    Bounded(cfg, sinkCfg, old(host.trace), host.trace, name, checks, sinkChecks, cycles, picks, recycles, sinkPicks);
  }

  lemma StillNone(start: seq<Event>, was: seq<Event>, now: seq<Event>, at: nat)
    requires NoRemedy(start, was) && Issued(was, now, {}, {}, at)
    ensures NoRemedy(start, now)
  {}

  lemma Bounded(
    cfg: CaptureConfig, sinkCfg: SinkConfig, start: seq<Event>, trace: seq<Event>, name: string, checks: seq<Check>,
    sinkChecks: seq<SinkCheck>, cycles: seq<nat>, picks: seq<nat>, recycles: seq<nat>, sinkPicks: seq<nat>)
    requires cfg.Valid() && sinkCfg.Valid() && Run(cfg, checks) && SinkRun(sinkCfg, sinkChecks)
    requires Answered(start, trace, name, checks, sinkChecks, cycles, picks, recycles, sinkPicks)
    ensures Remedies(trace, true, name) == Remedies(start, true, name) + cycles && Spaced(cfg, cycles)
    ensures Remedies(trace, false, name) == Remedies(start, false, name) + Times(sinkChecks, recycles)
    ensures SinkSpaced(sinkCfg, sinkChecks, recycles)
  {
    hide Spaced, SinkSpaced, Run, SinkRun, Picked, Remedies;
    CaptureRateBound(cfg, checks);
    AttemptsGrow(cfg, checks);
    SomeSpaced(cfg, cycles, Attempts(checks), picks);
    SinkRateBound(sinkCfg, sinkChecks);
    SinkAttemptsGrow(sinkCfg, sinkChecks);
    SomeSinkSpaced(sinkCfg, sinkChecks, recycles, SinkAttempts(sinkChecks), sinkPicks);
  }

  lemma EmptyRuns(cfg: CaptureConfig, sinkCfg: SinkConfig)
    ensures Run(cfg, []) && SinkRun(sinkCfg, [])
  {}

  class HealthMonitor {
    const host: Host
    var cancel: bool
    var thread: Restoration?   // the worker and the restoration it owns, until joined
    var restore: Restoration?  // the restoration a joined worker handed over
    var failed: bool           // the worker panicked; there is nothing to retry

    constructor (host: Host, restoration: Restoration)
      requires restoration.Answers(host)
      ensures this.host == host && Valid() && thread == restoration
    {
      this.host, cancel, thread, restore, failed := host, false, restoration, null, false;
    }

    /** Someone still answers for whatever is disturbed, unless the worker panicked. */
    ghost predicate Valid()
      reads this, host, thread, restore
    {
      && (thread != null ==> restore == null && !failed && thread.Answers(host))
      && (restore != null ==> !failed && restore.Answers(host))
      && (thread == null && restore == null && !failed ==> Disturbed(host.trace) == {})
    }

    /** Ok only when nothing is owed. A failed stop keeps the owner for the next one. */
    method Stop() returns (r: Result<()>)
      requires Valid()
      modifies this, host, thread, restore
      ensures Valid() && cancel && thread == null && NoRemedy(old(host.trace), host.trace)
      ensures r.Ok? ==> Disturbed(host.trace) == {} && restore == null && !failed
      ensures r.Err? ==> failed || (restore != null && restore.pending.Some?)
      ensures restore in {null, old(thread), old(restore)}
      ensures old(failed) ==> r.Err? && host.trace == old(host.trace)
    {
      cancel := true;
      NothingNew(host.trace);
      if thread != null {
        var panicked: bool := *;
        if panicked {
          failed := true;
        } else {
          restore := thread;
        }
        thread := null;
      }
      if failed {
        return Err(Unavailable);
      }
      if restore != null {
        r := restore.RestoreWith(host);
        if r.Err? {
          return;
        }
        restore := null;
      }
      r := Ok(());
    }

    /** Retries for as long as there is an owner to retry; `patience` bounds the retries. */
    method StopUntilRestored(patience: nat) returns (r: Result<()>)
      requires Valid()
      modifies this, host, thread, restore
      ensures Valid() && (r.Ok? ==> Disturbed(host.trace) == {} && !failed)
      ensures r.Err? ==> failed || (restore != null && restore.pending.Some?)
    {
      r := Stop();
      ghost var owner := restore;
      for i := 0 to patience
        invariant Valid() && thread == null && restore in {null, owner}
        invariant r.Ok? ==> Disturbed(host.trace) == {} && restore == null && !failed
        invariant r.Err? ==> failed || (restore != null && restore.pending.Some?)
      {
        if r.Ok? || restore == null {
          return;
        }
        r := Stop();
      }
    }
  }
}
