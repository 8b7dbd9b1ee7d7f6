/** Health budgets over unbounded runs of checks of one name: how often a remedy may be
    tried, and what it takes for a spent budget to come back. */
module HealthRuns {
  import opened Wrappers
  import opened Model
  import opened HealthPolicy

  // ---------------------------------------------------------------- captures

  /** One check of a name: what was seen of it, when, and whether a remedy was then tried. */
  datatype Check = Check(sample: Option<CaptureSample>, now: nat, attempt: bool)

  /** The state after observing the last of these checks, before any attempt that follows. */
  function Observed(cfg: CaptureConfig, checks: seq<Check>): (CaptureState, CaptureDecision)
    requires checks != []
  {
    var last := checks[|checks| - 1];
    CheckCapture(cfg, After(cfg, checks[..|checks| - 1]), last.sample, last.now)
  }

  /** The state once all these checks, and their attempts, are over. */
  function After(cfg: CaptureConfig, checks: seq<Check>): CaptureState {
    if checks == [] then FRESH_CAPTURE
    else
      var last := checks[|checks| - 1];
      var s := CheckCapture(cfg, After(cfg, checks[..|checks| - 1]), last.sample, last.now).0;
      if last.attempt then AttemptCapture(s, last.now) else s
  }

  /** A run: time never goes back, and a remedy is tried only when the check calls for one. */
  ghost predicate Run(cfg: CaptureConfig, checks: seq<Check>) {
    && (forall i, j :: 0 <= i <= j < |checks| ==> checks[i].now <= checks[j].now)
    && (forall n :: 0 < n <= |checks| && checks[n - 1].attempt ==> Observed(cfg, checks[..n]).1.recoveryDue)
  }

  /** The times of the attempts. */
  function Attempts(checks: seq<Check>): seq<nat> {
    if checks == [] then []
    else
      var last, at := checks[|checks| - 1], Attempts(checks[..|checks| - 1]);
      if last.attempt then at + [last.now] else at
  }

  function Min(a: nat, b: nat): nat {
    if a < b then a else b
  }

  /** Any two attempts in a row are a cooldown (or a refill) apart, and one more than the
      budget spans at least a refill. */
  ghost predicate Spaced(cfg: CaptureConfig, at: seq<nat>) {
    && (forall i :: 0 < i < |at| ==> at[i] - at[i - 1] >= Min(cfg.cooldown, cfg.cleanRefill))
    && (forall i :: 0 <= i && i + cfg.maxAttempts < |at| ==> at[i + cfg.maxAttempts] - at[i] >= cfg.cleanRefill)
  }

  /** How the budget follows the attempts: those since the last refill are the ones it
      counts, and a refill lies a clean interval after the attempt before it. */
  ghost predicate Budgeted(cfg: CaptureConfig, s: CaptureState, at: seq<nat>, now: nat) {
    var incident := IncidentOf(s.incident);
    var spent := incident.attempts;
    && spent <= |at| && spent <= cfg.maxAttempts
    && (forall i, j :: 0 <= i <= j < |at| ==> at[i] <= at[j] <= now)
    && (spent == 0 <==> incident.lastAttempt.None?)
    && (spent > 0 ==> incident.lastAttempt == Some(at[|at| - 1]))
    && (0 < spent < |at| ==> at[|at| - spent] >= at[|at| - spent - 1] + cfg.cleanRefill)
    && (spent == 0 && |at| > 0 ==> now >= at[|at| - 1] + cfg.cleanRefill)
    && (incident.clean.Some? ==>
          incident.clean.value.since <= now && (|at| > 0 ==> at[|at| - 1] <= incident.clean.value.since))
  }

  lemma ObserveBudgeted(cfg: CaptureConfig, s: CaptureState, at: seq<nat>, was: nat, sample: Option<CaptureSample>,
      now: nat)
    requires Budgeted(cfg, s, at, was) && was <= now
    ensures Budgeted(cfg, CheckCapture(cfg, s, sample, now).0, at, now)
  {}

  lemma AttemptBudgeted(cfg: CaptureConfig, s: CaptureState, at: seq<nat>, now: nat)
    requires cfg.Valid() && Budgeted(cfg, s, at, now) && Spaced(cfg, at) && CanRecover(cfg, s.incident, now)
    ensures Budgeted(cfg, AttemptCapture(s, now), at + [now], now)
  {}

  lemma AttemptSpaced(cfg: CaptureConfig, s: CaptureState, at: seq<nat>, now: nat)
    requires cfg.Valid() && Budgeted(cfg, s, at, now) && Spaced(cfg, at) && CanRecover(cfg, s.incident, now)
    ensures Spaced(cfg, at + [now])
  {
    var more, n := at + [now], |at|;
    if n > 0 {
      assert now - at[n - 1] >= Min(cfg.cooldown, cfg.cleanRefill);
    }
    if n >= cfg.maxAttempts {
      assert now - at[n - cfg.maxAttempts] >= cfg.cleanRefill;
    }
  }

  lemma DueCanRecover(cfg: CaptureConfig, s: CaptureState, sample: Option<CaptureSample>, now: nat)
    ensures var (s', d) := CheckCapture(cfg, s, sample, now); d.recoveryDue ==> CanRecover(cfg, s'.incident, now)
  {}

  lemma RunPrefix(cfg: CaptureConfig, checks: seq<Check>, n: nat)
    requires Run(cfg, checks) && n <= |checks|
    ensures Run(cfg, checks[..n])
  {
    forall k | 0 < k <= n
      ensures checks[..k] == checks[..n][..k] && checks[k - 1] == checks[..n][k - 1]
    {}
  }

  function LastTime(checks: seq<Check>): nat {
    if checks == [] then 0 else checks[|checks| - 1].now
  }

  lemma StartBudgeted(cfg: CaptureConfig)
    ensures Spaced(cfg, []) && Budgeted(cfg, FRESH_CAPTURE, [], 0)
  {}

  /** The rate bound, with the invariant that carries it. */
  lemma {:induction false} RunBudgeted(cfg: CaptureConfig, checks: seq<Check>)
    requires cfg.Valid() && Run(cfg, checks)
    ensures Spaced(cfg, Attempts(checks)) && Budgeted(cfg, After(cfg, checks), Attempts(checks), LastTime(checks))
  {
    hide CheckCapture, AttemptCapture, Spaced, Budgeted, CanRecover;
    StartBudgeted(cfg);
    if checks != [] {
      var n := |checks| - 1;
      var before, last := checks[..n], checks[n];
      RunPrefix(cfg, checks, n);
      RunBudgeted(cfg, before);
      assert LastTime(before) <= last.now && checks[..|checks|] == checks;
      var s, at := After(cfg, before), Attempts(before);
      ObserveBudgeted(cfg, s, at, LastTime(before), last.sample, last.now);
      if last.attempt {
        DueCanRecover(cfg, s, last.sample, last.now);
        AttemptBudgeted(cfg, CheckCapture(cfg, s, last.sample, last.now).0, at, last.now);
        AttemptSpaced(cfg, CheckCapture(cfg, s, last.sample, last.now).0, at, last.now);
      }
    }
  }

  /** For nondecreasing check times, any `maxAttempts` + 1 consecutive card cycles of one
      name span at least `cleanRefill`, and any two consecutive ones are at least
      min(`cooldown`, `cleanRefill`) apart. */
  lemma CaptureRateBound(cfg: CaptureConfig, checks: seq<Check>)
    requires cfg.Valid() && Run(cfg, checks)
    ensures Spaced(cfg, Attempts(checks))
  {
    RunBudgeted(cfg, checks);
  }

  // ---------------------------------------------------------------- evidence for a refill

  /** At check `k` the name was seen running and unmuted on node `id`, its bytes were known
      and fresh, and its xrun count had moved by less than the threshold since the check
      before, which saw the same node and was followed by no attempt. */
  predicate Evidence(cfg: CaptureConfig, checks: seq<Check>, k: nat, id: NodeIdentity)
    requires k < |checks|
  {
    && 0 < k && !checks[k - 1].attempt
    && Sees(checks[k].sample, id) && Sees(checks[k - 1].sample, id)
    && checks[k].sample.value.byteAge.Some? && checks[k].sample.value.byteAge.value < cfg.stall
    && var x, y := checks[k - 1].sample.value.xruns.value, checks[k].sample.value.xruns.value;
       x <= y && y - x < cfg.threshold
  }

  predicate Sees(sample: Option<CaptureSample>, id: NodeIdentity) {
    sample.Some? && Attended(sample.value) && sample.value.identity == id && sample.value.xruns.Some?
  }

  /** An unbroken run of evidence about `id`, from check `j` to the last. */
  ghost predicate CleanRun(cfg: CaptureConfig, checks: seq<Check>, j: nat, id: NodeIdentity) {
    j < |checks| && forall k :: j <= k < |checks| ==> Evidence(cfg, checks, k, id)
  }

  ghost predicate CleanSince(cfg: CaptureConfig, checks: seq<Check>, j: nat, clean: Clean) {
    CleanRun(cfg, checks, j, clean.identity) && checks[j].now == clean.since
  }

  /** What the state of a name rests on, in terms of the samples alone. */
  ghost predicate Grounded(cfg: CaptureConfig, checks: seq<Check>, s: CaptureState) {
    var n := |checks|;
    && (s.glitch.Some? ==>
          n > 0 && Sees(checks[n - 1].sample, s.glitch.value.identity)
          && checks[n - 1].sample.value.xruns == Some(s.glitch.value.previous))
    && (IncidentOf(s.incident).clean.Some? ==>
          exists j: nat :: CleanSince(cfg, checks, j, IncidentOf(s.incident).clean.value))
  }

  lemma ObserveGrounded(cfg: CaptureConfig, before: seq<Check>, s: CaptureState, last: Check)
    requires Grounded(cfg, before, s)
    requires s.glitch.Some? ==> before != [] && !before[|before| - 1].attempt
    ensures Grounded(cfg, before + [last], CheckCapture(cfg, s, last.sample, last.now).0)
  {
    var checks, n := before + [last], |before|;
    var s' := CheckCapture(cfg, s, last.sample, last.now).0;
    var clean := IncidentOf(s'.incident).clean;
    if clean.Some? {
      assert Evidence(cfg, checks, n, clean.value.identity);
      if clean == IncidentOf(s.incident).clean {
        var j: nat :| CleanSince(cfg, before, j, clean.value);
        forall k | j <= k < |checks|
          ensures Evidence(cfg, checks, k, clean.value.identity)
        {
          if k < n {
            assert Evidence(cfg, before, k, clean.value.identity);
          }
        }
        assert CleanSince(cfg, checks, j, clean.value);
      } else {
        assert CleanSince(cfg, checks, n, clean.value);
      }
    }
  }

  lemma {:induction false} RunGrounded(cfg: CaptureConfig, checks: seq<Check>)
    ensures Grounded(cfg, checks, After(cfg, checks))
    ensures checks != [] && checks[|checks| - 1].attempt ==> After(cfg, checks).glitch.None?
    ensures checks != [] ==> Grounded(cfg, checks, Observed(cfg, checks).0)
  {
    if checks != [] {
      var n := |checks| - 1;
      RunGrounded(cfg, checks[..n]);
      assert checks == checks[..n] + [checks[n]];
      ObserveGrounded(cfg, checks[..n], After(cfg, checks[..n]), checks[n]);
    }
  }

  /** A spent budget comes back only at the end of an unbroken run of evidence about one
      node, at every check of it, that spans at least `cleanRefill`. */
  lemma RefillNeedsEvidence(cfg: CaptureConfig, checks: seq<Check>)
    requires checks != [] && Spent(After(cfg, checks[..|checks| - 1])) > 0 && Spent(Observed(cfg, checks).0) == 0
    ensures exists j: nat, id ::
      CleanRun(cfg, checks, j, id) && checks[|checks| - 1].now >= checks[j].now + cfg.cleanRefill
  {
    RunGrounded(cfg, checks);
    var clean := IncidentOf(Observed(cfg, checks).0.incident).clean.value;
    var j: nat :| CleanSince(cfg, checks, j, clean);
  }

  // ---------------------------------------------------------------- sinks

  datatype SinkCheck = SinkCheck(sample: Option<SinkSample>, now: nat, attempt: bool)

  function SinkObserved(cfg: SinkConfig, checks: seq<SinkCheck>): SinkState
    requires checks != []
  {
    ObserveSink(cfg, SinkAfter(cfg, checks[..|checks| - 1]), checks[|checks| - 1].sample)
  }

  function SinkAfter(cfg: SinkConfig, checks: seq<SinkCheck>): SinkState {
    if checks == [] then FRESH_SINK
    else
      var last := checks[|checks| - 1];
      var s := ObserveSink(cfg, SinkAfter(cfg, checks[..|checks| - 1]), last.sample);
      if last.attempt then AttemptSink(s, last.now) else s
  }

  ghost predicate SinkRun(cfg: SinkConfig, checks: seq<SinkCheck>) {
    forall n :: 0 < n <= |checks| && checks[n - 1].attempt ==>
      SinkRecoveryDue(cfg, SinkObserved(cfg, checks[..n]), checks[n - 1].now)
  }

  /** At check `k` the hardware pointer of the same node had moved on since the check
      before, which no attempt followed; the sink was running, unmuted and without xrun. */
  predicate Advancing(checks: seq<SinkCheck>, k: nat)
    requires k < |checks|
  {
    && 0 < k && !checks[k - 1].attempt
    && Observable(checks[k].sample) && Observable(checks[k - 1].sample)
    && var was, now := checks[k - 1].sample.value, checks[k].sample.value;
       was.identity == now.identity && now.playback.value.state == Running
       && was.playback.value.hwPtr < now.playback.value.hwPtr
  }

  /** `count` consecutive advancing checks strictly after check `from` and before check `to`. */
  ghost predicate Advances(checks: seq<SinkCheck>, from: int, to: nat, count: nat) {
    exists j: nat :: AdvancesFrom(checks, from, to, count, j)
  }

  ghost predicate AdvancesFrom(checks: seq<SinkCheck>, from: int, to: nat, count: nat, j: nat) {
    from < j && j + count <= to <= |checks| && forall k :: j <= k < j + count ==> Advancing(checks, k)
  }

  /** The checks after which an attempt was made. */
  function SinkAttempts(checks: seq<SinkCheck>): (at: seq<nat>)
    ensures forall i :: 0 <= i < |at| ==> at[i] < |checks|
  {
    if checks == [] then []
    else
      var n, at := |checks| - 1, SinkAttempts(checks[..|checks| - 1]);
      if checks[n].attempt then at + [n] else at
  }

  /** Attempts in a row are a cooldown apart, and between the first and the last of one
      more than the budget the sink advanced for a whole refill. */
  ghost predicate SinkSpaced(cfg: SinkConfig, checks: seq<SinkCheck>, at: seq<nat>) {
    && (forall i :: 0 <= i < |at| ==> at[i] < |checks|)
    && (forall i :: 0 < i < |at| ==> checks[at[i]].now - checks[at[i - 1]].now >= cfg.cooldown)
    && (forall i :: 0 <= i && i + cfg.maxAttempts < |at| ==>
          Advances(checks, at[i], at[i + cfg.maxAttempts], cfg.cleanRefill))
  }

  ghost predicate SinkBudgeted(cfg: SinkConfig, checks: seq<SinkCheck>, s: SinkState, at: seq<nat>) {
    var n := |checks|;
    && s.attempts <= |at| && s.attempts <= cfg.maxAttempts
    && (forall i, j :: 0 <= i < j < |at| ==> at[i] < at[j] < n)
    && (|at| > 0 ==> at[|at| - 1] < n && s.lastAttempt == Some(checks[at[|at| - 1]].now))
    && (|at| == 0 ==> s.lastAttempt == None)
    && (0 < s.attempts < |at| ==>
          Advances(checks, at[|at| - s.attempts - 1], at[|at| - s.attempts], cfg.cleanRefill))
    && (s.attempts == 0 && |at| > 0 ==> Advances(checks, at[|at| - 1], n, cfg.cleanRefill))
    && SinkGrounded(cfg, checks, s, if |at| > 0 then at[|at| - 1] else -1)
  }

  /** The baseline is the last check's pointer; the clean count is of advancing checks
      since the last attempt. */
  ghost predicate SinkGrounded(cfg: SinkConfig, checks: seq<SinkCheck>, s: SinkState, attempted: int) {
    var n := |checks|;
    && (s.baseline.Some? ==>
          n > 0 && !checks[n - 1].attempt && Observable(checks[n - 1].sample)
          && s.baseline ==
            Some(Baseline(checks[n - 1].sample.value.identity, checks[n - 1].sample.value.playback.value.hwPtr)))
    && -1 <= attempted && s.clean <= n - 1 - attempted
    && (forall k :: n - s.clean <= k < n ==> Advancing(checks, k))
  }

  // One more check leaves the earlier ones what they were.
  lemma AdvancesExtend(checks: seq<SinkCheck>, last: SinkCheck, from: int, to: nat, count: nat)
    requires Advances(checks, from, to, count)
    ensures Advances(checks + [last], from, to, count) && Advances(checks + [last], from, to + 1, count)
  {
    var j: nat :| AdvancesFrom(checks, from, to, count, j);
    forall k | j <= k < j + count
      ensures Advancing(checks + [last], k)
    {
      assert Advancing(checks, k);
    }
    assert AdvancesFrom(checks + [last], from, to, count, j);
    assert AdvancesFrom(checks + [last], from, to + 1, count, j);
  }

  lemma SinkObserveGrounded(cfg: SinkConfig, before: seq<SinkCheck>, s: SinkState, attempted: int, last: SinkCheck)
    requires SinkGrounded(cfg, before, s, attempted) && attempted < |before| && !last.attempt
    ensures SinkGrounded(cfg, before + [last], ObserveSink(cfg, s, last.sample), attempted)
  {
    var checks, n := before + [last], |before|;
    var s' := ObserveSink(cfg, s, last.sample);
    if s'.clean > 0 {
      assert Advancing(checks, n);
      forall k | n + 1 - s'.clean <= k < n
        ensures Advancing(checks, k)
      {
        assert Advancing(before, k);
      }
    }
  }

  lemma AdvancesWiden(checks: seq<SinkCheck>, from: int, to: nat, count: nat, from': int, to': nat)
    requires Advances(checks, from, to, count) && from' <= from && to <= to' <= |checks|
    ensures Advances(checks, from', to', count)
  {
    var j: nat :| AdvancesFrom(checks, from, to, count, j);
    assert AdvancesFrom(checks, from', to', count, j);
  }

  lemma SpacedExtend(cfg: SinkConfig, before: seq<SinkCheck>, last: SinkCheck, at: seq<nat>)
    requires SinkSpaced(cfg, before, at)
    ensures SinkSpaced(cfg, before + [last], at)
  {
    var checks := before + [last];
    forall i | 0 <= i && i + cfg.maxAttempts < |at|
      ensures Advances(checks, at[i], at[i + cfg.maxAttempts], cfg.cleanRefill)
    {
      AdvancesExtend(before, last, at[i], at[i + cfg.maxAttempts], cfg.cleanRefill);
    }
  }

  lemma QuietCheckBudgeted(cfg: SinkConfig, before: seq<SinkCheck>, s: SinkState, at: seq<nat>, last: SinkCheck)
    requires cfg.Valid() && SinkBudgeted(cfg, before, s, at) && !last.attempt
    ensures SinkBudgeted(cfg, before + [last], ObserveSink(cfg, s, last.sample), at)
  {
    var checks, n := before + [last], |before|;
    var s', attempted := ObserveSink(cfg, s, last.sample), if |at| > 0 then at[|at| - 1] else -1;
    SinkObserveGrounded(cfg, before, s, attempted, last);
    if 0 < s.attempts < |at| {
      AdvancesExtend(before, last, at[|at| - s.attempts - 1], at[|at| - s.attempts], cfg.cleanRefill);
    }
    if s'.attempts == 0 && |at| > 0 {
      if s.attempts == 0 {
        AdvancesExtend(before, last, attempted, n, cfg.cleanRefill);
      } else {
        assert AdvancesFrom(checks, attempted, n + 1, cfg.cleanRefill, n + 1 - cfg.cleanRefill);
      }
    }
  }

  // Since the refill that the budget remembers, if any: the sink advanced before check `n`.
  lemma RefillBetween(cfg: SinkConfig, before: seq<SinkCheck>, s: SinkState, at: seq<nat>, i: nat)
    requires SinkBudgeted(cfg, before, s, at) && i < |at| - s.attempts
    ensures Advances(before, at[i], |before|, cfg.cleanRefill)
  {
    var o := |at| - s.attempts;
    if s.attempts == 0 {
      AdvancesWiden(before, at[o - 1], |before|, cfg.cleanRefill, at[i], |before|);
    } else {
      AdvancesWiden(before, at[o - 1], at[o], cfg.cleanRefill, at[i], |before|);
    }
  }

  lemma AttemptedCheckSpaced(cfg: SinkConfig, before: seq<SinkCheck>, s: SinkState, at: seq<nat>, last: SinkCheck)
    requires SinkBudgeted(cfg, before, s, at) && SinkSpaced(cfg, before, at)
    requires SinkRecoveryDue(cfg, ObserveSink(cfg, s, last.sample), last.now)
    ensures SinkSpaced(cfg, before + [last], at + [|before|])
  {
    var checks, n := before + [last], |before|;
    SpacedExtend(cfg, before, last, at);
    if |at| >= cfg.maxAttempts {
      var i := |at| - cfg.maxAttempts;
      RefillBetween(cfg, before, s, at, i);
      AdvancesExtend(before, last, at[i], n, cfg.cleanRefill);
    }
  }

  lemma AttemptedCheckBudgeted(cfg: SinkConfig, before: seq<SinkCheck>, s: SinkState, at: seq<nat>, last: SinkCheck)
    requires cfg.Valid() && SinkBudgeted(cfg, before, s, at)
    requires SinkRecoveryDue(cfg, ObserveSink(cfg, s, last.sample), last.now)
    ensures SinkBudgeted(cfg, before + [last], AttemptSink(ObserveSink(cfg, s, last.sample), last.now), at + [|before|])
  {
    var o := |at| - s.attempts;
    if 0 < s.attempts < |at| {
      AdvancesExtend(before, last, at[o - 1], at[o], cfg.cleanRefill);
    } else if s.attempts == 0 && |at| > 0 {
      AdvancesExtend(before, last, at[|at| - 1], |before|, cfg.cleanRefill);
    }
    hide Advances;
  }

  /** One more check of a run: what it leaves, and that an attempt at it was due. */
  lemma SinkRunStep(cfg: SinkConfig, checks: seq<SinkCheck>)
    requires SinkRun(cfg, checks) && checks != []
    ensures var before, last := checks[..|checks| - 1], checks[|checks| - 1];
      var s := ObserveSink(cfg, SinkAfter(cfg, before), last.sample);
      && SinkRun(cfg, before) && checks == before + [last]
      && (last.attempt ==> SinkRecoveryDue(cfg, s, last.now))
      && SinkAfter(cfg, checks) == (if last.attempt then AttemptSink(s, last.now) else s)
      && SinkAttempts(checks) == if last.attempt then SinkAttempts(before) + [|before|] else SinkAttempts(before)
  {
    hide ObserveSink, AttemptSink, SinkRecoveryDue;
    var n := |checks| - 1;
    var before := checks[..n];
    forall k | 0 < k <= n
      ensures checks[..k] == before[..k] && checks[k - 1] == before[k - 1]
    {}
    assert checks[..|checks|] == checks;
  }

  lemma {:induction false} SinkRunBudgeted(cfg: SinkConfig, checks: seq<SinkCheck>)
    requires cfg.Valid() && SinkRun(cfg, checks)
    ensures SinkSpaced(cfg, checks, SinkAttempts(checks))
    ensures SinkBudgeted(cfg, checks, SinkAfter(cfg, checks), SinkAttempts(checks))
  {
    if checks == [] {
      SinkStart(cfg);
    } else {
      hide ObserveSink, AttemptSink, SinkRecoveryDue, SinkSpaced, SinkBudgeted, SinkRun, SinkAfter, SinkAttempts;
      var before, last := checks[..|checks| - 1], checks[|checks| - 1];
      SinkRunStep(cfg, checks);
      SinkRunBudgeted(cfg, before);
      if last.attempt {
        AttemptedCheckSpaced(cfg, before, SinkAfter(cfg, before), SinkAttempts(before), last);
        AttemptedCheckBudgeted(cfg, before, SinkAfter(cfg, before), SinkAttempts(before), last);
      } else {
        QuietCheckBudgeted(cfg, before, SinkAfter(cfg, before), SinkAttempts(before), last);
        SpacedExtend(cfg, before, last, SinkAttempts(before));
      }
    }
  }

  lemma SinkStart(cfg: SinkConfig)
    ensures SinkSpaced(cfg, [], SinkAttempts([])) && SinkBudgeted(cfg, [], SinkAfter(cfg, []), SinkAttempts([]))
  {}

  /** For any run, sink attempts in a row are at least `cooldown` apart, and among any
      `maxAttempts` + 1 of them the sink advanced for `cleanRefill` consecutive checks. */
  lemma SinkRateBound(cfg: SinkConfig, checks: seq<SinkCheck>)
    requires cfg.Valid() && SinkRun(cfg, checks)
    ensures SinkSpaced(cfg, checks, SinkAttempts(checks))
  {
    SinkRunBudgeted(cfg, checks);
  }

  // ---------------------------------------------------------------- the constants in use

  const CAPTURE_DEFAULTS := CaptureConfig(50, 2, 8, 60, 2, 300)
  const SINK_DEFAULTS := SinkConfig(60, 2, 6)

  /** With the shipped constants (seconds): a card is never cycled twice within a minute,
      nor three times within five. */
  lemma ShippedCaptureBudget(checks: seq<Check>)
    requires Run(CAPTURE_DEFAULTS, checks)
    ensures var at := Attempts(checks);
      && (forall i :: 0 < i < |at| ==> at[i - 1] + 60 <= at[i])
      && (forall i :: 1 < i < |at| ==> at[i - 2] + 300 <= at[i])
  {
    CaptureRateBound(CAPTURE_DEFAULTS, checks);
    var at := Attempts(checks);
    forall i | 1 < i < |at|
      ensures at[i - 2] + 300 <= at[i]
    {
      assert at[(i - 2) + CAPTURE_DEFAULTS.maxAttempts] - at[i - 2] >= 300;
    }
  }

  // ---------------------------------------------------------------- some of the attempts

  /** `some` is taken from `all`, in order, at the places `picks`. */
  ghost predicate Picked(some: seq<nat>, all: seq<nat>, picks: seq<nat>) {
    && |picks| == |some|
    && (forall i :: 0 <= i < |picks| ==> picks[i] < |all| && some[i] == all[picks[i]])
    && (forall i, j :: 0 <= i < j < |picks| ==> picks[i] < picks[j])
  }

  lemma PickedMore(some: seq<nat>, all: seq<nat>, picks: seq<nat>, x: nat)
    requires Picked(some, all, picks)
    ensures Picked(some, all + [x], picks) && Picked(some + [x], all + [x], picks + [|all|])
  {}

  lemma {:induction false} PicksApart(some: seq<nat>, all: seq<nat>, picks: seq<nat>, i: nat, n: nat)
    requires Picked(some, all, picks) && i + n < |picks|
    ensures picks[i] + n <= picks[i + n]
  {
    if n > 0 {
      PicksApart(some, all, picks, i, n - 1);
    }
  }

  lemma AttemptsGrow(cfg: CaptureConfig, checks: seq<Check>)
    requires cfg.Valid() && Run(cfg, checks)
    ensures forall i, j :: 0 <= i <= j < |Attempts(checks)| ==> Attempts(checks)[i] <= Attempts(checks)[j]
  {
    RunBudgeted(cfg, checks);
  }

  lemma SinkAttemptsGrow(cfg: SinkConfig, checks: seq<SinkCheck>)
    requires cfg.Valid() && SinkRun(cfg, checks)
    ensures forall i, j :: 0 <= i < j < |SinkAttempts(checks)| ==> SinkAttempts(checks)[i] < SinkAttempts(checks)[j]
  {
    SinkRunBudgeted(cfg, checks);
  }

  /** Leaving attempts out keeps the others apart. */
  lemma SomeSpaced(cfg: CaptureConfig, some: seq<nat>, all: seq<nat>, picks: seq<nat>)
    requires Spaced(cfg, all) && Picked(some, all, picks)
    requires forall i, j :: 0 <= i <= j < |all| ==> all[i] <= all[j]
    ensures Spaced(cfg, some)
  {
    forall i | 0 < i < |some|
      ensures some[i] - some[i - 1] >= Min(cfg.cooldown, cfg.cleanRefill)
    {
      assert picks[i - 1] < picks[i];
      assert all[picks[i] - 1] >= all[picks[i - 1]];
    }
    forall i | 0 <= i && i + cfg.maxAttempts < |some|
      ensures some[i + cfg.maxAttempts] - some[i] >= cfg.cleanRefill
    {
      PicksApart(some, all, picks, i, cfg.maxAttempts);
      assert all[picks[i] + cfg.maxAttempts] - all[picks[i]] >= cfg.cleanRefill;
    }
  }

  lemma {:induction false} SinkTimesGrow(cfg: SinkConfig, checks: seq<SinkCheck>, at: seq<nat>, i: nat, j: nat)
    requires SinkSpaced(cfg, checks, at) && i <= j < |at|
    ensures checks[at[i]].now <= checks[at[j]].now
  {
    if i < j {
      SinkTimesGrow(cfg, checks, at, i, j - 1);
    }
  }

  lemma SomeSinkSpaced(cfg: SinkConfig, checks: seq<SinkCheck>, some: seq<nat>, all: seq<nat>, picks: seq<nat>)
    requires SinkSpaced(cfg, checks, all) && Picked(some, all, picks)
    requires forall i, j :: 0 <= i < j < |all| ==> all[i] < all[j]
    ensures SinkSpaced(cfg, checks, some)
  {
    forall i | 0 < i < |some|
      ensures checks[some[i]].now - checks[some[i - 1]].now >= cfg.cooldown
    {
      SinkTimesGrow(cfg, checks, all, picks[i - 1], picks[i] - 1);
    }
    forall i | 0 <= i && i + cfg.maxAttempts < |some|
      ensures Advances(checks, some[i], some[i + cfg.maxAttempts], cfg.cleanRefill)
    {
      PicksApart(some, all, picks, i, cfg.maxAttempts);
      var to := picks[i] + cfg.maxAttempts;
      assert all[to] <= all[picks[i + cfg.maxAttempts]];
      AdvancesWiden(checks, all[picks[i]], all[to], cfg.cleanRefill, some[i], some[i + cfg.maxAttempts]);
    }
  }
}
