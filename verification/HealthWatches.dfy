/** The health watches (core health.rs) as the objects they are: tables by stable name,
    updated in place, each name by the policy for that name alone. */
module HealthWatches {
  import opened Wrappers
  import opened Model
  import opened HealthPolicy

  class GlitchWatch {
    const threshold: nat
    const confirm: nat
    var states: map<string, GlitchState>

    constructor (threshold: nat, confirm: nat)
      ensures this.threshold == threshold && this.confirm == (if confirm < 1 then 1 else confirm) && states == map[]
    {
      this.threshold := threshold;
      this.confirm := if confirm < 1 then 1 else confirm;
      states := map[];
    }

    function Of(name: string): Option<GlitchState>
      reads this
    {
      if name in states then Some(states[name]) else None
    }

    method Pause(name: string)
      modifies this
      ensures states == old(states) - {name}
    {
      states := states - {name};
    }

    method Observe(name: string, identity: NodeIdentity, xruns: nat) returns (glitch: bool)
      modifies this
      ensures states == old(states)[name := GlitchObserve(threshold, old(Of(name)), identity, xruns)]
      ensures glitch <==> states[name].delta.Some? && states[name].delta.value >= threshold
    {
      if name in states {
        var state := states[name];
        if state.identity == identity && xruns >= state.previous {
          var delta := xruns - state.previous;
          state := state.(previous := xruns, delta := Some(delta));
          state := state.(streak := if delta >= threshold then SatInc(state.streak) else 0);
          states := states[name := state];
          return delta >= threshold;
        }
      }
      states := states[name := GlitchState(identity, xruns, 0, None)];
      glitch := false;
    }
  }

  class StallWatch {
    const stall: nat
    const cooldown: nat
    const maxAttempts: nat
    const cleanRefill: nat
    var incidents: map<string, Incident>

    constructor (stall: nat, cooldown: nat, maxAttempts: nat, cleanRefill: nat)
      ensures this.stall == stall && this.cooldown == cooldown
      ensures this.maxAttempts == maxAttempts && this.cleanRefill == cleanRefill && incidents == map[]
    {
      this.stall, this.cooldown, this.maxAttempts, this.cleanRefill := stall, cooldown, maxAttempts, cleanRefill;
      incidents := map[];
    }

    function Of(name: string): Option<Incident>
      reads this
    {
      if name in incidents then Some(incidents[name]) else None
    }

    method Pause(name: string)
      modifies this
      ensures Of(name) == Unclean(old(Of(name)))
      ensures forall n :: n != name ==> Of(n) == old(Of(n))
    {
      if name in incidents {
        incidents := incidents[name := incidents[name].(clean := None)];
      }
    }

    /** Spent before the remedy, whatever becomes of it. */
    method RecordAttempt(name: string, now: nat)
      modifies this
      ensures Of(name) == Some(Incident(SatInc(IncidentOf(old(Of(name))).attempts), Some(now), None))
      ensures forall n :: n != name ==> Of(n) == old(Of(n))
    {
      var state := IncidentOf(Of(name));
      state := state.(attempts := SatInc(state.attempts));
      state := state.(lastAttempt := Some(now));
      state := state.(clean := None);
      incidents := incidents[name := state];
    }

    method RecordRecovered(cfg: CaptureConfig, name: string, identity: NodeIdentity, now: nat)
      requires cfg.cleanRefill == cleanRefill
      modifies this
      ensures Of(name) == Some(Recovered(cfg, old(Of(name)), identity, now))
      ensures forall n :: n != name ==> Of(n) == old(Of(n))
    {
      var state := IncidentOf(Of(name));
      var since := now;
      if state.clean.Some? && state.clean.value.identity == identity && now >= state.clean.value.since {
        since := state.clean.value.since;
      } else {
        state := state.(clean := Some(Clean(identity, now)));
      }
      if now - since >= cleanRefill {
        state := state.(attempts := 0, lastAttempt := None);
      }
      incidents := incidents[name := state];
    }
  }

  class CaptureWatch {
    const glitch: GlitchWatch
    const budget: StallWatch
    var noData: set<string>

    constructor (glitch: GlitchWatch, budget: StallWatch)
      ensures this.glitch == glitch && this.budget == budget && noData == {}
    {
      this.glitch, this.budget, noData := glitch, budget, {};
    }

    function Config(): CaptureConfig {
      CaptureConfig(glitch.threshold, glitch.confirm, budget.stall, budget.cooldown, budget.maxAttempts,
        budget.cleanRefill)
    }

    function State(name: string): CaptureState
      reads this, glitch, budget
    {
      CaptureState(glitch.Of(name), budget.Of(name), name in noData)
    }

    ghost predicate Fresh()
      reads this, glitch, budget
    {
      glitch.states == map[] && budget.incidents == map[] && noData == {}
    }

    method Pause(name: string)
      modifies this, glitch, budget
      ensures State(name) == PauseCapture(old(State(name)))
      ensures forall n :: n != name ==> State(n) == old(State(n))
    {
      glitch.Pause(name);
      budget.Pause(name);
      noData := noData - {name};
    }

    method Observe(name: string, observed: Option<CaptureSample>, now: nat) returns (d: CaptureDecision)
      modifies this, glitch, budget
      ensures (State(name), d) == CheckCapture(Config(), old(State(name)), observed, now)
      ensures forall n :: n != name ==> State(n) == old(State(n))
    {
      if observed.None? || !observed.value.running || observed.value.muted != Some(false) {
        Pause(name);
        return NO_DECISION;
      }
      var sample := observed.value;
      if sample.xruns.Some? {
        var glitched := glitch.Observe(name, sample.identity, sample.xruns.value);
      } else {
        glitch.Pause(name);
      }
      var starved := sample.byteAge.Some? && sample.byteAge.value >= budget.stall;
      var justStarved := starved && name !in noData;
      noData := if starved then noData + {name} else noData - {name};
      var g := glitch.Of(name);
      var healthy := g.Some? && g.value.delta.Some? && g.value.delta.value < glitch.threshold
        && sample.byteAge.Some? && sample.byteAge.value < budget.stall;
      if healthy {
        budget.RecordRecovered(Config(), name, sample.identity, now);
      } else {
        budget.Pause(name);
      }
      var glitching := g.Some? && g.value.streak >= glitch.confirm;
      d := CaptureDecision(starved, justStarved, glitching, g.Some? && g.value.streak == glitch.confirm, healthy,
        (starved || glitching) && CanRecover(Config(), budget.Of(name), now));
    }

    method RecordAttempt(name: string, now: nat)
      modifies this, glitch, budget
      ensures State(name) == AttemptCapture(old(State(name)), now)
      ensures forall n :: n != name ==> State(n) == old(State(n))
    {
      budget.RecordAttempt(name, now);
      glitch.Pause(name);
    }
  }

  class SinkStallWatch {
    const cfg: SinkConfig
    var incidents: map<string, SinkState>

    constructor (cooldown: nat, maxAttempts: nat, cleanRefill: nat)
      ensures cfg == SinkConfig(cooldown, maxAttempts, if cleanRefill < 1 then 1 else cleanRefill) && incidents == map[]
    {
      cfg := SinkConfig(cooldown, maxAttempts, if cleanRefill < 1 then 1 else cleanRefill);
      incidents := map[];
    }

    function State(name: string): SinkState
      reads this
    {
      if name in incidents then incidents[name] else FRESH_SINK
    }

    method Pause(name: string)
      modifies this
      ensures State(name) == PauseSink(old(State(name)))
      ensures forall n :: n != name ==> State(n) == old(State(n))
    {
      if name in incidents {
        incidents := incidents[name := PauseSink(incidents[name])];
      }
    }

    method Observe(name: string, observed: Option<SinkSample>) returns (stalled: bool)
      modifies this
      ensures State(name) == ObserveSink(cfg, old(State(name)), observed)
      ensures stalled == State(name).stalled
      ensures forall n :: n != name ==> State(n) == old(State(n))
    {
      if !Observable(observed) {
        Pause(name);
        return false;
      }
      var sample, playback := observed.value, observed.value.playback.value;
      var state := State(name);
      state := state.(wasStalled := state.stalled);
      var previous := state.baseline;
      state := state.(baseline := Some(Baseline(sample.identity, playback.hwPtr)));
      if previous.Some? && (previous.value.identity != sample.identity || previous.value.ptr > playback.hwPtr) {
        previous := None;
      }
      if previous.None? {
        state := state.(clean := 0, wasStalled := false);
      }
      state := state.(stalled := playback.state == Xrun || (previous.Some? && previous.value.ptr == playback.hwPtr));
      if state.stalled {
        state := state.(clean := 0);
      } else if previous.Some? {
        state := state.(clean := SatInc(state.clean));
        if state.clean >= cfg.cleanRefill {
          state := state.(attempts := 0);
        }
      }
      incidents := incidents[name := state];
      stalled := state.stalled;
    }

    method RecordAttempt(name: string, now: nat)
      modifies this
      ensures State(name) == AttemptSink(old(State(name)), now)
      ensures forall n :: n != name ==> State(n) == old(State(n))
    {
      var state := State(name);
      state := state.(attempts := SatInc(state.attempts));
      state := state.(lastAttempt := Some(now), baseline := None, clean := 0);
      incidents := incidents[name := state];
    }
  }

  datatype HealthSamples = HealthSamples(
    captures: Ordered<string, Option<CaptureSample>>, sinks: Ordered<string, Option<SinkSample>>)

  datatype HealthReport = HealthReport(
    captures: map<string, CaptureDecision>, sinks: map<string, SinkDecision>, known: bool)

  // What a whole observation says of one name: absent and unknown are alike.
  function CaptureIn(samples: Option<HealthSamples>, name: string): Option<CaptureSample> {
    if samples.Some? && name in samples.value.captures.at then samples.value.captures.at[name] else None
  }

  function SinkIn(samples: Option<HealthSamples>, name: string): Option<SinkSample> {
    if samples.Some? && name in samples.value.sinks.at then samples.value.sinks.at[name] else None
  }

  class HealthWatch {
    const capture: CaptureWatch
    const sink: SinkStallWatch
    var captures: set<string>
    var sinks: set<string>

    constructor (capture: CaptureWatch, sink: SinkStallWatch)
      requires capture.Fresh() && sink.incidents == map[]
      ensures this.capture == capture && this.sink == sink && Tracking()
      ensures forall n :: capture.State(n) == FRESH_CAPTURE && sink.State(n) == FRESH_SINK
    {
      this.capture, this.sink, captures, sinks := capture, sink, {}, {};
    }

    /** Whatever is being compared or timed is tracked, so that its absence is noticed. */
    ghost predicate Tracking()
      reads this, capture, capture.glitch, capture.budget, sink
    {
      && (forall n :: n !in captures ==> Idle(capture.State(n)))
      && (forall n :: n !in sinks ==> sink.State(n) == PauseSink(sink.State(n)))
    }

    method PauseCaptures(names: set<string>)
      modifies capture, capture.glitch, capture.budget
      ensures forall n ::
        capture.State(n) == if n in names then PauseCapture(old(capture.State(n))) else old(capture.State(n))
    {
      var todo := names;
      while todo != {}
        invariant todo <= names
        invariant forall n ::
          capture.State(n) == if n in names && n !in todo then PauseCapture(old(capture.State(n)))
            else old(capture.State(n))
        decreases |todo|
      {
        var name :| name in todo;
        capture.Pause(name);
        todo := todo - {name};
      }
    }

    method PauseSinks(names: set<string>)
      modifies sink
      ensures forall n :: sink.State(n) == if n in names then PauseSink(old(sink.State(n))) else old(sink.State(n))
    {
      var todo := names;
      while todo != {}
        invariant todo <= names
        invariant forall n ::
          sink.State(n) == if n in names && n !in todo then PauseSink(old(sink.State(n))) else old(sink.State(n))
        decreases |todo|
      {
        var name :| name in todo;
        sink.Pause(name);
        todo := todo - {name};
      }
    }

    method CheckCaptures(samples: Ordered<string, Option<CaptureSample>>, now: nat)
      returns (report: map<string, CaptureDecision>)
      modifies capture, capture.glitch, capture.budget
      ensures forall n :: n !in samples.at ==> capture.State(n) == old(capture.State(n))
      ensures report.Keys == samples.at.Keys
      ensures forall n :: n in samples.at ==>
        (capture.State(n), report[n]) == CheckCapture(capture.Config(), old(capture.State(n)), samples.at[n], now)
    {
      report := map[];
      for i := 0 to |samples.keys|
        invariant forall n :: n in report <==> n in samples.keys[..i]
        invariant forall n :: n !in samples.keys[..i] ==> capture.State(n) == old(capture.State(n))
        invariant forall n :: n in samples.keys[..i] ==>
          (capture.State(n), report[n]) == CheckCapture(capture.Config(), old(capture.State(n)), samples.at[n], now)
      {
        var name := samples.keys[i];
        assert name !in samples.keys[..i];
        var decision := capture.Observe(name, samples.at[name], now);
        report := report[name := decision];
        assert samples.keys[..i + 1] == samples.keys[..i] + [name];
      }
      assert samples.keys[..|samples.keys|] == samples.keys;
    }

    method CheckSinks(samples: Ordered<string, Option<SinkSample>>, now: nat)
      returns (report: map<string, SinkDecision>)
      modifies sink
      ensures forall n :: n !in samples.at ==> sink.State(n) == old(sink.State(n))
      ensures report.Keys == samples.at.Keys
      ensures forall n :: n in samples.at ==>
        (sink.State(n), report[n]) == CheckSink(sink.cfg, old(sink.State(n)), samples.at[n], now)
    {
      report := map[];
      for i := 0 to |samples.keys|
        invariant forall n :: n in report <==> n in samples.keys[..i]
        invariant forall n :: n !in samples.keys[..i] ==> sink.State(n) == old(sink.State(n))
        invariant forall n :: n in samples.keys[..i] ==>
          (sink.State(n), report[n]) == CheckSink(sink.cfg, old(sink.State(n)), samples.at[n], now)
      {
        var name := samples.keys[i];
        assert name !in samples.keys[..i];
        var stalled := sink.Observe(name, samples.at[name]);
        var state := sink.State(name);
        report := report[name :=
          SinkDecision(stalled, state.stalled && !state.wasStalled, SinkRecoveryDue(sink.cfg, state, now))];
        assert samples.keys[..i + 1] == samples.keys[..i] + [name];
      }
      assert samples.keys[..|samples.keys|] == samples.keys;
    }

    /** Captures: names that went are paused, the tracked set is today's, each sample is checked. */
    method ObserveCaptures(samples: Ordered<string, Option<CaptureSample>>, now: nat)
      returns (report: map<string, CaptureDecision>)
      requires Tracking()
      modifies this`captures, capture, capture.glitch, capture.budget
      ensures Tracking() && captures == samples.at.Keys && report.Keys == samples.at.Keys
      ensures forall n :: n !in samples.at ==> capture.State(n) == PauseCapture(old(capture.State(n)))
      ensures forall n :: n in samples.at ==>
        (capture.State(n), report[n]) == CheckCapture(capture.Config(), old(capture.State(n)), samples.at[n], now)
    {
      hide CheckCapture;
      PauseCaptures(captures - samples.at.Keys);
      captures := samples.at.Keys;
      report := CheckCaptures(samples, now);
    }

    method ObserveSinks(samples: Ordered<string, Option<SinkSample>>, now: nat)
      returns (report: map<string, SinkDecision>)
      requires Tracking()
      modifies this`sinks, sink
      ensures Tracking() && sinks == samples.at.Keys && report.Keys == samples.at.Keys
      ensures forall n :: n !in samples.at ==> sink.State(n) == PauseSink(old(sink.State(n)))
      ensures forall n :: n in samples.at ==>
        (sink.State(n), report[n]) == CheckSink(sink.cfg, old(sink.State(n)), samples.at[n], now)
    {
      hide CheckSink;
      PauseSinks(sinks - samples.at.Keys);
      sinks := samples.at.Keys;
      report := CheckSinks(samples, now);
    }

    /** A whole check is one check of every name there is, each by itself; a name that is
        missing, or an observation that failed, counts as an unknown sample of it. */
    method Observe(samples: Option<HealthSamples>, now: nat) returns (report: HealthReport)
      requires Tracking()
      modifies this, capture, capture.glitch, capture.budget, sink
      ensures Tracking()
      ensures forall n ::
        capture.State(n) == CheckCapture(capture.Config(), old(capture.State(n)), CaptureIn(samples, n), now).0
      ensures forall n :: sink.State(n) == CheckSink(sink.cfg, old(sink.State(n)), SinkIn(samples, n), now).0
      ensures report.known <==> samples.Some?
      ensures report.captures.Keys == if samples.Some? then samples.value.captures.at.Keys else {}
      ensures report.sinks.Keys == if samples.Some? then samples.value.sinks.at.Keys else {}
      ensures report.captures.Keys <= captures && report.sinks.Keys <= sinks
      ensures forall n :: n in report.captures ==>
        report.captures[n] == CheckCapture(capture.Config(), old(capture.State(n)), CaptureIn(samples, n), now).1
      ensures forall n :: n in report.sinks ==>
        report.sinks[n] == CheckSink(sink.cfg, old(sink.State(n)), SinkIn(samples, n), now).1
    {
      if samples.None? {
        PauseCaptures(captures);
        PauseSinks(sinks);
        return HealthReport(map[], map[], false);
      }
      var decisions := ObserveCaptures(samples.value.captures, now);
      var stalls := ObserveSinks(samples.value.sinks, now);
      report := HealthReport(decisions, stalls, true);
    }
  }
}
