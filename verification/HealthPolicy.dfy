/** Health policy for one name (core health.rs): what a single check, or a recovery
    attempt, does to the state kept under one stable node name. */
module HealthPolicy {
  import opened Wrappers
  import opened Model

  const U32_MAX: nat := 0xFFFF_FFFF

  function SatInc(n: nat): nat {
    if n < U32_MAX then n + 1 else n
  }

  // ---------------------------------------------------------------- captures

  datatype CaptureConfig = CaptureConfig(
    threshold: nat, confirm: nat,
    stall: nat, cooldown: nat, maxAttempts: nat, cleanRefill: nat)
  {
    predicate Valid() {
      1 <= confirm <= U32_MAX && maxAttempts <= U32_MAX
    }
  }

  // Absent observations are None throughout: mute, xrun count, age of received bytes.
  datatype CaptureSample = CaptureSample(
    identity: NodeIdentity, running: bool, muted: Option<bool>, xruns: Option<nat>, byteAge: Option<nat>)

  datatype GlitchState = GlitchState(identity: NodeIdentity, previous: nat, streak: nat, delta: Option<nat>)

  datatype Clean = Clean(identity: NodeIdentity, since: nat)

  datatype Incident = Incident(attempts: nat, lastAttempt: Option<nat>, clean: Option<Clean>)

  /** Everything the capture watch remembers under one name. */
  datatype CaptureState = CaptureState(glitch: Option<GlitchState>, incident: Option<Incident>, noData: bool)

  const FRESH_CAPTURE := CaptureState(None, None, false)

  datatype CaptureDecision = CaptureDecision(
    noData: bool, justNoData: bool, glitching: bool, justGlitching: bool, healthy: bool, recoveryDue: bool)

  const NO_DECISION := CaptureDecision(false, false, false, false, false, false)

  function IncidentOf(i: Option<Incident>): Incident {
    if i.Some? then i.value else Incident(0, None, None)
  }

  function GlitchObserve(threshold: nat, g: Option<GlitchState>, identity: NodeIdentity, xruns: nat): GlitchState {
    if g.Some? && g.value.identity == identity && xruns >= g.value.previous then
      var delta := xruns - g.value.previous;
      GlitchState(identity, xruns, if delta >= threshold then SatInc(g.value.streak) else 0, Some(delta))
    else
      GlitchState(identity, xruns, 0, None)
  }

  function Unclean(i: Option<Incident>): Option<Incident> {
    if i.Some? then Some(i.value.(clean := None)) else None
  }

  function CanRecover(cfg: CaptureConfig, i: Option<Incident>, now: nat): bool {
    var incident := IncidentOf(i);
    incident.attempts < cfg.maxAttempts
    && (incident.lastAttempt.Some? ==>
          now >= incident.lastAttempt.value && now - incident.lastAttempt.value >= cfg.cooldown)
  }

  function Recovered(cfg: CaptureConfig, i: Option<Incident>, identity: NodeIdentity, now: nat): Incident {
    var incident := IncidentOf(i);
    var clean := if incident.clean.Some? && incident.clean.value.identity == identity
      && now >= incident.clean.value.since
      then incident.clean.value else Clean(identity, now);
    if now - clean.since >= cfg.cleanRefill then Incident(0, None, Some(clean)) else incident.(clean := Some(clean))
  }

  function PauseCapture(s: CaptureState): CaptureState {
    CaptureState(None, Unclean(s.incident), false)
  }

  predicate Attended(sample: CaptureSample) {
    sample.running && sample.muted == Some(false)
  }

  /** What the glitch watch keeps of this sample. */
  function GlitchAfter(cfg: CaptureConfig, s: CaptureState, sample: CaptureSample): Option<GlitchState> {
    if sample.xruns.Some? then Some(GlitchObserve(cfg.threshold, s.glitch, sample.identity, sample.xruns.value))
      else None
  }

  predicate Healthy(cfg: CaptureConfig, glitch: Option<GlitchState>, sample: CaptureSample) {
    glitch.Some? && glitch.value.delta.Some? && glitch.value.delta.value < cfg.threshold
    && sample.byteAge.Some? && sample.byteAge.value < cfg.stall
  }

  function CheckCapture(cfg: CaptureConfig, s: CaptureState, sample: Option<CaptureSample>, now: nat)
    : (r: (CaptureState, CaptureDecision))
  {
    if sample.None? || !Attended(sample.value) then (PauseCapture(s), NO_DECISION)
    else
      var glitch := GlitchAfter(cfg, s, sample.value);
      var noData := sample.value.byteAge.Some? && sample.value.byteAge.value >= cfg.stall;
      var healthy := Healthy(cfg, glitch, sample.value);
      var incident := if healthy then Some(Recovered(cfg, s.incident, sample.value.identity, now))
        else Unclean(s.incident);
      var glitching := glitch.Some? && glitch.value.streak >= cfg.confirm;
      (CaptureState(glitch, incident, noData),
       CaptureDecision(noData, noData && !s.noData, glitching, glitch.Some? && glitch.value.streak == cfg.confirm,
         healthy, (noData || glitching) && CanRecover(cfg, incident, now)))
  }

  function AttemptCapture(s: CaptureState, now: nat): CaptureState {
    CaptureState(None, Some(Incident(SatInc(IncidentOf(s.incident).attempts), Some(now), None)), s.noData)
  }

  function Spent(s: CaptureState): nat {
    IncidentOf(s.incident).attempts
  }

  /** No clean interval runs and no counter is being compared. */
  predicate Idle(s: CaptureState) {
    s == PauseCapture(s)
  }

  // ---------------------------------------------------------------- sinks

  datatype SinkConfig = SinkConfig(cooldown: nat, maxAttempts: nat, cleanRefill: nat) {
    predicate Valid() {
      maxAttempts <= U32_MAX && 1 <= cleanRefill <= U32_MAX
    }
  }

  datatype PlaybackState = Running | Xrun | Other

  datatype Playback = Playback(hwPtr: nat, state: PlaybackState)

  datatype SinkSample = SinkSample(
    identity: NodeIdentity, running: bool, muted: Option<bool>, playback: Option<Playback>)

  datatype Baseline = Baseline(identity: NodeIdentity, ptr: nat)

  datatype SinkState = SinkState(
    baseline: Option<Baseline>, stalled: bool, wasStalled: bool, clean: nat, attempts: nat, lastAttempt: Option<nat>)

  const FRESH_SINK := SinkState(None, false, false, 0, 0, None)

  datatype SinkDecision = SinkDecision(stalled: bool, justStalled: bool, recoveryDue: bool)

  predicate Observable(sample: Option<SinkSample>) {
    sample.Some? && sample.value.running && sample.value.muted == Some(false)
    && sample.value.playback.Some? && sample.value.playback.value.state != Other
  }

  function PauseSink(s: SinkState): SinkState {
    s.(baseline := None, stalled := false, wasStalled := false, clean := 0)
  }

  function ObserveSink(cfg: SinkConfig, s: SinkState, sample: Option<SinkSample>): SinkState {
    if !Observable(sample) then PauseSink(s)
    else
      var p := sample.value.playback.value;
      var identity := sample.value.identity;
      var comparable := s.baseline.Some? && s.baseline.value.identity == identity && s.baseline.value.ptr <= p.hwPtr;
      var stalled := p.state == Xrun || (comparable && s.baseline.value.ptr == p.hwPtr);
      var clean := if stalled || !comparable then 0 else SatInc(s.clean);
      SinkState(Some(Baseline(identity, p.hwPtr)), stalled, comparable && s.stalled, clean,
        if !stalled && comparable && clean >= cfg.cleanRefill then 0 else s.attempts, s.lastAttempt)
  }

  predicate SinkRecoveryDue(cfg: SinkConfig, s: SinkState, now: nat) {
    s.stalled && s.attempts < cfg.maxAttempts
    && (s.lastAttempt.Some? ==> now >= s.lastAttempt.value && now - s.lastAttempt.value >= cfg.cooldown)
  }

  function CheckSink(cfg: SinkConfig, s: SinkState, sample: Option<SinkSample>, now: nat): (SinkState, SinkDecision) {
    var s' := ObserveSink(cfg, s, sample);
    (s', SinkDecision(s'.stalled, s'.stalled && !s'.wasStalled, SinkRecoveryDue(cfg, s', now)))
  }

  function AttemptSink(s: SinkState, now: nat): SinkState {
    s.(attempts := SatInc(s.attempts), lastAttempt := Some(now), baseline := None, clean := 0)
  }
}
