/** What the desired matrix asks of every cell, and what it means for a cell route
    to be audible (mixer.rs). */
module Matrix {
  import opened Wrappers
  import opened Model
  import opened AudioServer

  datatype RouteSpec = RouteSpec(
    source: NodeIdentity, target: Option<NodeIdentity>, description: Option<string>)

  // The level command last known to have succeeded, and on which node.
  datatype Applied = Applied(identity: NodeIdentity, level: real, muted: bool)

  datatype Route = Route(
    spec: RouteSpec, name: string, owner: Owner, applied: Option<Applied>, node: Option<nat>, missing: nat)

  /** What the rest of a cycle has found before routes are touched: mixes whose
      master is ready, effect outputs, app intakes and monitor decisions. */
  datatype Findings = Findings(
    ready: set<string>,
    effective: map<string, Option<NodeIdentity>>,
    intakes: map<string, Option<NodeIdentity>>,
    outputs: map<string, Result<Option<NodeIdentity>>>)

  // ---------------------------------------------------------------- the desired matrix

  function CellState(d: Desired, s: string, m: string): LevelState {
    var key := CellKey(s, m);
    if key in d.matrix.cells.at then d.matrix.cells.at[key] else LevelState(0.0, false, map[])
  }

  function Volume(d: Desired, key: RouteKey): real
    requires key.Cell?
  {
    CellState(d, key.source, key.mix).volume
  }

  function LevelOf(d: Desired, key: RouteKey): real
    requires key.Cell? && key.source in d.sources.at
  {
    Volume(d, key) * d.sources.at[key.source].level
  }

  predicate MutedIn(d: Desired, key: RouteKey)
    requires key.Cell? && key.source in d.sources.at
  {
    var source := d.sources.at[key.source];
    source.muted || CellState(d, key.source, key.mix).muted || source.level <= 0.0
  }

  /** A cell route that a full pass keeps or opens. */
  predicate Wanted(d: Desired, key: RouteKey) {
    key.Cell? && key.source in d.sources.at && key.mix in d.mixes.at && Volume(d, key) > 0.0
  }

  predicate Silent(d: Desired, key: RouteKey) {
    key.Cell? && key.source in d.sources.at && MutedIn(d, key)
  }

  function CaptureFor(d: Desired, g: Graph, f: Findings, id: string): Option<NodeIdentity>
    requires id in d.sources.at
  {
    var source := d.sources.at[id];
    if source.kind == App then
      if id in f.intakes then f.intakes[id] else None
    else
      var captures := g.CapturesNamed(source.nodeName);
      if |captures| > 1 then None
      else if id in f.effective then f.effective[id]
      else if |captures| == 1 then Some(captures[0]) else None
  }

  predicate RawMissing(d: Desired, g: Graph, id: string)
    requires id in d.sources.at
  {
    d.sources.at[id].kind == Device && |g.CapturesNamed(d.sources.at[id].nodeName)| != 1
  }

  predicate FxMissing(f: Findings, id: string) {
    id in f.effective && f.effective[id].None?
  }

  /** A wanted cell whose two ends are in the snapshot. */
  predicate Openable(d: Desired, g: Graph, f: Findings, key: RouteKey) {
    && Wanted(d, key) && CaptureFor(d, g, f, key.source).Some? && key.mix in f.ready
    && g.Node(d.mixes.at[key.mix].sink).Some?
  }

  /** A mix's published capture, and its output when it is monitored somewhere. */
  predicate FeedWanted(d: Desired, g: Graph, f: Findings, key: RouteKey) {
    !key.Cell?
    && var id := if key.Capture? then key.captured else key.monitored;
       && id in d.mixes.at && id in f.ready && g.Node(d.mixes.at[id].sink).Some?
       && (key.Output? ==> id in f.outputs && f.outputs[id].Ok? && f.outputs[id].value.Some?)
  }

  // ---------------------------------------------------------------- what is audible

  /** Every audible cell route belongs to a source and cell that are not muted. */
  ghost predicate OpenUnmuted(d: Desired, w: World) {
    forall o :: Audible(w, o) && w[o].key.Cell? ==>
      w[o].key.source in d.sources.at && !MutedIn(d, w[o].key)
  }

  function GroupOf(groups: map<string, string>, s: string): string {
    if s in groups then groups[s] else ""
  }

  /** No two sources of one nonempty group are audible in `w`. */
  ghost predicate Exclusive(groups: map<string, string>, w: World) {
    forall a, b :: Audible(w, a) && Audible(w, b) && w[a].key.Cell? && w[b].key.Cell?
      && GroupOf(groups, w[a].key.source) == GroupOf(groups, w[b].key.source) != ""
      ==> w[a].key.source == w[b].key.source
  }

  ghost predicate AlwaysExclusive(groups: map<string, string>, history: seq<World>) {
    forall i :: 0 <= i < |history| ==> Exclusive(groups, history[i])
  }

  /** A desired state with these groups and at most one unmuted member in each. */
  ghost predicate Admissible(groups: map<string, string>, d: Desired) {
    && ExclusiveGroups(d.sources.at)
    && forall s :: s in d.sources.at ==> d.sources.at[s].group == GroupOf(groups, s)
  }

  lemma OpenUnmutedIsExclusive(groups: map<string, string>, d: Desired, w: World)
    requires Admissible(groups, d) && OpenUnmuted(d, w)
    ensures Exclusive(groups, w)
  {}

  lemma QuieterIsExclusive(groups: map<string, string>, h: World, base: World)
    requires Exclusive(groups, base) && OnlyOpens(h, base, {})
    ensures Exclusive(groups, h)
  {}

  lemma OpeningKeepsUnmuted(d: Desired, h: World, base: World, open: set<RouteKey>)
    requires OpenUnmuted(d, base) && OnlyOpens(h, base, open)
    requires forall k :: k in open && k.Cell? ==> k.source in d.sources.at && !MutedIn(d, k)
    ensures OpenUnmuted(d, h)
  {}
}
