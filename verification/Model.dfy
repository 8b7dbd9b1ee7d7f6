/** The desired state: stable identifiers, sources, mixes and the matrix of
    sends, with the exclusive-group rule every committed state keeps. */
module Model {
  import opened Wrappers

  datatype NodeIdentity = NodeIdentity(cookie: nat, serial: string)

  /** A JSON value; a number is written with or without a fraction. */
  datatype Json =
    | Null
    | Bool(b: bool)
    | Integer(i: int)
    | Number(n: real)
    | String(s: string)
    | Array(items: seq<Json>)
    | Object(fields: map<string, Json>)

  datatype SourceKind = App | Device

  datatype FxSettings = FxSettings(
    lowcut: int, gate: bool, gateThresh: real, comp: bool, compThresh: real, compRatio: real,
    eqLow: real, eqMid: real, eqHigh: real, delayMs: real, mono: bool)

  datatype Source = Source(
    kind: SourceKind, name: string, iconName: string, matchAppNames: seq<string>, nodeName: string,
    level: real, muted: bool, isProtected: bool, group: string, fx: Option<FxSettings>,
    extra: map<string, Json>)
  {
    predicate CatchAll() {
      "catch_all" in extra && extra["catch_all"] == Bool(true)
    }
  }

  datatype Mix = Mix(
    name: string, description: string, subtitle: string, iconName: string, sink: string,
    extra: map<string, Json>)

  datatype LevelState = LevelState(volume: real, muted: bool, extra: map<string, Json>)

  datatype Matrix = Matrix(
    cells: Ordered<string, LevelState>,
    outputs: Ordered<string, string>,
    volumes: Ordered<string, LevelState>,
    extra: map<string, Json>)

  datatype Desired = Desired(
    sources: Ordered<string, Source>,
    mixes: Ordered<string, Mix>,
    matrix: Matrix,
    scenes: map<string, Json>)

  predicate StableChar(c: char) {
    'a' <= c <= 'z' || '0' <= c <= '9' || c == '_'
  }

  /** Stable identifiers: nonempty, lower-case letters, digits and underscores. */
  predicate StableId(id: string) {
    |id| > 0 && forall i :: 0 <= i < |id| ==> StableChar(id[i])
  }

  function CellKey(source: string, mix: string): string {
    source + "." + mix
  }

  /** A stable identifier has no dot, so a cell key names one cell only. */
  lemma CellKeyInjective(s: string, m: string, s': string, m': string)
    requires StableId(s) && StableId(s')
    requires CellKey(s, m) == CellKey(s', m')
    ensures s == s' && m == m'
  {
    var k := CellKey(s, m);
    assert k[|s|] == '.' && k[|s'|] == '.';
    assert forall i :: 0 <= i < |s| ==> k[i] == s[i] && k[i] != '.';
    assert forall i :: 0 <= i < |s'| ==> k[i] == s'[i] && k[i] != '.';
    assert |s| == |s'|;
    assert s == k[..|s|] == s';
    assert m == k[|s| + 1..] == m';
  }

  ghost predicate WellFormed(d: Desired) {
    && (forall s :: s in d.sources.at ==> StableId(s))
    && (forall m :: m in d.mixes.at ==> StableId(m))
  }

  /** At most one unmuted member in each nonempty group. */
  ghost predicate ExclusiveGroups(sources: map<string, Source>) {
    forall a, b :: a in sources && b in sources && a != b
      && sources[a].group == sources[b].group != ""
      ==> sources[a].muted || sources[b].muted
  }
}
