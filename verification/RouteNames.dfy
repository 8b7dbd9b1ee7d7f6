/** Node names of the loopbacks the mixer spawns (routing.rs, mixer.rs). */
module RouteNames {
  import opened Model

  function Digit(d: nat): char
    requires d < 10
  {
    (48 + d) as char
  }

  function Decimal(n: nat): (s: string)
    ensures |s| > 0
    ensures forall i :: 0 <= i < |s| ==> '0' <= s[i] <= '9'
  {
    if n < 10 then [Digit(n)] else Decimal(n / 10) + [Digit(n % 10)]
  }

  function CellRouteName(source: string, mix: string): string {
    "openwave_loop_" + Decimal(|source|) + "_" + source + "_" + mix
  }

  function MixCaptureName(mix: string): string {
    "openwave_capture_" + mix
  }

  function OutputRouteName(mix: string): string {
    "openwave_loop_output_" + mix
  }

  lemma {:induction false} DecimalInjective(a: nat, b: nat)
    requires Decimal(a) == Decimal(b)
    ensures a == b
  {
    DecimalParts(a);
    DecimalParts(b);
    if a >= 10 {
      DecimalInjective(a / 10, b / 10);
    }
  }

  lemma DecimalParts(n: nat)
    ensures var s := Decimal(n);
      s[|s| - 1] == Digit(n % 10) && s[..|s| - 1] == if n < 10 then "" else Decimal(n / 10)
    ensures |Decimal(n)| == 1 <==> n < 10
  {}

  // Two digit runs ended by the same separator are equal.
  lemma DigitRunEnds(d: string, d': string, rest: string, rest': string)
    requires forall i :: 0 <= i < |d| ==> '0' <= d[i] <= '9'
    requires forall i :: 0 <= i < |d'| ==> '0' <= d'[i] <= '9'
    requires d + "_" + rest == d' + "_" + rest'
    ensures d == d' && rest == rest'
  {
    var k := d + "_" + rest;
    assert k[|d|] == '_' && k[|d'|] == '_';
    assert forall i :: 0 <= i < |d| ==> k[i] == d[i] && k[i] != '_';
    assert forall i :: 0 <= i < |d'| ==> k[i] == d'[i] && k[i] != '_';
    assert |d| == |d'|;
    assert d == k[..|d|] == d';
    assert rest == k[|d| + 1..] == rest';
  }

  /** The length prefix makes cell route names injective although identifiers
      may themselves contain underscores. */
  lemma CellRouteNameInjective(s: string, m: string, s': string, m': string)
    requires CellRouteName(s, m) == CellRouteName(s', m')
    ensures s == s' && m == m'
  {
    var p := "openwave_loop_";
    var rest, rest' := s + "_" + m, s' + "_" + m';
    assert CellRouteName(s, m) == p + (Decimal(|s|) + "_" + rest);
    assert CellRouteName(s', m') == p + (Decimal(|s'|) + "_" + rest');
    assert Decimal(|s|) + "_" + rest == CellRouteName(s, m)[|p|..] == Decimal(|s'|) + "_" + rest';
    DigitRunEnds(Decimal(|s|), Decimal(|s'|), rest, rest');
    DecimalInjective(|s|, |s'|);
    assert s == rest[..|s|] == s';
    assert m == rest[|s| + 1..] == m';
  }

  /** A cell route never takes the name of an output route: a digit is not an 'o'. */
  lemma CellRouteNameIsNotOutput(s: string, m: string, m': string)
    ensures CellRouteName(s, m) != OutputRouteName(m')
  {
    var p := "openwave_loop_";
    assert CellRouteName(s, m)[|p|] == Decimal(|s|)[0];
    assert OutputRouteName(m')[|p|] == 'o';
  }

  /** The capture side of a loopback is called `<name>_cap`. That name is the
      playback name of another cell exactly when the other cell is of the same
      source and its mix is called the same with `_cap` appended. */
  lemma CapNameCollision(s: string, m: string, s': string, m': string)
    ensures CellRouteName(s, m) + "_cap" == CellRouteName(s', m') <==> s == s' && m' == m + "_cap"
  {
    assert CellRouteName(s, m) + "_cap" == CellRouteName(s, m + "_cap");
    if CellRouteName(s, m) + "_cap" == CellRouteName(s', m') {
      CellRouteNameInjective(s, m + "_cap", s', m');
    }
  }
}
