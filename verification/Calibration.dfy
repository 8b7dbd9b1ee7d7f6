/** The levels calibration proposes (calibration.rs, effects.rs), over exact reals: the
    measurements it refuses, and bounds every accepted proposal keeps. */
module Calibration {
  import opened Wrappers
  import opened Model
  import opened Numbers

  const MIN_WINDOWS := 30

  /** A measured peak in dB. */
  datatype Peak = Level(db: real) | NotFinite

  datatype Fault = TooFew | Malformed | Clipping | NoisyFloor | Unclear | TooQuiet | TooClose

  datatype Measured = Measured(floor: real, quiet: real, loud: real)

  datatype Proposal = Proposal(gate: bool, gateThresh: real, comp: bool, compThresh: real, compRatio: real)

  datatype Outcome = Accepted(measured: Measured, fx: Proposal) | Refused(why: Fault)

  // ---------------------------------------------------------------- order statistics

  predicate IsSorted(s: seq<real>) {
    forall i, j :: 0 <= i < j < |s| ==> s[i] <= s[j]
  }

  function Inserted(s: seq<real>, x: real): (r: seq<real>)
    ensures multiset(r) == multiset(s) + multiset{x}
  {
    if s == [] || s[|s| - 1] <= x then s + [x]
    else
      var r := Inserted(s[..|s| - 1], x) + [s[|s| - 1]];
      assert s == s[..|s| - 1] + [s[|s| - 1]];
      r
  }

  lemma {:induction false} InsertedSorted(s: seq<real>, x: real)
    requires IsSorted(s)
    ensures IsSorted(Inserted(s, x))
  {
    if s != [] && s[|s| - 1] > x {
      var rest, last := s[..|s| - 1], s[|s| - 1];
      InsertedSorted(rest, x);
      forall i | 0 <= i < |Inserted(rest, x)|
        ensures Inserted(rest, x)[i] <= last
      {
        assert Inserted(rest, x)[i] in multiset(Inserted(rest, x));
        assert Inserted(rest, x)[i] in multiset(rest) + multiset{x};
      }
    }
  }

  /** The library's sort, by its specification. */
  function Sorted(s: seq<real>): (r: seq<real>)
    ensures IsSorted(r) && multiset(r) == multiset(s) && |r| == |s|
  {
    if s == [] then []
    else
      var r := Inserted(Sorted(s[..|s| - 1]), s[|s| - 1]);
      InsertedSorted(Sorted(s[..|s| - 1]), s[|s| - 1]);
      assert s == s[..|s| - 1] + [s[|s| - 1]];
      assert |multiset(r)| == |multiset(s)|;
      r
  }

  /** There is one sorted sequence of given contents. */
  lemma {:induction false} SortedUnique(a: seq<real>, b: seq<real>)
    requires IsSorted(a) && IsSorted(b) && multiset(a) == multiset(b)
    ensures a == b
  {
    assert |multiset(a)| == |multiset(b)|;
    if a != [] {
      assert a[0] in multiset(b) && b[0] in multiset(a);
      assert a[0] == b[0];
      assert a == [a[0]] + a[1..] && b == [b[0]] + b[1..];
      assert multiset(a[1..]) == multiset(a) - multiset{a[0]};
      assert multiset(b[1..]) == multiset(b) - multiset{b[0]};
      SortedUnique(a[1..], b[1..]);
    }
  }

  /** Index floor(n * pct / 100), capped at the last. */
  function Percentile(ordered: seq<real>, pct: nat): real
    requires ordered != []
  {
    var at := |ordered| * pct / 100;
    ordered[if at < |ordered| - 1 then at else |ordered| - 1]
  }

  lemma PercentileGrows(ordered: seq<real>, p: nat, q: nat)
    requires ordered != [] && IsSorted(ordered) && p <= q
    ensures Percentile(ordered, p) <= Percentile(ordered, q)
    ensures Percentile(ordered, p) in ordered
  {
    Times(|ordered|, p, q);
  }

  lemma {:induction false} Times(n: nat, p: nat, q: nat)
    requires p <= q
    ensures n * p <= n * q
  {
    if n > 0 {
      Times(n - 1, p, q);
    }
  }

  // ---------------------------------------------------------------- analysis

  /** `round_tenth` of a level, which is never positive. */
  function RoundTenth(x: real): real {
    -(RoundEven(-x * 10.0) as real) / 10.0
  }

  lemma RoundTenthNear(x: real)
    ensures -0.05 <= RoundTenth(x) - x <= 0.05
  {
    RoundEvenNearest(-x * 10.0);
  }

  /** Rounding keeps the order and every bound that is a whole number of tenths. */
  lemma RoundTenthKeeps(x: real, y: real, tenths: int)
    ensures x <= y ==> RoundTenth(x) <= RoundTenth(y)
    ensures x <= tenths as real / 10.0 ==> RoundTenth(x) <= tenths as real / 10.0
    ensures tenths as real / 10.0 <= x ==> tenths as real / 10.0 <= RoundTenth(x)
  {
    var bound := tenths as real / 10.0;
    assert -bound * 10.0 == (-tenths) as real;
    assert RoundEven((-tenths) as real) == -tenths;
    if x <= y {
      RoundEvenGrows(-y * 10.0, -x * 10.0);
    }
    if x <= bound {
      RoundEvenGrows(-bound * 10.0, -x * 10.0);
    }
    if bound <= x {
      RoundEvenGrows(-x * 10.0, -bound * 10.0);
    }
  }

  function LevelsOf(peaks: seq<Peak>): (levels: seq<real>)
    requires forall i :: 0 <= i < |peaks| ==> peaks[i].Level?
    ensures |levels| == |peaks|
  {
    seq(|peaks|, i requires 0 <= i < |peaks| => peaks[i].db)
  }

  /** What is wrong with one recording. */
  function Defect(peaks: seq<Peak>): Option<Fault> {
    if |peaks| < MIN_WINDOWS then Some(TooFew)
    else if exists i ::
      0 <= i < |peaks| && (peaks[i].NotFinite? || !(-140.0 <= peaks[i].db <= 0.0)) then Some(Malformed)
    else None
  }

  predicate Clips(levels: seq<real>) {
    exists i :: 0 <= i < |levels| && levels[i] >= -0.1
  }

  function Above(levels: seq<real>, bound: real): seq<real> {
    if levels == [] then []
    else
      var before, last := Above(levels[..|levels| - 1], bound), levels[|levels| - 1];
      if last > bound then before + [last] else before
  }

  /** The clamps of `FxSettings::validated` that concern a proposal. */
  function Validated(fx: Proposal): Proposal {
    fx.(gateThresh := Clamp(fx.gateThresh, -70.0, -20.0),
        compThresh := Clamp(fx.compThresh, -30.0, 0.0),
        compRatio := Clamp(fx.compRatio, 1.0, 10.0))
  }

  function Smaller(a: real, b: real): real { if a < b then a else b }

  /** `analyze`. */
  function Analyze(floorPeaks: seq<Peak>, speechPeaks: seq<Peak>): Outcome {
    if Defect(floorPeaks).Some? then Refused(Defect(floorPeaks).value)
    else if Defect(speechPeaks).Some? then Refused(Defect(speechPeaks).value)
    else Judged(Sorted(LevelsOf(floorPeaks)), LevelsOf(speechPeaks))
  }

  function Judged(floorOrdered: seq<real>, speech: seq<real>): Outcome
    requires |floorOrdered| >= MIN_WINDOWS && |speech| >= MIN_WINDOWS
  {
    if Clips(floorOrdered) || Clips(speech) then Refused(Clipping)
    else
      var floor := Percentile(floorOrdered, 50);
      var voiced := Sorted(Above(speech, floor + 10.0));
      if floor > -25.0 then Refused(NoisyFloor)
      else if |voiced| < MIN_WINDOWS || |voiced| as real < |speech| as real * 0.1 then Refused(Unclear)
      else Proposed(floor, Percentile(voiced, 10), Percentile(voiced, 90))
  }

  function Proposed(floor: real, quiet: real, loud: real): Outcome {
    if loud < -45.0 || quiet < -58.0 then Refused(TooQuiet)
    else if quiet - floor < 18.0 then Refused(TooClose)
    else
      var gate := Clamp(Smaller(floor + 8.0, quiet - 6.0), -70.0, -20.0);
      Accepted(
        Measured(RoundTenth(floor), RoundTenth(quiet), RoundTenth(loud)),
        Validated(Proposal(true, RoundTenth(gate), true, RoundTenth(loud - 6.0), 3.0)))
  }

  // ---------------------------------------------------------------- order does not matter

  lemma {:induction false} AboveCounts(levels: seq<real>, bound: real, x: real)
    ensures multiset(Above(levels, bound))[x] == if x > bound then multiset(levels)[x] else 0
  {
    if levels != [] {
      AboveCounts(levels[..|levels| - 1], bound, x);
      assert levels == levels[..|levels| - 1] + [levels[|levels| - 1]];
    }
  }

  lemma AboveSame(a: seq<real>, b: seq<real>, bound: real)
    requires multiset(a) == multiset(b)
    ensures Sorted(Above(a, bound)) == Sorted(Above(b, bound))
  {
    forall x ensures multiset(Above(a, bound))[x] == multiset(Above(b, bound))[x] {
      AboveCounts(a, bound, x);
      AboveCounts(b, bound, x);
    }
    assert multiset(Above(a, bound)) == multiset(Above(b, bound));
    SortedUnique(Sorted(Above(a, bound)), Sorted(Above(b, bound)));
  }

  lemma ClipsSame(a: seq<real>, b: seq<real>)
    requires multiset(a) == multiset(b)
    ensures Clips(a) ==> Clips(b)
  {
    if Clips(a) {
      var i :| 0 <= i < |a| && a[i] >= -0.1;
      assert a[i] in multiset(b);
    }
  }

  lemma DefectSame(a: seq<Peak>, b: seq<Peak>)
    requires multiset(a) == multiset(b)
    ensures Defect(a) == Defect(b)
  {
    assert |multiset(a)| == |multiset(b)|;
    assert forall p :: p in a <==> p in multiset(a);
    assert forall p :: p in b <==> p in multiset(b);
    assert forall i :: 0 <= i < |a| ==> a[i] in b;
    assert forall i :: 0 <= i < |b| ==> b[i] in a;
  }

  lemma {:induction false} LevelsCount(peaks: seq<Peak>, x: real)
    requires forall i :: 0 <= i < |peaks| ==> peaks[i].Level?
    ensures multiset(LevelsOf(peaks))[x] == multiset(peaks)[Level(x)]
  {
    if peaks != [] {
      var rest, last := peaks[..|peaks| - 1], peaks[|peaks| - 1];
      LevelsCount(rest, x);
      assert peaks == rest + [last] && LevelsOf(peaks) == LevelsOf(rest) + [last.db];
    }
  }

  lemma LevelsSame(a: seq<Peak>, b: seq<Peak>)
    requires multiset(a) == multiset(b) && Defect(a).None? && Defect(b).None?
    ensures multiset(LevelsOf(a)) == multiset(LevelsOf(b))
  {
    forall x ensures multiset(LevelsOf(a))[x] == multiset(LevelsOf(b))[x] {
      LevelsCount(a, x);
      LevelsCount(b, x);
    }
  }

  /** The outcome, refusals included, does not depend on the order of the samples. */
  lemma OrderIndependent(floorA: seq<Peak>, speechA: seq<Peak>, floorB: seq<Peak>, speechB: seq<Peak>)
    requires multiset(floorA) == multiset(floorB) && multiset(speechA) == multiset(speechB)
    ensures Analyze(floorA, speechA) == Analyze(floorB, speechB)
  {
    hide Sorted, Above, Clips, LevelsOf, Percentile;
    DefectSame(floorA, floorB);
    DefectSame(speechA, speechB);
    if Defect(floorA).None? && Defect(speechA).None? {
      LevelsSame(floorA, floorB);
      LevelsSame(speechA, speechB);
      var f, s, t := LevelsOf(floorA), LevelsOf(speechA), LevelsOf(speechB);
      SortedUnique(Sorted(f), Sorted(LevelsOf(floorB)));
      assert |multiset(speechA)| == |multiset(speechB)|;
      ClipsSame(s, t);
      ClipsSame(t, s);
      AboveSame(s, t, Percentile(Sorted(f), 50) + 10.0);
    }
  }

  // ---------------------------------------------------------------- bounds

  /** The exact measures behind an outcome. */
  function FloorOf(floorPeaks: seq<Peak>): real
    requires Defect(floorPeaks).None?
  {
    Percentile(Sorted(LevelsOf(floorPeaks)), 50)
  }

  function VoicedOf(floorPeaks: seq<Peak>, speechPeaks: seq<Peak>): seq<real>
    requires Defect(floorPeaks).None? && Defect(speechPeaks).None?
  {
    Sorted(Above(LevelsOf(speechPeaks), FloorOf(floorPeaks) + 10.0))
  }

  /** What every accepted outcome of these measures keeps. */
  predicate Sound(floor: real, quiet: real, loud: real, o: Outcome)
    requires o.Accepted?
  {
    && quiet <= loud
    && floor + 4.95 <= o.fx.gateThresh <= quiet - 9.95
    && -70.0 <= o.fx.gateThresh <= -20.0
    && -30.0 <= o.fx.compThresh <= -6.1
    && o.fx.gate && o.fx.comp && o.fx.compRatio == 3.0
    && o.measured == Measured(RoundTenth(floor), RoundTenth(quiet), RoundTenth(loud))
    && o.measured.floor < o.measured.quiet <= o.measured.loud <= -0.1
  }

  lemma ProposedSound(floor: real, quiet: real, loud: real)
    requires Proposed(floor, quiet, loud).Accepted?
    requires quiet <= loud < -0.1 && floor <= -25.0
    ensures Sound(floor, quiet, loud, Proposed(floor, quiet, loud))
  {
    hide RoundTenth;
    var gate := Clamp(Smaller(floor + 8.0, quiet - 6.0), -70.0, -20.0);
    RoundTenthNear(gate);
    RoundTenthKeeps(gate, gate, -700);
    RoundTenthKeeps(gate, gate, -200);
    RoundTenthKeeps(loud - 6.0, 0.0, -61);
    RoundTenthNear(floor);
    RoundTenthNear(quiet);
    RoundTenthKeeps(quiet, loud, 0);
    RoundTenthKeeps(loud, loud, -1);
  }

  /** Every accepted analysis: the gate is clear of both the noise and the quietest voice,
      the compressor starts below the loudest, and all values are in range. */
  lemma AnalysisSound(floorPeaks: seq<Peak>, speechPeaks: seq<Peak>)
    requires Analyze(floorPeaks, speechPeaks).Accepted?
    ensures Defect(floorPeaks).None? && Defect(speechPeaks).None? && VoicedOf(floorPeaks, speechPeaks) != []
    ensures var voiced := VoicedOf(floorPeaks, speechPeaks);
      Sound(FloorOf(floorPeaks), Percentile(voiced, 10), Percentile(voiced, 90), Analyze(floorPeaks, speechPeaks))
  {
    hide Sound, Proposed, Percentile, Above, LevelsOf, Sorted;
    var speech := LevelsOf(speechPeaks);
    var voiced := VoicedOf(floorPeaks, speechPeaks);
    var bound := FloorOf(floorPeaks) + 10.0;
    PercentileGrows(voiced, 10, 90);
    PercentileGrows(voiced, 90, 90);
    var loud := Percentile(voiced, 90);
    assert loud in multiset(voiced) && loud in multiset(Above(speech, bound));
    AboveCounts(speech, bound, loud);
    assert loud in multiset(speech);
    ProposedSound(FloorOf(floorPeaks), Percentile(voiced, 10), loud);
  }
}
