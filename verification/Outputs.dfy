/** Which physical sink a mix is monitored on (routing.rs). */
module Outputs {
  import opened Wrappers
  import opened Model
  import opened Strings

  datatype Output = Output(identity: NodeIdentity, nodeName: string, priority: int, isWave: bool)

  datatype Reason = NotMonitored | MissingExplicit | NoEligibleOutput | AmbiguousIdentity

  datatype Decision = Monitor(output: Output) | Silent(reason: Reason)

  predicate OpenWaveName(name: string) {
    StartsWith(name, "openwave_")
  }

  predicate Eligible(o: Output) {
    o.nodeName != "" && !OpenWaveName(o.nodeName)
  }

  predicate Choosable(choice: string) {
    choice != "" && !OpenWaveName(choice) && 0 as char !in choice
  }

  function Matching(outputs: seq<Output>, name: string): seq<Output> {
    if outputs == [] then []
    else (if Eligible(outputs[0]) && outputs[0].nodeName == name then [outputs[0]] else [])
         + Matching(outputs[1..], name)
  }

  // The only eligible output of that name.
  function Exact(outputs: seq<Output>, name: string): Decision {
    var found := Matching(outputs, name);
    if |found| > 1 then Silent(AmbiguousIdentity)
    else if |found| == 1 then Monitor(found[0])
    else Silent(MissingExplicit)
  }

  function FirstNamed(outputs: seq<Output>, name: string, wave: bool): Option<Output> {
    if outputs == [] then None
    else if Eligible(outputs[0]) && outputs[0].nodeName == name && (wave ==> outputs[0].isWave) then Some(outputs[0])
    else FirstNamed(outputs[1..], name, wave)
  }

  predicate Before(a: Output, b: Output, byPriority: bool) {
    (byPriority && a.priority > b.priority)
    || ((byPriority ==> a.priority == b.priority) && Less(a.nodeName, b.nodeName))
  }

  // The first minimum: an element only loses to a strictly earlier one.
  function Best(outputs: seq<Output>, wave: bool, byPriority: bool): Option<Output> {
    if outputs == [] then None
    else
      var rest := Best(outputs[1..], wave, byPriority);
      if !Eligible(outputs[0]) || (wave && !outputs[0].isWave) then rest
      else if rest.None? || !Before(rest.value, outputs[0], byPriority) then Some(outputs[0])
      else rest
  }

  function Or(a: Option<Output>, b: Option<Output>): Option<Output> {
    if a.Some? then a else b
  }

  function Automatic(outputs: seq<Output>, default: Option<string>, preferred: Option<string>): Option<Output> {
    Or(if preferred.Some? then FirstNamed(outputs, preferred.value, true) else None,
    Or(Best(outputs, true, false),
    Or(if default.Some? then FirstNamed(outputs, default.value, false) else None,
       Best(outputs, false, true))))
  }

  function Resolve(choice: string, outputs: seq<Output>, default: Option<string>, preferred: Option<string>)
    : Result<Decision>
  {
    if !Choosable(choice) then Err(Invalid)
    else if choice == "none" then Ok(Silent(NotMonitored))
    else if choice != "auto" then Ok(Exact(outputs, choice))
    else match Automatic(outputs, default, preferred)
      case Some(o) => Ok(Exact(outputs, o.nodeName))
      case None => Ok(Silent(NoEligibleOutput))
  }

  lemma {:induction false} MatchingIs(outputs: seq<Output>, name: string)
    ensures forall o :: o in Matching(outputs, name) <==> o in outputs && Eligible(o) && o.nodeName == name
  {
    if outputs != [] {
      MatchingIs(outputs[1..], name);
      assert outputs == [outputs[0]] + outputs[1..];
    }
  }

  lemma {:induction false} FirstNamedIs(outputs: seq<Output>, name: string, wave: bool)
    ensures var r := FirstNamed(outputs, name, wave);
      if r.Some? then r.value in outputs && Eligible(r.value) && r.value.nodeName == name && (wave ==> r.value.isWave)
      else forall o :: o in outputs && Eligible(o) && o.nodeName == name ==> wave && !o.isWave
  {
    if outputs != [] {
      FirstNamedIs(outputs[1..], name, wave);
      assert outputs == [outputs[0]] + outputs[1..];
    }
  }

  lemma {:induction false} BestIs(outputs: seq<Output>, wave: bool, byPriority: bool)
    ensures var r := Best(outputs, wave, byPriority);
      if r.Some? then
        && r.value in outputs && Eligible(r.value) && (wave ==> r.value.isWave)
        && (forall o :: o in outputs && Eligible(o) && (wave ==> o.isWave) ==> !Before(o, r.value, byPriority))
      else forall o :: o in outputs && Eligible(o) ==> wave && !o.isWave
  {
    if outputs != [] {
      BestIs(outputs[1..], wave, byPriority);
      assert outputs == [outputs[0]] + outputs[1..];
      var first, rest := outputs[0], Best(outputs[1..], wave, byPriority);
      LessTotal(first.nodeName, first.nodeName);
      if rest.Some? {
        forall o | o in outputs[1..] && !Before(o, rest.value, byPriority) && !Before(rest.value, first, byPriority)
          ensures !Before(o, first, byPriority)
        {
          LessTotal(o.nodeName, rest.value.nodeName);
          LessTotal(rest.value.nodeName, first.nodeName);
          if Less(rest.value.nodeName, o.nodeName) && Less(o.nodeName, first.nodeName) {
            LessTrans(rest.value.nodeName, o.nodeName, first.nodeName);
          }
        }
        LessTotal(first.nodeName, rest.value.nodeName);
      }
    }
  }

  predicate HasWave(outputs: seq<Output>) {
    exists o :: o in outputs && Eligible(o) && o.isWave
  }

  predicate HasNamed(outputs: seq<Output>, name: Option<string>, wave: bool) {
    name.Some? && exists o :: o in outputs && Eligible(o) && o.nodeName == name.value && (wave ==> o.isWave)
  }

  /** Automatic takes the preferred Wave sink, else the least-named Wave sink, else the
      default sink, else the least-named of the highest priority; only eligible ones. */
  lemma AutomaticPicks(outputs: seq<Output>, default: Option<string>, preferred: Option<string>)
    ensures var pick := Automatic(outputs, default, preferred);
      if pick.None? then forall o :: o in outputs ==> !Eligible(o)
      else
        && var o := pick.value;
        && o in outputs && Eligible(o)
        && (HasWave(outputs) ==> o.isWave)
        && (if HasNamed(outputs, preferred, true) then o.nodeName == preferred.value
            else if HasWave(outputs) then
              forall p :: p in outputs && Eligible(p) && p.isWave ==> !Less(p.nodeName, o.nodeName)
            else if HasNamed(outputs, default, false) then o.nodeName == default.value
            else forall p :: p in outputs && Eligible(p) ==> !Before(p, o, true))
  {
    if preferred.Some? {
      FirstNamedIs(outputs, preferred.value, true);
    }
    if default.Some? {
      FirstNamedIs(outputs, default.value, false);
    }
    BestIs(outputs, true, false);
    BestIs(outputs, false, true);
  }

  /** Whatever is monitored is an eligible output that its name names alone. An
      explicit choice is that name or silence: it never falls back. */
  lemma ResolveIs(choice: string, outputs: seq<Output>, default: Option<string>, preferred: Option<string>)
    requires Choosable(choice)
    ensures var r := Resolve(choice, outputs, default, preferred);
      r.Ok? && match r.value
      case Monitor(o) =>
        && o in outputs && Eligible(o) && choice != "none"
        && (forall p :: p in outputs && Eligible(p) && p.nodeName == o.nodeName ==> p == o)
        && (choice != "auto" ==> o.nodeName == choice)
        && (choice == "auto" ==> Automatic(outputs, default, preferred) == Some(o))
      case Silent(reason) =>
        && (reason == NotMonitored <==> choice == "none")
        && (reason == MissingExplicit ==> choice != "auto" && !HasNamed(outputs, Some(choice), false))
        && (reason == NoEligibleOutput ==> choice == "auto" && forall p :: p in outputs ==> !Eligible(p))
  {
    MatchingIs(outputs, choice);
    AutomaticPicks(outputs, default, preferred);
    var o := Automatic(outputs, default, preferred);
    if o.Some? {
      MatchingIs(outputs, o.value.nodeName);
      assert o.value in Matching(outputs, o.value.nodeName);
    }
  }
}
