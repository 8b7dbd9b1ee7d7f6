/** Exclusive mute groups (routing.rs): opening one member silences the others, and a
    switch moves the opening round the group. */
module Groups {
  import opened Wrappers
  import opened Model

  type Sources = Ordered<string, Source>

  datatype MuteChange = MuteChange(source: string, muted: bool)

  // ---------------------------------------------------------------- one change

  /** Who is muted once `target` is set. */
  predicate MutedAfter(sources: map<string, Source>, target: string, muted: bool, id: string)
    requires target in sources && id in sources
  {
    if id == target then muted
    else sources[id].muted || (!muted && sources[id].group == sources[target].group != "")
  }

  function WithMuted(sources: map<string, Source>, target: string, muted: bool): map<string, Source>
    requires target in sources
  {
    map id | id in sources :: sources[id].(muted := MutedAfter(sources, target, muted, id))
  }

  /** The changes are exactly the differences, each once and with its new value, ... */
  ghost predicate Differences(before: map<string, Source>, after: map<string, Source>, changes: seq<MuteChange>) {
    && before.Keys == after.Keys
    && (forall i :: 0 <= i < |changes| ==>
          && changes[i].source in after
          && before[changes[i].source].muted != after[changes[i].source].muted == changes[i].muted)
    && (forall id :: id in before && before[id].muted != after[id].muted ==>
          exists i :: 0 <= i < |changes| && changes[i].source == id)
    && (forall i, j :: 0 <= i < j < |changes| ==> changes[i].source != changes[j].source)
  }

  /** ... and a source is opened only after all that had to be silenced. */
  predicate SilencesFirst(changes: seq<MuteChange>) {
    forall i :: 0 <= i < |changes| - 1 ==> changes[i].muted
  }

  /** The sources once the first n keys have been gone through. */
  function Silenced(sources: Sources, target: string, n: nat): map<string, Source>
    requires target in sources.at && n <= |sources.keys|
  {
    map id | id in sources.at ::
      sources.at[id].(muted := sources.at[id].muted
        || (id != target && sources.at[id].group == sources.at[target].group && id in sources.keys[..n]))
  }

  lemma SilencedNext(sources: Sources, target: string, n: nat)
    requires target in sources.at && n < |sources.keys|
    ensures var id, was := sources.keys[n], Silenced(sources, target, n);
      && was[id] == sources.at[id]
      && Silenced(sources, target, n + 1) ==
         if id != target && was[id].group == sources.at[target].group
         then was[id := was[id].(muted := true)] else was
  {
    assert sources.keys[..n + 1] == sources.keys[..n] + [sources.keys[n]];
  }

  /** Silences every other open member of the target's group. */
  method SilenceOthers(sources: Sources, target: string) returns (at: map<string, Source>, changes: seq<MuteChange>)
    requires target in sources.at && sources.at[target].group != ""
    ensures at == Silenced(sources, target, |sources.keys|)
    ensures Differences(sources.at, at, changes)
    ensures forall k :: 0 <= k < |changes| ==> changes[k].muted && changes[k].source != target
  {
    hide Differences;
    var group := sources.at[target].group;
    at, changes := sources.at, [];
    NoDifference(at);
    assert at == Silenced(sources, target, 0);
    hide Silenced;
    for i := 0 to |sources.keys|
      invariant at == Silenced(sources, target, i)
      invariant Differences(sources.at, at, changes)
      invariant forall k :: 0 <= k < |changes| ==> changes[k].muted && changes[k].source != target
    {
      var id := sources.keys[i];
      SilencedNext(sources, target, i);
      if id != target && at[id].group == group && !at[id].muted {
        OneMore(sources.at, at, at[id := at[id].(muted := true)], changes, MuteChange(id, true));
        at := at[id := at[id].(muted := true)];
        changes := changes + [MuteChange(id, true)];
      }
    }
  }

  lemma AsAsked(sources: Sources, target: string, muted: bool, at: map<string, Source>)
    requires target in sources.at
    requires at == if !muted && sources.at[target].group != "" then Silenced(sources, target, |sources.keys|)
      else sources.at
    ensures target in at && at[target] == sources.at[target]
    ensures WithMuted(sources.at, target, muted) == at[target := at[target].(muted := muted)]
    ensures at[target].muted == muted ==> WithMuted(sources.at, target, muted) == at
    ensures WithMuted(sources.at, target, muted).Keys == sources.at.Keys
  {
    assert sources.keys[..|sources.keys|] == sources.keys;
  }

  method SetSourceMuted(sources: Sources, target: string, muted: bool)
    returns (r: Result<seq<MuteChange>>, after: Sources)
    ensures r.Ok? <==> target in sources.at
    ensures r.Err? ==> r.code == Invalid && after == sources
    ensures r.Ok? ==>
      && after.keys == sources.keys
      && after.at == WithMuted(sources.at, target, muted)
      && Differences(sources.at, after.at, r.value)
      && SilencesFirst(r.value)
    ensures ExclusiveGroups(sources.at) ==> ExclusiveGroups(after.at)
  {
    hide Differences, ExclusiveGroups, Silenced, WithMuted;
    after := sources;
    if target !in sources.at {
      return Err(Invalid), after;
    }
    var at, changes: seq<MuteChange> := sources.at, [];
    NoDifference(at);
    if !muted && sources.at[target].group != "" {
      at, changes := SilenceOthers(sources, target);
    }
    AsAsked(sources, target, muted, at);
    if at[target].muted != muted {
      OneMore(sources.at, at, at[target := at[target].(muted := muted)], changes, MuteChange(target, muted));
      at := at[target := at[target].(muted := muted)];
      changes := changes + [MuteChange(target, muted)];
    }
    after := OrderedMap(sources.keys, at);
    StaysExclusive(sources.at, target, muted);
    r := Ok(changes);
  }

  lemma NoDifference(at: map<string, Source>)
    ensures Differences(at, at, [])
  {}

  lemma OneMore(before: map<string, Source>, was: map<string, Source>, now: map<string, Source>,
                changes: seq<MuteChange>, change: MuteChange)
    requires Differences(before, was, changes)
    requires change.source in was && now == was[change.source := was[change.source].(muted := change.muted)]
    requires before[change.source].muted == was[change.source].muted != change.muted
    ensures Differences(before, now, changes + [change])
  {
    var more := changes + [change];
    forall id | id in before && before[id].muted != now[id].muted
      ensures exists i :: 0 <= i < |more| && more[i].source == id
    {
      if id == change.source {
        assert more[|changes|].source == id;
      } else {
        var i :| 0 <= i < |changes| && changes[i].source == id;
        assert more[i].source == id;
      }
    }
  }

  lemma StaysExclusive(sources: map<string, Source>, target: string, muted: bool)
    requires target in sources
    ensures ExclusiveGroups(sources) ==> ExclusiveGroups(WithMuted(sources, target, muted))
  {}

  // ---------------------------------------------------------------- switching

  /** The members of a group in the order of the sources. */
  function Members(sources: Sources, group: string): (m: seq<string>)
    ensures forall i :: 0 <= i < |m| ==> m[i] in sources.at && sources.at[m[i]].group == group
    ensures forall id :: id in sources.at && sources.at[id].group == group ==> id in m
    ensures Distinct(m)
  {
    MembersAmongFacts(sources, group, |sources.keys|);
    MembersAmong(sources, group, |sources.keys|)
  }

  function MembersAmong(sources: Sources, group: string, n: nat): seq<string>
    requires n <= |sources.keys|
  {
    if n == 0 then []
    else
      var rest, id := MembersAmong(sources, group, n - 1), sources.keys[n - 1];
      if sources.at[id].group == group then rest + [id] else rest
  }

  /** `m` are the members of the group among the first `n` sources. */
  ghost predicate AreMembers(sources: Sources, group: string, n: nat, m: seq<string>)
    requires n <= |sources.keys|
  {
    && (forall i :: 0 <= i < |m| ==> m[i] in sources.keys[..n] && sources.at[m[i]].group == group)
    && (forall k :: 0 <= k < n && sources.at[sources.keys[k]].group == group ==> sources.keys[k] in m)
    && Distinct(m)
  }

  lemma NotAMember(sources: Sources, group: string, n: nat, rest: seq<string>)
    requires 0 < n <= |sources.keys| && AreMembers(sources, group, n - 1, rest)
    requires sources.at[sources.keys[n - 1]].group != group
    ensures AreMembers(sources, group, n, rest)
  {
    assert sources.keys[..n] == sources.keys[..n - 1] + [sources.keys[n - 1]];
  }

  lemma OneMoreMember(sources: Sources, group: string, n: nat, rest: seq<string>)
    requires 0 < n <= |sources.keys| && AreMembers(sources, group, n - 1, rest)
    requires sources.at[sources.keys[n - 1]].group == group
    ensures AreMembers(sources, group, n, rest + [sources.keys[n - 1]])
  {
    var id := sources.keys[n - 1];
    var m := rest + [id];
    assert sources.keys[..n] == sources.keys[..n - 1] + [id];
    forall i | 0 <= i < |rest|
      ensures rest[i] != id
    {
      var j :| 0 <= j < n - 1 && sources.keys[j] == rest[i];
    }
    assert m[|rest|] == id;
    assert forall x :: x in rest ==> x in m;
  }

  lemma {:induction false} MembersAmongFacts(sources: Sources, group: string, n: nat)
    requires n <= |sources.keys|
    ensures AreMembers(sources, group, n, MembersAmong(sources, group, n))
  {
    if n > 0 {
      MembersAmongFacts(sources, group, n - 1);
      hide AreMembers;
      if sources.at[sources.keys[n - 1]].group == group {
        OneMoreMember(sources, group, n, MembersAmong(sources, group, n - 1));
      } else {
        NotAMember(sources, group, n, MembersAmong(sources, group, n - 1));
      }
    }
  }

  /** Groups do not change when mutes do. */
  lemma {:induction false} SameMembers(a: Sources, b: Sources, group: string, n: nat)
    requires a.keys == b.keys && n <= |a.keys|
    requires forall id :: id in a.at ==> id in b.at && a.at[id].group == b.at[id].group
    ensures MembersAmong(a, group, n) == MembersAmong(b, group, n)
  {
    if n > 0 {
      SameMembers(a, b, group, n - 1);
    }
  }

  /** The first unmuted member, if any. */
  function OpenIndex(sources: map<string, Source>, m: seq<string>): (i: nat)
    requires forall j :: 0 <= j < |m| ==> m[j] in sources
    ensures i <= |m| && (i < |m| ==> !sources[m[i]].muted)
    ensures forall j :: 0 <= j < i ==> sources[m[j]].muted
  {
    if m == [] || !sources[m[0]].muted then 0
    else
      var i := OpenIndex(sources, m[1..]) + 1;
      assert forall j :: 1 <= j < i ==> m[j] == m[1..][j - 1];
      i
  }

  function Turn(i: nat, n: nat): (r: nat)
    requires i < n
    ensures r < n
  {
    if i + 1 == n then 0 else i + 1
  }

  /** The member a switch opens: the one after the first open, round the group, or the
      first when all are muted. */
  function NextIndex(sources: Sources, group: string): (i: nat)
    requires Members(sources, group) != []
    ensures i < |Members(sources, group)|
  {
    var m := Members(sources, group);
    var at := OpenIndex(sources.at, m);
    if at == |m| then 0 else Turn(at, |m|)
  }

  predicate Switches(sources: Sources, group: string) {
    group != "" && |Members(sources, group)| >= 2
  }

  function Switched(sources: Sources, group: string): (after: Sources)
    requires Switches(sources, group)
    ensures Members(after, group) == Members(sources, group)
  {
    var after :=
      OrderedMap(sources.keys, WithMuted(sources.at, Members(sources, group)[NextIndex(sources, group)], false));
    SameMembers(sources, after, group, |sources.keys|);
    after
  }

  datatype GroupSwitch = GroupSwitch(source: string, changes: seq<MuteChange>)

  method SwitchGroup(sources: Sources, group: string) returns (r: Option<GroupSwitch>, after: Sources)
    ensures r.Some? <==> Switches(sources, group)
    ensures after == if r.Some? then Switched(sources, group) else sources
    ensures r.Some? ==>
      && r.value.source == Members(sources, group)[NextIndex(sources, group)]
      && Differences(sources.at, after.at, r.value.changes) && SilencesFirst(r.value.changes)
    ensures ExclusiveGroups(sources.at) ==> ExclusiveGroups(after.at)
  {
    hide Differences, ExclusiveGroups, SilencesFirst, MembersAmong, WithMuted;
    after := sources;
    if group == "" {
      return None, after;
    }
    var members := Members(sources, group);
    if |members| < 2 {
      return None, after;
    }
    var at := 0;
    while at < |members| && sources.at[members[at]].muted
      invariant at <= OpenIndex(sources.at, members)
    {
      at := at + 1;
    }
    ModOfNext(at, |members|);
    var next := if at == |members| then 0 else (at + 1) % |members|;
    var changes;
    changes, after := SetSourceMuted(sources, members[next], false);
    r := Some(GroupSwitch(members[next], changes.value));
  }

  // ---------------------------------------------------------------- many switches

  /** Member i is the only one open. */
  predicate SoleOpen(sources: Sources, group: string, i: nat) {
    var m := Members(sources, group);
    i < |m| && forall j :: 0 <= j < |m| ==> (sources.at[m[j]].muted <==> j != i)
  }

  lemma SwitchOpensOne(sources: Sources, group: string)
    requires Switches(sources, group)
    ensures SoleOpen(Switched(sources, group), group, NextIndex(sources, group))
  {}

  lemma SoleIsFirst(sources: Sources, group: string, i: nat)
    requires SoleOpen(sources, group, i)
    ensures OpenIndex(sources.at, Members(sources, group)) == i
  {
    var m := Members(sources, group);
    var o := OpenIndex(sources.at, m);
    assert !sources.at[m[i]].muted && (o < |m| ==> !sources.at[m[o]].muted);
  }

  function SwitchedTimes(sources: Sources, group: string, k: nat): (after: Sources)
    requires Switches(sources, group)
    ensures Members(after, group) == Members(sources, group)
  {
    if k == 0 then sources else Switched(SwitchedTimes(sources, group, k - 1), group)
  }

  /** k turns from member i. */
  function Around(i: nat, k: nat, n: nat): (r: nat)
    requires i < n
    ensures r < n
  {
    if k == 0 then i else Turn(Around(i, k - 1, n), n)
  }

  lemma {:induction false} AroundFrom(sources: Sources, group: string, k: nat)
    requires Switches(sources, group) && k > 0
    ensures var n := |Members(sources, group)|;
      SoleOpen(SwitchedTimes(sources, group, k), group, Around(NextIndex(sources, group), k - 1, n))
  {
    hide SoleOpen, Switched, Members;
    SwitchOpensOne(SwitchedTimes(sources, group, k - 1), group);
    if k > 1 {
      AroundFrom(sources, group, k - 1);
      var at := Around(NextIndex(sources, group), k - 2, |Members(sources, group)|);
      SoleIsFirst(SwitchedTimes(sources, group, k - 1), group, at);
    }
  }

  lemma {:induction false} AroundLater(i: nat, k: nat, n: nat)
    requires i < n
    ensures Around(Turn(i, n), k, n) == Around(i, k + 1, n)
  {
    if k > 0 {
      AroundLater(i, k - 1, n);
    }
  }

  /** k switches of a group of n open member (i + k) mod n when member i was the first
      open one, and member (k - 1) mod n when none was. */
  lemma RoundTheGroup(sources: Sources, group: string, k: nat)
    requires Switches(sources, group) && k > 0
    ensures var n := |Members(sources, group)|;
      var i := OpenIndex(sources.at, Members(sources, group));
      SoleOpen(SwitchedTimes(sources, group, k), group, if i < n then (i + k) % n else (k - 1) % n)
  {
    hide SoleOpen, SwitchedTimes, Members, Around;
    var n, i := |Members(sources, group)|, OpenIndex(sources.at, Members(sources, group));
    AroundFrom(sources, group, k);
    if i < n {
      AroundLater(i, k - 1, n);
      AroundMod(i, k, n);
    } else {
      AroundMod(0, k - 1, n);
    }
  }

  lemma {:induction false} AroundMod(i: nat, k: nat, n: nat)
    requires i < n
    ensures (i + k) % n == Around(i, k, n)
  {
    if k == 0 {
      ModUnique(0, n, i);
    } else {
      AroundMod(i, k - 1, n);
      ModTurns(i + k - 1, n);
    }
  }

  lemma ModOfNext(i: nat, n: nat)
    requires n > 0
    ensures i < n ==> (i + 1) % n == Turn(i, n)
  {
    if i < n {
      ModUnique(if i + 1 == n then 1 else 0, n, Turn(i, n));
    }
  }

  lemma ModTurns(a: nat, n: nat)
    requires n > 0
    ensures (a + 1) % n == Turn(a % n, n)
  {
    var q, r := a / n, a % n;
    if r + 1 == n {
      assert a + 1 == (q + 1) * n + 0;
      ModUnique(q + 1, n, 0);
    } else {
      assert a + 1 == q * n + (r + 1);
      ModUnique(q, n, r + 1);
    }
  }

  lemma ModUnique(q: nat, n: nat, r: nat)
    requires r < n
    ensures (q * n + r) % n == r
  {
    var a := q * n + r;
    OneRemainder(a / n, q, n, a % n, r);
  }

  lemma {:induction false} OneRemainder(p: int, q: int, n: nat, s: nat, r: nat)
    requires p * n + s == q * n + r && r < n && s < n
    ensures s == r
  {
    if p > q {
      AtLeast(p - q, n);
    } else if p < q {
      AtLeast(q - p, n);
    }
  }

  lemma {:induction false} AtLeast(x: nat, n: nat)
    requires x > 0
    ensures x * n >= n
  {
    if x > 1 {
      AtLeast(x - 1, n);
    }
  }
}
