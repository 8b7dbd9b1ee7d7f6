/** The two-way mirror between a unit's firmware and its ALSA controls (device.rs):
    firmware intent is pushed until confirmed, and only then are ALSA edits read back. */
module Mirrors {
  import opened Wrappers
  import opened Numbers
  import opened Protocol
  import opened ConfigBuffers
  import opened VendorDevices

  const ALSA_POLL := 500

  datatype Field = MuteField | HeadphoneField | GainField

  predicate Enabled(id: ProfileId, f: Field) {
    var p := ProfileOf(id);
    match f
    case MuteField => p.syncMute
    case HeadphoneField => p.syncHp
    case GainField => p.syncGain
  }

  // ---------------------------------------------------------------- conversions

  function FwGainToAlsa(id: ProfileId, raw: u16): int {
    RoundEven(GainDb(id, raw) / 0.5)
  }

  function FwHpToAlsa(id: ProfileId, raw: int): int {
    Within(RoundEven(HpDb(id, raw) / 0.5 + 120.0), 0, 120)
  }

  function AlsaHpToFw(id: ProfileId, value: int): int {
    Trunc(HpSteps(id, Clamp((value as real - 120.0) * 0.5, -128.0, 0.0)))
  }

  /** What ALSA holds survives a trip through the firmware. */
  lemma HpRoundTrip(id: ProfileId, value: int)
    requires 0 <= value <= 120
    ensures FwHpToAlsa(id, AlsaHpToFw(id, value)) == value
  {
    var db := (value as real - 120.0) * 0.5;
    assert -128.0 <= db <= 0.0;
    if ProfileOf(id).legacy.Some? {
      assert HpSteps(id, db) == ((value - 120) * 128) as real;
      assert AlsaHpToFw(id, value) == (value - 120) * 128;
      assert HpDb(id, (value - 120) * 128) / 0.5 + 120.0 == value as real;
    } else {
      assert HpSteps(id, db) == ((value - 120) * 2) as real;
      assert AlsaHpToFw(id, value) == (value - 120) * 2;
      assert HpDb(id, (value - 120) * 2) / 0.5 + 120.0 == value as real;
    }
  }

  function Firmware(id: ProfileId, st: DeviceState, f: Field): int {
    match f
    case MuteField => if st.muted then 1 else 0
    case HeadphoneField => Trunc(HpSteps(id, st.hpVolumeDb))
    case GainField => st.gainRaw
  }

  /** The ALSA value that says the same as the firmware. */
  function Image(id: ProfileId, st: DeviceState, f: Field): int {
    match f
    case MuteField => Firmware(id, st, f)
    case HeadphoneField => FwHpToAlsa(id, Firmware(id, st, f))
    case GainField => FwGainToAlsa(id, st.gainRaw)
  }

  lemma SameImage(id: ProfileId, a: DeviceState, b: DeviceState, f: Field)
    requires Firmware(id, a, f) == Firmware(id, b, f)
    ensures Image(id, a, f) == Image(id, b, f)
  {}

  lemma MuteImage(id: ProfileId, st: DeviceState)
    ensures 0 <= Image(id, st, MuteField) <= 1
  {}

  /** The setting an ALSA edit asks for; gain edits are never read. */
  function FromAlsa(id: ProfileId, f: Field, value: int): Setting
    requires f != GainField
  {
    if f == MuteField then Mute(value != 0) else HeadphoneDb(Finite(HpDb(id, AlsaHpToFw(id, value))))
  }

  /** It is always accepted, lands on its own field only, and comes back as the same
      ALSA value. */
  lemma ReadsBack(c: Config, f: Field, value: int)
    requires c.Whole() && f != GainField && ProfileOf(c.profile).legacy.Some?
    requires f == MuteField ==> 0 <= value <= 1
    ensures var s := FromAlsa(c.profile, f, value);
      && Validate(c.profile, s) == Ok(s) && Admissible(c.profile, s)
      && (forall g :: g != f ==>
            Firmware(c.profile, StateOf(Patch(c, s)), g) == Firmware(c.profile, StateOf(c), g))
      && (f == MuteField || 0 <= value <= 120 ==> Image(c.profile, StateOf(Patch(c, s)), f) == value)
  {
    var id, s := c.profile, FromAlsa(c.profile, f, value);
    var fw := AlsaHpToFw(id, value);
    assert -0x8000 <= fw <= 0;
    assert HpSteps(id, HpDb(id, fw)) == fw as real;
    assert HpRaw(id, HpDb(id, fw)) == fw;
    ValidateAdmits(id, s);
    PatchReads(c, s);
    hide Patch, StateOf;
    if f == HeadphoneField && 0 <= value <= 120 {
      HpRoundTrip(id, value);
    }
  }

  // ---------------------------------------------------------------- the card

  datatype Range = Range(min: int, max: int)

  datatype Control = Control(range: Option<Range>)

  type Controls = map<Field, Control>

  /** What a control makes of a value written to it. */
  function Expected(controls: Controls, f: Field, value: int): Result<int> {
    if f !in controls then Err(Unavailable)
    else if f == MuteField then Ok(value)
    else
      match controls[f].range
      case None => Err(Unavailable)
      case Some(r) => if r.min > r.max then Err(Invalid) else Ok(Within(value, r.min, r.max))
  }

  predicate Complete(id: ProfileId, controls: Controls) {
    forall f: Field :: Enabled(id, f) ==>
      && f in controls
      && (f != MuteField ==>
            && controls[f].range.Some?
            && controls[f].range.value.min <= controls[f].range.value.max)
  }

  class Card {
    const id: ProfileId
    /** Commands succeed and every control is known; otherwise anything may go wrong. */
    const steady: bool
    var controls: Controls
    var values: map<Field, int>
    var attempts: nat

    ghost predicate Valid()
      reads this
    {
      && (forall f: Field :: f in values)
      && 0 <= values[MuteField] <= 1
      && (steady ==> Complete(id, controls))
    }

    /** Rediscovery; true when the controls are not those known before. */
    method Refresh() returns (r: Result<bool>)
      requires Valid()
      modifies this`controls
      ensures Valid()
      ensures Complete(id, old(controls)) ==> r == Ok(false) && controls == old(controls)
      ensures r.Err? || !r.value ==> controls == old(controls)
    {
      var failed: bool, late: bool, found: Controls := *, *, *;
      if Complete(id, controls) || late {
        return Ok(false);
      }
      if failed {
        return Err(Unavailable);
      }
      var changed := found != controls;
      controls := found;
      r := Ok(changed);
    }

    method Read(f: Field) returns (r: Result<int>)
      requires Valid()
      ensures r.Ok? ==> f in controls && r.value == values[f]
      ensures steady && f in controls ==> r.Ok?
    {
      var failed: bool := *;
      if f !in controls || (failed && !steady) {
        return Err(Unavailable);
      }
      r := Ok(values[f]);
    }

    /** Success means the control answered with the value it was expected to take. */
    method Write(f: Field, value: int) returns (r: Result<()>)
      requires Valid() && (f == MuteField ==> 0 <= value <= 1)
      modifies this`values, this`attempts
      ensures Valid() && attempts == old(attempts) + 1
      ensures forall g :: g != f ==> values[g] == old(values)[g]
      ensures r.Ok? ==> Expected(controls, f, value) == Ok(values[f])
      ensures steady && Expected(controls, f, value).Ok? ==> r.Ok?
    {
      attempts := attempts + 1;
      var wanted :- Expected(controls, f, value);
      var failed: bool, strayed: bool, stray: int := *, *, *;
      if failed && !steady {
        if strayed {
          values := values[f := if f == MuteField then 1 - values[f] else stray];
        }
        return Err(Unavailable);
      }
      values := values[f := wanted];
      r := Ok(());
    }
  }

  // ---------------------------------------------------------------- one field

  /** Firmware, unconfirmed intent and ALSA at one moment. */
  datatype Side = Side(fw: DeviceState, pending: map<Field, int>, values: map<Field, int>) {
    predicate Whole() {
      (forall f: Field :: f in values) && 0 <= values[MuteField] <= 1
    }
  }

  /** What a poll is told besides. */
  datatype Round = Round(
    id: ProfileId, controls: Controls, last: Option<DeviceState>, rediscovered: bool,
    readDue: bool, steady: bool)

  predicate Moved(p: Round, fw: DeviceState, f: Field) {
    p.rediscovered || p.last.None? || Firmware(p.id, p.last.value, f) != Firmware(p.id, fw, f)
  }

  /** Firmware intent a poll has to push, and the value it pushes. */
  predicate Owes(p: Round, a: Side, f: Field) {
    Moved(p, a.fw, f) || f in a.pending
  }

  function Intent(p: Round, a: Side, f: Field): int
    requires Owes(p, a, f)
  {
    if Moved(p, a.fw, f) then Image(p.id, a.fw, f) else a.pending[f]
  }

  predicate Kept(id: ProfileId, f: Field, a: Side, b: Side)
    requires f in a.values && f in b.values
  {
    && Firmware(id, b.fw, f) == Firmware(id, a.fw, f)
    && (f in a.pending <==> f in b.pending)
    && (f in a.pending ==> a.pending[f] == b.pending[f])
    && b.values[f] == a.values[f]
  }

  /** Values the firmware can say too. */
  predicate InScale(f: Field, value: int) {
    f == MuteField || 0 <= value <= 120
  }

  predicate Edited(p: Round, f: Field, a: Side)
    requires f in a.values
  {
    var expected := Expected(p.controls, f, Image(p.id, a.fw, f));
    expected.Ok? && expected.value != a.values[f]
  }

  /** One field of one poll. A poll that pushes intent reads nothing back; a write that is
      not confirmed stays owed; only a due read of a field that owes nothing may change
      the firmware, and then to what ALSA says. */
  predicate Synced(p: Round, f: Field, a: Side, b: Side)
    requires f in a.values && f in b.values
  {
    if Owes(p, a, f) then
      && Firmware(p.id, b.fw, f) == Firmware(p.id, a.fw, f)
      && (f in b.pending ==> b.pending[f] == Intent(p, a, f))
      && (f !in b.pending ==> Expected(p.controls, f, Intent(p, a, f)) == Ok(b.values[f]))
      && (p.steady && Expected(p.controls, f, Intent(p, a, f)).Ok? ==> f !in b.pending)
    else
      && f !in b.pending
      && b.values[f] == a.values[f]
      && (Firmware(p.id, b.fw, f) != Firmware(p.id, a.fw, f) ==> p.readDue && f != GainField && Edited(p, f, a))
      && (p.steady && p.readDue && f != GainField && f in p.controls && Edited(p, f, a) && InScale(f, a.values[f]) ==>
            Image(p.id, b.fw, f) == a.values[f])
  }

  lemma SyncedThenKept(p: Round, f: Field, a: Side, b: Side, c: Side)
    requires f in a.values && f in b.values && f in c.values
    requires Synced(p, f, a, b) && Kept(p.id, f, b, c)
    ensures Synced(p, f, a, c)
  {
    SameImage(p.id, b.fw, c.fw, f);
  }

  lemma KeptThenSynced(p: Round, f: Field, a: Side, b: Side, c: Side)
    requires f in a.values && f in b.values && f in c.values
    requires Kept(p.id, f, a, b) && Synced(p, f, b, c)
    ensures Synced(p, f, a, c)
  {
    SameImage(p.id, a.fw, b.fw, f);
  }

  /** A push: the intent stays owed when it failed and is confirmed when it did not. */
  lemma Pushed(p: Round, f: Field, a: Side, b: Side, failed: bool)
    requires a.Whole() && b.Whole() && Owes(p, a, f) && b.fw == a.fw
    requires forall g :: g != f ==> b.values[g] == a.values[g]
    requires b.pending == if failed then a.pending[f := Intent(p, a, f)] else a.pending - {f}
    requires !failed ==> Expected(p.controls, f, Intent(p, a, f)) == Ok(b.values[f])
    requires p.steady && Expected(p.controls, f, Intent(p, a, f)).Ok? ==> !failed
    ensures Synced(p, f, a, b) && forall g: Field :: g != f ==> Kept(p.id, g, a, b)
  {
    hide Expected, Image, Firmware;
  }

  /** A read: only this field of the firmware may follow, and then to what ALSA says. */
  lemma Pulled(p: Round, f: Field, a: Side, b: Side, dirty: bool)
    requires a.Whole() && b.Whole() && !Owes(p, a, f) && p.readDue && f != GainField
    requires b.values == a.values && b.pending == a.pending && (!dirty ==> b.fw == a.fw)
    requires forall g: Field :: g != f ==> Firmware(p.id, b.fw, g) == Firmware(p.id, a.fw, g)
    requires dirty ==> Edited(p, f, a) && (InScale(f, a.values[f]) ==> Image(p.id, b.fw, f) == a.values[f])
    requires p.steady && f in p.controls && Edited(p, f, a) ==> dirty
    ensures Synced(p, f, a, b) && forall g: Field :: g != f ==> Kept(p.id, g, a, b)
  {
    hide Expected, Image, Firmware;
  }

  const ALL := [MuteField, HeadphoneField, GainField]

  /** The first n fields are done, the others untouched. */
  predicate Through(p: Round, n: nat, a: Side, b: Side)
    requires a.Whole() && b.Whole()
  {
    forall k :: 0 <= k < 3 ==>
      if k < n && Enabled(p.id, ALL[k]) then Synced(p, ALL[k], a, b) else Kept(p.id, ALL[k], a, b)
  }

  lemma ThroughNext(p: Round, n: nat, a: Side, b: Side, c: Side)
    requires n < 3 && a.Whole() && b.Whole() && c.Whole()
    requires Through(p, n, a, b)
    requires if Enabled(p.id, ALL[n]) then Synced(p, ALL[n], b, c) else Kept(p.id, ALL[n], b, c)
    requires forall g: Field :: g != ALL[n] ==> Kept(p.id, g, b, c)
    ensures Through(p, n + 1, a, c)
  {
    hide Synced;
    forall k | 0 <= k < 3
      ensures if k < n + 1 && Enabled(p.id, ALL[k]) then Synced(p, ALL[k], a, c) else Kept(p.id, ALL[k], a, c)
    {
      if k < n && Enabled(p.id, ALL[k]) {
        SyncedThenKept(p, ALL[k], a, b, c);
      } else if k == n && Enabled(p.id, ALL[k]) {
        KeptThenSynced(p, ALL[k], a, b, c);
      } else {
        assert Kept(p.id, ALL[k], a, b);
        assert k != n ==> ALL[k] != ALL[n];
        assert Kept(p.id, ALL[k], b, c);
      }
    }
  }

  /** What a field owes or shows does not depend on the fields synced before it. */
  lemma SameCase(p: Round, f: Field, a: Side, b: Side)
    requires a.Whole() && b.Whole() && Kept(p.id, f, a, b)
    ensures Owes(p, a, f) <==> Owes(p, b, f)
    ensures Edited(p, f, a) <==> Edited(p, f, b)
  {
    SameImage(p.id, a.fw, b.fw, f);
  }

  /** Some field owes nothing, is due to be read and was edited. */
  predicate SomeEdit(p: Round, a: Side)
    requires a.Whole()
  {
    p.readDue && exists f: Field :: f != GainField && Enabled(p.id, f) && !Owes(p, a, f) && Edited(p, f, a)
  }

  predicate SomeDebt(p: Round, a: Side) {
    exists f: Field :: Enabled(p.id, f) && Owes(p, a, f)
  }

  predicate Due(lastRead: Option<nat>, now: nat) {
    lastRead.None? || now - lastRead.value >= ALSA_POLL
  }

  /** The images of all mirrored fields, owed from now on. */
  function AllOwed(id: ProfileId, pending: map<Field, int>, fw: DeviceState): map<Field, int> {
    map f: Field | f in pending || Enabled(id, f) ::
      if Enabled(id, f) then Image(id, fw, f) else pending[f]
  }

  class Mirror {
    var last: Option<DeviceState>
    var pending: map<Field, int>
    var lastRead: Option<nat>

    constructor ()
      ensures last == None && pending == map[] && lastRead == None
    {
      last, pending, lastRead := None, map[], None;
    }

    ghost function Now(config: ConfigBuffer, card: Card): Side
      requires config.Valid()
      reads this, config.main, config.phones, config.monitor, card
    {
      Side(StateOf(config.Contents()), pending, card.values)
    }

    ghost predicate PendingSound()
      reads this
    {
      MuteField in pending ==> 0 <= pending[MuteField] <= 1
    }

    /** Pushes an unconfirmed value; only confirmation discharges it. */
    method Push(card: Card, f: Field) returns (failed: bool)
      requires card.Valid() && PendingSound() && f in pending
      modifies this`pending, card`values, card`attempts
      ensures card.Valid() && PendingSound()
      ensures pending == if failed then old(pending) else old(pending) - {f}
      ensures forall g :: g != f ==> card.values[g] == old(card.values)[g]
      ensures !failed ==> Expected(card.controls, f, old(pending)[f]) == Ok(card.values[f])
      ensures card.steady && Expected(card.controls, f, old(pending)[f]).Ok? ==> !failed
    {
      var r := card.Write(f, pending[f]);
      if r.Ok? {
        pending := pending - {f};
      }
      failed := r.Err?;
    }

    /** Reads an edit back into the config; `image` is what the firmware says now. */
    method Pull(config: ConfigBuffer, card: Card, f: Field, image: int) returns (dirty: bool, failed: bool)
      requires config.Valid() && card.Valid() && f != GainField
      requires ProfileOf(config.profile).legacy.Some?
      modifies config.main, config.phones, config.monitor
      ensures config.Valid()
      ensures !dirty ==> config.Contents() == old(config.Contents())
      ensures dirty ==>
        Expected(card.controls, f, image).Ok? && Expected(card.controls, f, image).value != card.values[f]
      ensures dirty && InScale(f, card.values[f]) ==>
        Image(config.profile, StateOf(config.Contents()), f) == card.values[f]
      ensures forall g: Field :: g != f ==>
        Firmware(config.profile, StateOf(config.Contents()), g) ==
          Firmware(config.profile, StateOf(old(config.Contents())), g)
      ensures card.steady && f in card.controls ==>
        (dirty <==> Expected(card.controls, f, image).Ok? && Expected(card.controls, f, image).value != card.values[f])
    {
      hide Patch, StateOf;
      dirty, failed := false, true;
      var observed := card.Read(f);
      var expected := Expected(card.controls, f, image);
      if observed.Ok? && expected.Ok? {
        failed := false;
        if observed.value != expected.value {
          ReadsBack(config.Contents(), f, observed.value);
          var r := config.Apply(FromAlsa(config.profile, f, observed.value));
          dirty := true;
        }
      }
    }

    method SyncField(config: ConfigBuffer, card: Card, f: Field, st: DeviceState, ghost p: Round,
                     rediscovered: bool, readDue: bool)
      returns (dirty: bool, failed: bool)
      requires config.Valid() && card.Valid() && PendingSound()
      requires ProfileOf(p.id).legacy.Some? && Enabled(p.id, f)
      requires p == Round(config.profile, card.controls, last, rediscovered, readDue, card.steady)
      requires Firmware(p.id, st, f) == Firmware(p.id, StateOf(config.Contents()), f)
      modifies this`pending, config.main, config.phones, config.monitor, card`values, card`attempts
      ensures config.Valid() && card.Valid() && PendingSound()
      ensures Synced(p, f, old(Now(config, card)), Now(config, card))
      ensures forall g: Field :: g != f ==> Kept(p.id, g, old(Now(config, card)), Now(config, card))
      ensures dirty ==>
        !Owes(p, old(Now(config, card)), f) && readDue && f != GainField && Edited(p, f, old(Now(config, card)))
      ensures !dirty ==> config.Contents() == old(config.Contents())
      ensures !Owes(p, old(Now(config, card)), f) ==> card.attempts == old(card.attempts)
    {
      hide Patch, StateOf, Expected, Image, Firmware;
      dirty, failed := false, false;
      var id := config.profile;
      SameImage(id, st, StateOf(config.Contents()), f);
      MuteImage(id, st);
      var value := Firmware(id, st, f);
      if last.None? || Firmware(id, last.value, f) != value || rediscovered {
        pending := pending[f := Image(id, st, f)];
      }
      ghost var a := old(Now(config, card));
      if f in pending {
        failed := Push(card, f);
        Pushed(p, f, a, Now(config, card), failed);
      } else if readDue && f != GainField {
        dirty, failed := Pull(config, card, f, Image(id, st, f));
        Pulled(p, f, a, Now(config, card), dirty);
      }
      hide Synced, Kept;
    }

    /** One look at the unit: every mirrored field in turn, or, when the controls cannot be
        found, nothing but the note that all of them are owed. */
    method Observe(config: ConfigBuffer, card: Card, now: nat) returns (dirty: bool, ghost round: Option<Round>)
      requires config.Valid() && card.Valid() && PendingSound()
      requires ProfileOf(config.profile).legacy.Some? && card.id == config.profile
      modifies this`pending, this`lastRead, config.main, config.phones, config.monitor
      modifies card`controls, card`values, card`attempts
      ensures config.Valid() && card.Valid() && PendingSound() && Now(config, card).Whole()
      ensures lastRead == if Due(old(lastRead), now) then Some(now) else old(lastRead)
      ensures round.None? ==>
        && !dirty && card.values == old(card.values) && card.attempts == old(card.attempts)
        && pending == AllOwed(config.profile, old(pending), StateOf(config.Contents()))
      ensures round.Some? ==>
        && round.value.id == config.profile && round.value.controls == card.controls && round.value.last == last
        && round.value.steady == card.steady && round.value.readDue == Due(old(lastRead), now)
        && old(Now(config, card)).Whole()
        && Through(round.value, 3, old(Now(config, card)), Now(config, card))
        && (dirty ==> SomeEdit(round.value, old(Now(config, card))))
        && (!SomeDebt(round.value, old(Now(config, card))) ==> card.attempts == old(card.attempts))
      ensures Complete(card.id, old(card.controls)) ==>
        round.Some? && !round.value.rediscovered && card.controls == old(card.controls)
      ensures !dirty ==> config.Contents() == old(config.Contents())
    {
      hide Synced, Kept, Edited, Owes, StateOf, Patch, Image, Complete, Validate;
      var id := config.profile;
      ghost var start := Now(config, card);
      var st := StateOf(config.Contents());
      var readDue := Due(lastRead, now);
      if readDue {
        lastRead := Some(now);
      }
      dirty := false;
      var refreshed := card.Refresh();
      if refreshed.Err? {
        pending := AllOwed(id, pending, st);
        MuteImage(id, st);
        return false, None;
      }
      ghost var p := Round(id, card.controls, last, refreshed.value, readDue, card.steady);
      NothingYet(p, start);
      for i := 0 to 3
        invariant config.Valid() && card.Valid() && PendingSound() && Now(config, card).Whole()
        invariant card.controls == p.controls && start.Whole()
        invariant lastRead == if readDue then Some(now) else old(lastRead)
        invariant Through(p, i, start, Now(config, card))
        invariant dirty ==> SomeEdit(p, start)
        invariant !SomeDebt(p, start) ==> card.attempts == old(card.attempts)
        invariant !dirty ==> config.Contents() == old(config.Contents())
      {
        var f := ALL[i];
        ghost var here := Now(config, card);
        if Enabled(id, f) {
          StillSame(p, i, start, here);
          var touched, failed := SyncField(config, card, f, st, p, refreshed.value, readDue);
          dirty := dirty || touched;
          ThroughNext(p, i, start, here, Now(config, card));
        } else {
          NothingYet(p, here);
          ThroughNext(p, i, start, here, here);
        }
      }
      round := Some(p);
    }
  }

  lemma NothingYet(p: Round, a: Side)
    requires a.Whole()
    ensures Through(p, 0, a, a) && forall f: Field :: Kept(p.id, f, a, a)
  {}

  lemma StillSame(p: Round, n: nat, a: Side, b: Side)
    requires n < 3 && a.Whole() && b.Whole() && Through(p, n, a, b)
    ensures Firmware(p.id, a.fw, ALL[n]) == Firmware(p.id, b.fw, ALL[n])
    ensures Owes(p, a, ALL[n]) <==> Owes(p, b, ALL[n])
    ensures Edited(p, ALL[n], a) <==> Edited(p, ALL[n], b)
  {
    hide Synced;
    assert Kept(p.id, ALL[n], a, b);
    SameCase(p, ALL[n], a, b);
  }
}
