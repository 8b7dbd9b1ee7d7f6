/** A unit's polls and jobs (device.rs): the vendor device and its ALSA mirror together. */
module SyncedDevices {
  import opened Wrappers
  import opened Protocol
  import opened ConfigBuffers
  import opened VendorDevices
  import opened Mirrors

  // ---------------------------------------------------------------- the mirror's promises

  /** Unconfirmed values are the images of the firmware last committed. */
  predicate Faithful(id: ProfileId, last: Option<DeviceState>, pending: map<Field, int>) {
    forall f: Field :: f in pending ==> Enabled(id, f) && last.Some? && pending[f] == Image(id, last.value, f)
  }

  lemma FaithfulAfter(p: Round, a: Side, b: Side)
    requires a.Whole() && b.Whole() && Through(p, 3, a, b)
    requires Faithful(p.id, p.last, a.pending)
    ensures Faithful(p.id, Some(b.fw), b.pending)
  {
    hide Image, Expected;
    forall f: Field | f in b.pending
      ensures Enabled(p.id, f) && b.pending[f] == Image(p.id, b.fw, f)
    {
      EachField(p, f, a, b);
      if Enabled(p.id, f) {
        SameImage(p.id, a.fw, b.fw, f);
        if !Moved(p, a.fw, f) {
          SameImage(p.id, p.last.value, a.fw, f);
        }
      }
    }
  }

  lemma EachField(p: Round, f: Field, a: Side, b: Side)
    requires a.Whole() && b.Whole() && Through(p, 3, a, b)
    ensures if Enabled(p.id, f) then Synced(p, f, a, b) else Kept(p.id, f, a, b)
  {
    hide Synced, Kept;
    assert f == ALL[0] || f == ALL[1] || f == ALL[2];
  }

  /** Firmware and ALSA say the same and nothing is owed. Gain is only ever pushed. */
  predicate Agreed(id: ProfileId, controls: Controls, last: DeviceState, pending: map<Field, int>,
      values: map<Field, int>)
    requires forall f: Field :: f in values
  {
    forall f: Field :: Enabled(id, f) ==>
      f !in pending && (f != GainField ==> Expected(controls, f, Image(id, last, f)) == Ok(values[f]))
  }

  /** The headphone control speaks half decibels from -60 to 0. */
  predicate Scaled(controls: Controls, values: map<Field, int>)
    requires HeadphoneField in values
  {
    && HeadphoneField in controls
    && controls[HeadphoneField].range.Some?
    && var r := controls[HeadphoneField].range.value;
       0 <= r.min <= values[HeadphoneField] <= r.max <= 120
  }

  lemma Settles(p: Round, a: Side, b: Side)
    requires a.Whole() && b.Whole() && Through(p, 3, a, b)
    requires Faithful(p.id, p.last, a.pending)
    requires p.steady && p.readDue && Complete(p.id, p.controls) && Scaled(p.controls, a.values)
    ensures Agreed(p.id, p.controls, b.fw, b.pending, b.values)
  {
    forall f: Field | Enabled(p.id, f)
      ensures f !in b.pending
      ensures f != GainField ==> Expected(p.controls, f, Image(p.id, b.fw, f)) == Ok(b.values[f])
    {
      EachField(p, f, a, b);
      FieldSettles(p, f, a, b);
    }
  }

  lemma FieldSettles(p: Round, f: Field, a: Side, b: Side)
    requires a.Whole() && b.Whole() && Synced(p, f, a, b) && Enabled(p.id, f)
    requires f in a.pending ==> p.last.Some? && a.pending[f] == Image(p.id, p.last.value, f)
    requires p.steady && p.readDue && Complete(p.id, p.controls) && Scaled(p.controls, a.values)
    ensures f !in b.pending
    ensures f != GainField ==> Expected(p.controls, f, Image(p.id, b.fw, f)) == Ok(b.values[f])
  {
    hide Image, Firmware;
    if Owes(p, a, f) {
      SameImage(p.id, a.fw, b.fw, f);
      if !Moved(p, a.fw, f) {
        SameImage(p.id, p.last.value, a.fw, f);
      }
    } else if !Edited(p, f, a) {
      SameImage(p.id, a.fw, b.fw, f);
    }
  }

  /** In agreement with the firmware unchanged, there is nothing to push or to read back. */
  lemma Quiet(p: Round, a: Side)
    requires a.Whole() && !p.rediscovered && p.last == Some(a.fw)
    requires Agreed(p.id, p.controls, a.fw, a.pending, a.values)
    ensures !SomeDebt(p, a) && !SomeEdit(p, a)
  {}

  lemma StaysAgreed(p: Round, a: Side, b: Side)
    requires a.Whole() && b.Whole() && Through(p, 3, a, b) && a.fw == b.fw
    requires !SomeDebt(p, a) && Agreed(p.id, p.controls, a.fw, a.pending, a.values)
    ensures Agreed(p.id, p.controls, b.fw, b.pending, b.values)
  {
    hide Image, Expected;
    forall f: Field | Enabled(p.id, f)
      ensures f !in b.pending && b.values[f] == a.values[f]
    {
      EachField(p, f, a, b);
    }
  }

  /** Which fields of the firmware a poll leaves alone, when the firmware is what the mirror
      last saw: those with unconfirmed intent, all when no read is due, and those whose ALSA
      control shows their image. What ALSA shows takes the place of any other. */
  predicate Survives(
    id: ProfileId, controls: Controls, was: DeviceState, now: DeviceState, pending: map<Field, int>,
    values: map<Field, int>, readDue: bool)
    requires forall f: Field :: f in values
  {
    forall f: Field :: Enabled(id, f) && f != GainField ==>
      && (Firmware(id, now, f) == Firmware(id, was, f) <==>
            f in pending || !readDue || Expected(controls, f, Image(id, was, f)) == Ok(values[f]))
      && (Firmware(id, now, f) != Firmware(id, was, f) ==> Image(id, now, f) == values[f])
  }

  lemma PollSurvival(p: Round, a: Side, b: Side)
    requires a.Whole() && b.Whole() && Through(p, 3, a, b)
    requires p.steady && !p.rediscovered && p.last == Some(a.fw) && Complete(p.id, p.controls)
      && Scaled(p.controls, a.values)
    ensures Survives(p.id, p.controls, a.fw, b.fw, a.pending, a.values, p.readDue)
  {
    forall f: Field | Enabled(p.id, f) && f != GainField
      ensures Firmware(p.id, b.fw, f) == Firmware(p.id, a.fw, f) <==>
        f in a.pending || !p.readDue || Expected(p.controls, f, Image(p.id, a.fw, f)) == Ok(a.values[f])
      ensures Firmware(p.id, b.fw, f) != Firmware(p.id, a.fw, f) ==> Image(p.id, b.fw, f) == a.values[f]
    {
      EachField(p, f, a, b);
      FieldSurvival(p, f, a, b);
    }
  }

  lemma FieldSurvival(p: Round, f: Field, a: Side, b: Side)
    requires a.Whole() && b.Whole() && Synced(p, f, a, b) && Enabled(p.id, f) && f != GainField
    requires p.steady && !p.rediscovered && p.last == Some(a.fw) && Complete(p.id, p.controls)
      && Scaled(p.controls, a.values)
    ensures Firmware(p.id, b.fw, f) == Firmware(p.id, a.fw, f) <==>
      f in a.pending || !p.readDue || Expected(p.controls, f, Image(p.id, a.fw, f)) == Ok(a.values[f])
    ensures Firmware(p.id, b.fw, f) != Firmware(p.id, a.fw, f) ==> Image(p.id, b.fw, f) == a.values[f]
  {
    hide Image, Firmware;
    if Firmware(p.id, b.fw, f) == Firmware(p.id, a.fw, f) {
      SameImage(p.id, a.fw, b.fw, f);
    }
  }

  // ---------------------------------------------------------------- the unit

  function Validated(id: ProfileId, settings: seq<Setting>): (r: seq<Setting>)
    requires forall i :: 0 <= i < |settings| ==> Validate(id, settings[i]).Ok?
    ensures |r| == |settings| && AllAdmissible(id, r)
    ensures forall i :: 0 <= i < |settings| ==> r[i] == Validate(id, settings[i]).value
  {
    var r := seq(|settings|, i requires 0 <= i < |settings| => Validate(id, settings[i]).value);
    AllValidated(id, settings, r);
    r
  }

  lemma AllValidated(id: ProfileId, settings: seq<Setting>, r: seq<Setting>)
    requires |r| == |settings|
    requires forall i :: 0 <= i < |settings| ==> Validate(id, settings[i]) == Ok(r[i])
    ensures AllAdmissible(id, r)
  {
    forall i | 0 <= i < |r| ensures Admissible(id, r[i]) {
      ValidateAdmits(id, settings[i]);
    }
  }

  /** The field a setting asks to be mirrored. */
  function FieldOf(s: Setting): Option<Field> {
    match s
    case Mute(_) => Some(MuteField)
    case HeadphoneDb(_) => Some(HeadphoneField)
    case GainRaw(_) => Some(GainField)
    case _ => None
  }

  predicate Requests(settings: seq<Setting>, f: Field) {
    exists i :: 0 <= i < |settings| && FieldOf(settings[i]) == Some(f)
  }

  class SyncedDevice {
    const vendor: VendorDevice
    /** Only legacy units have an ALSA card to mirror. */
    const card: Card?
    const mirror: Mirror

    ghost predicate Valid()
      reads this, vendor, card, mirror
    {
      && vendor.Valid() && mirror.PendingSound()
      && (card != null <==> ProfileOf(vendor.profile).legacy.Some?)
      && (card != null ==> card.Valid() && card.id == vendor.profile)
      && (card == null ==> mirror.pending == map[])
    }

    ghost predicate Sound()
      reads this, mirror
    {
      Faithful(vendor.profile, mirror.last, mirror.pending)
    }

    /** Nothing owed, ALSA and firmware alike, and the mirror knows the firmware. */
    ghost predicate AtRest()
      requires Valid() && card != null
      reads this, vendor, card, mirror
    {
      && mirror.last == Some(StateOf(vendor.device))
      && Agreed(vendor.profile, card.controls, mirror.last.value, mirror.pending, card.values)
    }

    constructor (vendor: VendorDevice, card: Card?)
      requires vendor.Valid()
      requires card != null <==> ProfileOf(vendor.profile).legacy.Some?
      requires card != null ==> card.Valid() && card.id == vendor.profile
      ensures Valid() && Sound() && this.vendor == vendor && this.card == card && fresh(mirror)
    {
      this.vendor, this.card := vendor, card;
      mirror := new Mirror();
    }

    /** A poll of a unit without ALSA only reads. */
    method PollDock() returns (r: Result<DeviceState>)
      requires Valid() && Sound() && card == null
      modifies mirror
      ensures Valid() && Sound()
      ensures r.Ok? ==> r.value == StateOf(vendor.device) && mirror.last == Some(r.value)
    {
      var config :- vendor.ReadConfig();
      mirror.last := Some(StateOf(config.Contents()));
      r := Ok(StateOf(config.Contents()));
    }

    /** One poll. Unless a write failed, what is still owed is what the firmware now says;
        a field with unconfirmed intent is not read back; a healthy due poll leaves
        firmware and ALSA agreed; and in agreement a poll writes nothing. */
    method Poll(now: nat) returns (r: Result<DeviceState>)
      requires Valid() && card != null
      modifies vendor, card, mirror
      ensures Valid()
      ensures old(Sound()) && (r.Ok? || vendor.written == old(vendor.written)) ==> Sound()
      ensures r.Ok? ==> r.value == StateOf(vendor.device) && mirror.last == Some(r.value)
      ensures r.Ok? ==> forall f: Field ::
        Enabled(vendor.profile, f)
        && (f in old(mirror.pending) || old(mirror.last).None?
            || Firmware(vendor.profile, old(mirror.last).value, f) != Firmware(vendor.profile,
              StateOf(old(vendor.device)), f)) ==>
          Firmware(vendor.profile, StateOf(vendor.device), f) ==
            Firmware(vendor.profile, StateOf(old(vendor.device)), f)
      ensures vendor.reliable ==> r.Ok?
      ensures Complete(card.id, old(card.controls)) ==> card.controls == old(card.controls)
      ensures old(Sound()) && vendor.reliable && card.steady && Due(old(mirror.lastRead), now) ==>
        (Scaled(old(card.controls), old(card.values)) ==> AtRest())
      ensures
        r.Ok? && card.steady && Scaled(old(card.controls), old(card.values))
        && old(mirror.last) == Some(StateOf(old(vendor.device))) ==>
        Survives(vendor.profile, card.controls, StateOf(old(vendor.device)), StateOf(vendor.device),
          old(mirror.pending),
          old(card.values), Due(old(mirror.lastRead), now))
      ensures vendor.reliable && card.steady && old(AtRest()) ==>
        AtRest() && vendor.written == old(vendor.written) && card.attempts == old(card.attempts)
      ensures Due(old(mirror.lastRead), now) && r.Ok? ==> mirror.lastRead == Some(now)
    {
      hide Synced, Kept, Edited, Owes, StateOf, Patch, Image, Complete, Stored, Decode, Through, SomeDebt, SomeEdit,
        Agreed, Scaled, Faithful, Firmware, Survives;
      var config :- vendor.ReadConfig();
      ghost var start := mirror.Now(config, card);
      var dirty, round := mirror.Observe(config, card, now);
      ghost var end := mirror.Now(config, card);
      if round.Some? {
        RoundDone(round.value, start, end, dirty);
      } else {
        if Faithful(vendor.profile, mirror.last, start.pending) {
          AllOwedFaithful(vendor.profile, mirror.last, start.pending, start.fw);
        }
      }
      r := Commit(config, dirty);
    }

    /** Writes the config back when a field was read into it, then remembers it. */
    method Commit(config: ConfigBuffer, dirty: bool) returns (r: Result<DeviceState>)
      requires Valid() && card != null && config.Valid() && config.profile == vendor.profile
      requires !dirty ==> config.Contents() == vendor.device
      modifies vendor, mirror`last
      ensures Valid()
      ensures r.Ok? ==>
        vendor.device == config.Contents() && r.value == StateOf(vendor.device) && mirror.last == Some(r.value)
      ensures !dirty || vendor.reliable ==> r.Ok?
      ensures vendor.written == old(vendor.written) <==> !dirty
    {
      hide StateOf, Decode;
      if dirty {
        MainBack(vendor.device, config.Contents());
        var _ :- vendor.WriteConfigRaw(config.main[..MainLength(vendor.profile)]);
      }
      mirror.last := Some(StateOf(config.Contents()));
      r := Ok(StateOf(config.Contents()));
    }

    /** Two polls in good health: the first brings firmware and ALSA together, the second
        finds nothing to do. */
    method PollTwice(first: nat, second: nat) returns (ghost attempts: nat, ghost written: seq<Wire>)
      requires Valid() && Sound() && card != null
      requires vendor.reliable && card.steady && Complete(card.id, card.controls)
      requires Scaled(card.controls, card.values) && Due(mirror.lastRead, first)
      modifies vendor, card, mirror
      ensures Valid() && Sound() && AtRest()
      ensures attempts == card.attempts && written == vendor.written
    {
      hide Sound, AtRest, Scaled, Due, Complete;
      var a := Poll(first);
      attempts, written := card.attempts, vendor.written;
      var b := Poll(second);
    }

    /** A job: every setting is validated before any transfer, then one config is read,
        patched and written. A unit never sees half of a job's settings unless the
        transfer itself failed. */
    method Apply(settings: seq<Setting>) returns (r: Result<DeviceState>)
      requires Valid()
      modifies vendor, mirror
      ensures Valid()
      ensures (exists i :: 0 <= i < |settings| && Validate(vendor.profile, settings[i]).Err?) ==>
        r.Err? && vendor.device == old(vendor.device) && vendor.written == old(vendor.written)
          && mirror.pending == old(mirror.pending)
      ensures (forall i :: 0 <= i < |settings| ==> Validate(vendor.profile, settings[i]).Ok?) && vendor.reliable ==>
        r.Ok?
      ensures r.Ok? ==>
        && (forall i :: 0 <= i < |settings| ==> Validate(vendor.profile, settings[i]).Ok?)
        && vendor.device == Replay(old(vendor.device), Validated(vendor.profile, settings))
        && r.value == StateOf(vendor.device) && mirror.last == Some(r.value)
        && mirror.pending == Requested(vendor.profile, old(mirror.pending), r.value, settings)
      ensures r.Ok? && vendor.profile == XlrDockMk2 ==>
        vendor.written == old(vendor.written) + Differing(BlocksOf(old(vendor.device)), BlocksOf(vendor.device))
      ensures r.Err? ==> mirror.pending == old(mirror.pending) && mirror.last == old(mirror.last)
      ensures mirror.lastRead == old(mirror.lastRead)
    {
      hide StateOf, Patch, Replay, Stored, StoredAll, Differing, Decode, DecodeDock, Validate;
      for i := 0 to |settings|
        invariant forall k :: 0 <= k < i ==> Validate(vendor.profile, settings[k]).Ok?
      {
        var _ :- Validate(vendor.profile, settings[i]);
      }
      var config :- vendor.ReadConfig();
      var before := config.Contents();
      ApplyAll(config, settings);
      if vendor.profile == XlrDockMk2 {
        var _ :- vendor.WriteChanges(before, config.Contents());
      } else {
        MainBack(vendor.device, config.Contents());
        var _ :- vendor.WriteConfigRaw(config.main[..MainLength(vendor.profile)]);
      }
      var st := StateOf(config.Contents());
      mirror.pending := Requested(vendor.profile, mirror.pending, st, settings);
      MuteImage(vendor.profile, st);
      mirror.last := Some(st);
      r := Ok(st);
    }

    /** A job and then a poll in good health. A field the job did not set is afterwards as the
        hardware had it before, the turn of a knob included, exactly if it was owed, or no
        read is due, or ALSA showed it already; otherwise ALSA's older value replaces it. */
    method JobThenPoll(settings: seq<Setting>, now: nat) returns (r: Result<DeviceState>)
      requires Valid() && card != null && card.steady && Scaled(card.controls, card.values)
      modifies vendor, card, mirror
      ensures Valid()
      ensures r.Ok? ==> forall f: Field :: Enabled(vendor.profile, f) && f != GainField && !Requests(settings, f) ==>
        && (Firmware(vendor.profile, StateOf(vendor.device), f) ==
            Firmware(vendor.profile, StateOf(old(vendor.device)), f) <==>
              || f in old(mirror.pending) || !Due(old(mirror.lastRead), now)
              || Expected(old(card.controls), f, Image(vendor.profile, StateOf(old(vendor.device)), f)) ==
                Ok(old(card.values)[f]))
        && (Firmware(vendor.profile, StateOf(vendor.device), f) != Firmware(vendor.profile, StateOf(old(vendor.device)),
          f) ==>
              Image(vendor.profile, StateOf(vendor.device), f) == old(card.values)[f])
      ensures r.Ok? ==> forall f: Field :: Enabled(vendor.profile, f) && f != GainField && Requests(settings, f) ==>
        && (forall i :: 0 <= i < |settings| ==> Validate(vendor.profile, settings[i]).Ok?)
        && Firmware(vendor.profile, StateOf(vendor.device), f) ==
           Firmware(vendor.profile, StateOf(Replay(old(vendor.device), Validated(vendor.profile, settings))), f)
    {
      hide StateOf, Replay, Validate, Image, Firmware, Survives, Complete, Scaled, Expected, Due, Sound, AtRest,
        Faithful, Requested;
      var job :- Apply(settings);
      ghost var pending := mirror.pending;
      r := Poll(now);
      if r.Ok? {
        SurvivesJob(vendor.profile, card.controls, old(vendor.device), settings, job, r.value, old(mirror.pending),
          old(card.values), Due(old(mirror.lastRead), now));
      }
    }

    method ApplyAll(config: ConfigBuffer, settings: seq<Setting>)
      requires config.Valid() && config.profile == vendor.profile
      requires forall i :: 0 <= i < |settings| ==> Validate(vendor.profile, settings[i]).Ok?
      modifies config.main, config.phones, config.monitor
      ensures config.Valid()
      ensures config.Contents() == Replay(old(config.Contents()), Validated(vendor.profile, settings))
    {
      hide StateOf, Patch, Validate;
      ghost var all := Validated(vendor.profile, settings);
      for i := 0 to |settings|
        invariant config.Valid()
        invariant config.Contents() == Replay(old(config.Contents()), all[..i])
      {
        var r := config.Apply(settings[i]);
        assert all[..i + 1][..i] == all[..i] && all[..i + 1][i] == all[i];
      }
      assert all[..|settings|] == all;
    }
  }

  /** `Mirror::requested`: the fields a job set are owed to ALSA. */
  function Requested(id: ProfileId, pending: map<Field, int>, st: DeviceState, settings: seq<Setting>)
      : map<Field, int> {
    map f: Field | f in pending || (Enabled(id, f) && Requests(settings, f)) ::
      if Enabled(id, f) && Requests(settings, f) then Image(id, st, f) else pending[f]
  }

  /** What one round over the fields means for the mirror. */
  lemma RoundDone(p: Round, a: Side, b: Side, dirty: bool)
    requires a.Whole() && b.Whole() && Through(p, 3, a, b)
    requires (dirty ==> SomeEdit(p, a)) && (!dirty ==> a.fw == b.fw)
    ensures Faithful(p.id, p.last, a.pending) ==> Faithful(p.id, Some(b.fw), b.pending)
    ensures forall f: Field ::
      Enabled(p.id, f)
        && (f in a.pending || p.last.None? || Firmware(p.id, p.last.value, f) != Firmware(p.id, a.fw, f)) ==>
        Firmware(p.id, b.fw, f) == Firmware(p.id, a.fw, f)
    ensures
      p.steady && p.readDue && Complete(p.id, p.controls) && Scaled(p.controls, a.values)
      && Faithful(p.id, p.last, a.pending) ==>
      Agreed(p.id, p.controls, b.fw, b.pending, b.values)
    ensures
      p.steady && !p.rediscovered && p.last == Some(a.fw) && Complete(p.id, p.controls)
      && Scaled(p.controls, a.values) ==>
      Survives(p.id, p.controls, a.fw, b.fw, a.pending, a.values, p.readDue)
    ensures !p.rediscovered && p.last == Some(a.fw) && Agreed(p.id, p.controls, a.fw, a.pending, a.values) ==>
      !dirty && !SomeDebt(p, a) && Agreed(p.id, p.controls, b.fw, b.pending, b.values)
  {
    hide Through, Faithful, Agreed, Scaled, Complete, SomeEdit, SomeDebt, Firmware, Survives;
    Unread(p, a, b);
    if Faithful(p.id, p.last, a.pending) {
      FaithfulAfter(p, a, b);
      if p.steady && p.readDue && Scaled(p.controls, a.values) && Complete(p.id, p.controls) {
        Settles(p, a, b);
      }
    }
    if p.steady && !p.rediscovered && p.last == Some(a.fw) && Complete(p.id, p.controls)
      && Scaled(p.controls, a.values) {
      PollSurvival(p, a, b);
    }
    if !p.rediscovered && p.last == Some(a.fw) && Agreed(p.id, p.controls, a.fw, a.pending, a.values) {
      Quiet(p, a);
      StaysAgreed(p, a, b);
    }
  }

  lemma AllOwedFaithful(id: ProfileId, last: Option<DeviceState>, pending: map<Field, int>, fw: DeviceState)
    requires Faithful(id, last, pending)
    ensures Faithful(id, Some(fw), AllOwed(id, pending, fw))
  {}

  /** Fields with unconfirmed intent keep their firmware value. */
  lemma Unread(p: Round, a: Side, b: Side)
    requires a.Whole() && b.Whole() && Through(p, 3, a, b)
    ensures forall f: Field ::
      Enabled(p.id, f)
        && (f in a.pending || p.last.None? || Firmware(p.id, p.last.value, f) != Firmware(p.id, a.fw, f)) ==>
        Firmware(p.id, b.fw, f) == Firmware(p.id, a.fw, f)
  {
    hide Image, Expected, Firmware;
    forall f: Field | Enabled(p.id, f)
      && (f in a.pending || p.last.None? || Firmware(p.id, p.last.value, f) != Firmware(p.id, a.fw, f))
      ensures Firmware(p.id, b.fw, f) == Firmware(p.id, a.fw, f)
    {
      EachField(p, f, a, b);
    }
  }

  /** A job commits the whole firmware state but owes ALSA only the fields it set: what it
      leaves owed is the new firmware's image exactly when no other owed field moved. */
  lemma SoundAfterJob(id: ProfileId, last: Option<DeviceState>, pending: map<Field, int>, st: DeviceState,
      settings: seq<Setting>)
    requires Faithful(id, last, pending)
    ensures Faithful(id, Some(st), Requested(id, pending, st, settings)) <==>
      forall f: Field :: f in pending && !Requests(settings, f) ==> Image(id, last.value, f) == Image(id, st, f)
  {
    var now := Requested(id, pending, st, settings);
    if Faithful(id, Some(st), now) {
      forall f: Field | f in pending && !Requests(settings, f)
        ensures Image(id, last.value, f) == Image(id, st, f)
      {
        assert f in now && now[f] == pending[f];
      }
    }
  }

  /** So the next poll owes just what was owed and the fields the job set. */
  lemma OwedAfterJob(p: Round, a: Side, f: Field, before: map<Field, int>, settings: seq<Setting>)
    requires p.last == Some(a.fw) && !p.rediscovered
    requires a.pending == Requested(p.id, before, a.fw, settings)
    ensures Owes(p, a, f) <==> f in before || (Enabled(p.id, f) && Requests(settings, f))
  {}

  /** An owed headphone level, a knob turned by hand since, and a job for the mute: what
      stays owed is the level before the knob was turned. */
  lemma StaleIntent(st: DeviceState)
    ensures var last, turned := st.(hpVolumeDb := -30.0), st.(hpVolumeDb := -20.0, muted := true);
      var pending := Requested(WaveXlr, map[HeadphoneField := 60], turned, [Mute(true)]);
      && Faithful(WaveXlr, Some(last), map[HeadphoneField := 60])
      && HeadphoneField in pending && pending[HeadphoneField] == 60 && Image(WaveXlr, turned, HeadphoneField) == 80
      && !Faithful(WaveXlr, Some(turned), pending)
  {
    HpRoundTripAt(st, -30.0, 60);
    HpRoundTripAt(st, -20.0, 80);
    var turned := st.(hpVolumeDb := -20.0, muted := true);
    var pending := Requested(WaveXlr, map[HeadphoneField := 60], turned, [Mute(true)]);
    assert FieldOf(Mute(true)) == Some(MuteField);
    assert HeadphoneField in pending;
  }

  lemma HpRoundTripAt(st: DeviceState, db: real, value: int)
    requires db == (value as real - 120.0) * 0.5 && 0 <= value <= 120
    ensures forall on: bool :: Image(WaveXlr, st.(hpVolumeDb := db, muted := on), HeadphoneField) == value
    ensures Image(WaveXlr, st.(hpVolumeDb := db), HeadphoneField) == value
  {
    assert HpSteps(WaveXlr, db) == ((value - 120) * 128) as real;
    HpRoundTrip(WaveXlr, value);
    assert AlsaHpToFw(WaveXlr, value) == (value - 120) * 128;
  }

  /** Firmware and ALSA agree at -30 dB; the knob is turned to -20 dB; before any poll a job
      sets the mute; then comes a poll that is due to read. Whatever else that poll does, the
      knob is back at -30 dB. */
  lemma KnobLost(st: DeviceState, b: Side)
    requires b.Whole()
    requires Through(AfterMuteJob(st).0, 3, AfterMuteJob(st).1, b)
    ensures Image(WaveXlr, st.(hpVolumeDb := -30.0), HeadphoneField) == AfterMuteJob(st).1.values[HeadphoneField]
    ensures Firmware(WaveXlr, AfterMuteJob(st).1.fw, HeadphoneField) == -20 * 256
    ensures Image(WaveXlr, b.fw, HeadphoneField) == 60
    ensures Firmware(WaveXlr, b.fw, HeadphoneField) != -20 * 256
  {
    var (p, a) := AfterMuteJob(st);
    HpRoundTripAt(st, -30.0, 60);
    HpRoundTripAt(st, -20.0, 80);
    assert FieldOf(Mute(true)) == Some(MuteField);
    assert !Owes(p, a, HeadphoneField);
    hide Through, Image, Firmware;
    EachField(p, HeadphoneField, a, b);
    if Firmware(WaveXlr, b.fw, HeadphoneField) == Firmware(WaveXlr, a.fw, HeadphoneField) {
      SameImage(WaveXlr, b.fw, a.fw, HeadphoneField);
    }
  }

  /** The poll after that job, with working controls, and what it finds. */
  function AfterMuteJob(st: DeviceState): (r: (Round, Side))
    ensures r.1.Whole()
  {
    var turned, level := st.(hpVolumeDb := -20.0, muted := true), Control(Some(Range(0, 120)));
    (Round(WaveXlr, map[MuteField := level, HeadphoneField := level], Some(turned), false, true, true),
     Side(turned, Requested(WaveXlr, map[], turned, [Mute(true)]),
       map[MuteField := 0, HeadphoneField := 60, GainField := 0]))
  }

  lemma SurvivesJob(
    id: ProfileId, controls: Controls, c: Config, settings: seq<Setting>, job: DeviceState, now: DeviceState,
    before: map<Field, int>, values: map<Field, int>, readDue: bool)
    requires c.Whole() && id == c.profile && forall f: Field :: f in values
    requires forall i :: 0 <= i < |settings| ==> Validate(id, settings[i]).Ok?
    requires job == StateOf(Replay(c, Validated(id, settings)))
    requires Survives(id, controls, job, now, Requested(id, before, job, settings), values, readDue)
    ensures forall f: Field :: Enabled(id, f) && f != GainField && !Requests(settings, f) ==>
      && (Firmware(id, now, f) == Firmware(id, StateOf(c), f) <==>
            f in before || !readDue || Expected(controls, f, Image(id, StateOf(c), f)) == Ok(values[f]))
      && (Firmware(id, now, f) != Firmware(id, StateOf(c), f) ==> Image(id, now, f) == values[f])
    ensures forall f: Field :: Enabled(id, f) && f != GainField && Requests(settings, f) ==>
      Firmware(id, now, f) == Firmware(id, job, f)
  {
    hide StateOf, Replay, Validate, Image, Firmware, Expected;
    forall f: Field | Enabled(id, f) && f != GainField && !Requests(settings, f)
      ensures Firmware(id, now, f) == Firmware(id, StateOf(c), f) <==>
        f in before || !readDue || Expected(controls, f, Image(id, StateOf(c), f)) == Ok(values[f])
      ensures Firmware(id, now, f) != Firmware(id, StateOf(c), f) ==> Image(id, now, f) == values[f]
    {
      JobKeeps(c, settings, f);
    }
  }

  /** A job leaves the fields it does not set as the hardware has them. */
  lemma JobKeeps(c: Config, settings: seq<Setting>, f: Field)
    requires c.Whole() && forall i :: 0 <= i < |settings| ==> Validate(c.profile, settings[i]).Ok?
    requires !Requests(settings, f)
    ensures Firmware(c.profile, StateOf(Replay(c, Validated(c.profile, settings))), f) ==
      Firmware(c.profile, StateOf(c), f)
    ensures Image(c.profile, StateOf(Replay(c, Validated(c.profile, settings))), f) == Image(c.profile, StateOf(c), f)
  {
    var all := Validated(c.profile, settings);
    var kind := if f == MuteField then Muting else if f == HeadphoneField then Headphone else Gain;
    forall s | s in all
      ensures KindOf(s) != kind
    {
      var i :| 0 <= i < |all| && all[i] == s;
      ValidateAdmits(c.profile, settings[i]);
      assert FieldOf(settings[i]) != Some(f);
    }
    LatestIsOne(all, kind);
    hide StateOf, Replay, Validate;
    ReplayReads(c, all, kind);
  }
}
