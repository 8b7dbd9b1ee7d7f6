/** The config a transaction reads, patches and writes back (protocol.rs, device.rs):
    the owned buffer, the vendor device and which blocks reach it. */
module ConfigBuffers {
  import opened Wrappers
  import opened Numbers
  import opened Protocol

  // ---------------------------------------------------------------- many settings

  predicate AllAdmissible(id: ProfileId, settings: seq<Setting>) {
    forall i :: 0 <= i < |settings| ==> Admissible(id, settings[i])
  }

  function Replay(c: Config, settings: seq<Setting>): (r: Config)
    requires c.Whole() && AllAdmissible(c.profile, settings)
    ensures r.Whole() && r.profile == c.profile
  {
    if settings == [] then c
    else Patch(Replay(c, settings[..|settings| - 1]), settings[|settings| - 1])
  }

  /** The last setting of a kind. */
  function Latest(settings: seq<Setting>, kind: Kind): Option<Setting> {
    if settings == [] then None
    else if KindOf(settings[|settings| - 1]) == kind then Some(settings[|settings| - 1])
    else Latest(settings[..|settings| - 1], kind)
  }

  /** The state shows the value a setting asked for. */
  predicate Shows(id: ProfileId, st: DeviceState, s: Setting)
    requires Admissible(id, s)
  {
    match s
    case GainRaw(raw) => st.gainRaw == raw
    case Mute(on) => st.muted == on
    case HeadphoneDb(level) => st.hpVolumeDb == Held(id, level.db)
    case Phantom(on) => st.phantom == Some(on)
    case LowImpedance(on) => st.lowImpedance == Some(on)
    case MonitorMix(raw) => st.monitorMix == Some(raw)
  }

  predicate SameField(a: DeviceState, b: DeviceState, kind: Kind) {
    match kind
    case Gain => a.gainRaw == b.gainRaw
    case Muting => a.muted == b.muted
    case Headphone => a.hpVolumeDb == b.hpVolumeDb
    case Phantom48 => a.phantom == b.phantom
    case Impedance => a.lowImpedance == b.lowImpedance
    case Mix => a.monitorMix == b.monitorMix
  }

  lemma {:induction false} LatestIsOne(settings: seq<Setting>, kind: Kind)
    ensures Latest(settings, kind).Some? ==>
      Latest(settings, kind).value in settings && KindOf(Latest(settings, kind).value) == kind
    ensures Latest(settings, kind).None? ==> forall s :: s in settings ==> KindOf(s) != kind
  {
    if settings != [] {
      var rest := settings[..|settings| - 1];
      LatestIsOne(rest, kind);
      assert settings == rest + [settings[|settings| - 1]];
    }
  }

  /** Every field reads as the last setting for it, or as before when there is none. */
  lemma {:induction false} ReplayReads(c: Config, settings: seq<Setting>, kind: Kind)
    requires c.Whole() && AllAdmissible(c.profile, settings)
    ensures StateOf(Replay(c, settings)).knobMode == StateOf(c).knobMode
    ensures Latest(settings, kind).Some? ==>
      && Admissible(c.profile, Latest(settings, kind).value)
      && Shows(c.profile, StateOf(Replay(c, settings)), Latest(settings, kind).value)
    ensures Latest(settings, kind).None? ==> SameField(StateOf(Replay(c, settings)), StateOf(c), kind)
  {
    hide Patch, StateOf;
    if settings != [] {
      var rest, last := settings[..|settings| - 1], settings[|settings| - 1];
      ReplayReads(c, rest, kind);
      PatchReads(Replay(c, rest), last);
      LatestIsOne(rest, kind);
    }
  }

  /** Bits no applied setting owns, the reserved ones among them, are as before. */
  lemma {:induction false} ReplayKeepsOtherBits(c: Config, settings: seq<Setting>, block: Block, index: nat, bit: nat)
    requires c.Whole() && AllAdmissible(c.profile, settings)
    requires index < |c.At(block)| && bit < 8
    requires forall s :: s in settings ==> Owner(c.profile, block, index, bit) != Some(KindOf(s))
    ensures |Replay(c, settings).At(block)| == |c.At(block)|
    ensures BitOf(Replay(c, settings).At(block)[index], bit) == BitOf(c.At(block)[index], bit)
  {
    hide Patch, Owner, BitOf;
    if settings != [] {
      var rest, last := settings[..|settings| - 1], settings[|settings| - 1];
      ReplayKeepsOtherBits(c, rest, block, index, bit);
      PatchKeepsOtherBits(Replay(c, rest), last, block, index, bit);
    }
  }

  // ---------------------------------------------------------------- blocks on the wire

  function Zeros(n: nat): seq<byte> { seq(n, i => 0) }

  /** `ConfigBuffer::decode`. */
  function Decode(id: ProfileId, data: seq<byte>): Result<Config> {
    var legacy := ProfileOf(id).legacy;
    if legacy.None? then Err(Unsupported)
    else if |data| != legacy.value.configLen then Err(Invalid)
    else Ok(Config(id, data + Zeros(MAX_CONFIG_LEN - |data|), Zeros(2), Zeros(6)))
  }

  function DecodeDock(settings: seq<byte>, headphones: seq<byte>, monitor: seq<byte>): Result<Config> {
    if |settings| != 38 || |headphones| != 2 || |monitor| != 6 then Err(Invalid)
    else Ok(Config(XlrDockMk2, settings, headphones, monitor))
  }

  datatype Wire = Wire(selector: u16, bytes: seq<byte>)

  function MainLength(id: ProfileId): (n: nat)
    ensures n <= MAX_CONFIG_LEN
  {
    var legacy := ProfileOf(id).legacy;
    if legacy.Some? then legacy.value.configLen else 38
  }

  function BlocksOf(c: Config): seq<Wire>
    requires c.Whole()
  {
    var legacy := ProfileOf(c.profile).legacy;
    if legacy.Some? then [Wire(legacy.value.wvalueConfig, c.main[..legacy.value.configLen])]
    else [Wire(4, c.main), Wire(5, c.phones), Wire(1, c.monitor)]
  }

  /** What is written can be read back: the blocks decode to the very same config. */
  lemma DecodesBack(c: Config)
    requires c.Whole()
    ensures var b := BlocksOf(c);
      if ProfileOf(c.profile).legacy.Some?
      then |b| == 1 && Decode(c.profile, b[0].bytes) == Ok(c)
      else |b| == 3 && DecodeDock(b[0].bytes, b[1].bytes, b[2].bytes) == Ok(c)
  {
    var legacy := ProfileOf(c.profile).legacy;
    if legacy.Some? {
      assert c.main == c.main[..legacy.value.configLen] + Zeros(MAX_CONFIG_LEN - legacy.value.configLen);
      assert c.phones == Zeros(2) && c.monitor == Zeros(6);
    }
  }

  /** The blocks of `after` that differ from those of `before`, in order. */
  function Differing(before: seq<Wire>, after: seq<Wire>): seq<Wire>
    requires |before| == |after|
  {
    if after == [] then []
    else
      var n := |after| - 1;
      var rest := Differing(before[..n], after[..n]);
      if before[n].bytes != after[n].bytes then rest + [after[n]] else rest
  }

  /** A block of the device replaced by what was written to it. */
  function Stored(c: Config, w: Wire): Config
    requires c.Whole()
  {
    var legacy := ProfileOf(c.profile).legacy;
    if legacy.Some? then
      if w.selector == legacy.value.wvalueConfig && |w.bytes| == legacy.value.configLen
      then c.(main := w.bytes + Zeros(MAX_CONFIG_LEN - |w.bytes|))
      else c
    else
      if w.selector == 4 && |w.bytes| == 38 then c.(main := w.bytes)
      else if w.selector == 5 && |w.bytes| == 2 then c.(phones := w.bytes)
      else if w.selector == 1 && |w.bytes| == 6 then c.(monitor := w.bytes)
      else c
  }

  function StoredAll(c: Config, writes: seq<Wire>): (r: Config)
    requires c.Whole()
    ensures r.Whole() && r.profile == c.profile
  {
    if writes == [] then c else Stored(StoredAll(c, writes[..|writes| - 1]), writes[|writes| - 1])
  }

  /** One more block: written when it differs, else already there. */
  lemma DifferingStep(c: Config, b: seq<Wire>, a: seq<Wire>, n: nat)
    requires c.Whole() && |a| == |b| && n < |a|
    ensures var rest, next := Differing(b[..n], a[..n]), Differing(b[..n + 1], a[..n + 1]);
      StoredAll(c, next) == if b[n].bytes != a[n].bytes then Stored(StoredAll(c, rest), a[n]) else StoredAll(c, rest)
  {
    var b1, a1 := b[..n + 1], a[..n + 1];
    assert b1[..n] == b[..n] && a1[..n] == a[..n];
    var rest := Differing(b[..n], a[..n]);
    assert Differing(b1, a1) == if b[n].bytes != a[n].bytes then rest + [a[n]] else rest;
    assert (rest + [a[n]])[..|rest|] == rest;
  }

  /** Writing just the blocks that differ turns one config into the other. */
  lemma DifferingSuffice(before: Config, after: Config)
    requires before.Whole() && after.Whole() && before.profile == after.profile
    ensures StoredAll(before, Differing(BlocksOf(before), BlocksOf(after))) == after
  {
    hide StoredAll, Differing, Decode, DecodeDock;
    var b, a := BlocksOf(before), BlocksOf(after);
    assert b[..|a|] == b && a[..|a|] == a;
    assert StoredAll(before, Differing(b[..0], a[..0])) == before by {
      NothingStored(before, b, a);
    }
    DifferingStep(before, b, a, 0);
    if |a| == 1 {
      MainBack(before, after);
    } else {
      DifferingStep(before, b, a, 1);
      DifferingStep(before, b, a, 2);
    }
  }

  lemma NothingStored(c: Config, b: seq<Wire>, a: seq<Wire>)
    requires c.Whole() && |a| == |b|
    ensures StoredAll(c, Differing(b[..0], a[..0])) == c
  {}

  lemma MainBack(before: Config, after: Config)
    requires before.Whole() && after.Whole() && before.profile == after.profile
    requires ProfileOf(after.profile).legacy.Some?
    ensures Stored(before, BlocksOf(after)[0]) == after
    ensures BlocksOf(before)[0].bytes == BlocksOf(after)[0].bytes ==> before == after
  {
    DecodesBack(before);
    DecodesBack(after);
  }

  // ---------------------------------------------------------------- the owned buffer

  class ConfigBuffer {
    const profile: ProfileId
    const main: array<byte>
    const phones: array<byte>
    const monitor: array<byte>

    ghost predicate Valid()
      reads main, phones, monitor
    {
      && main != phones && main != monitor && phones != monitor
      && Contents().Whole()
    }

    function Contents(): Config
      reads main, phones, monitor
    {
      Config(profile, main[..], phones[..], monitor[..])
    }

    ghost function Arrays(): set<object> {
      {main, phones, monitor}
    }

    constructor (c: Config)
      requires c.Whole()
      ensures Valid() && Contents() == c && fresh(Arrays())
    {
      profile := c.profile;
      main := new byte[|c.main|](i requires 0 <= i < |c.main| => c.main[i]);
      phones := new byte[|c.phones|](i requires 0 <= i < |c.phones| => c.phones[i]);
      monitor := new byte[|c.monitor|](i requires 0 <= i < |c.monitor| => c.monitor[i]);
      new;
      assert main[..] == c.main && phones[..] == c.phones && monitor[..] == c.monitor;
    }

    method PutU16(at: nat, v: u16)
      requires at + 1 < main.Length
      modifies main
      ensures main[..] == Protocol.PutU16(old(main[..]), at, v)
    {
      main[at] := v % 0x100;
      main[at + 1] := v / 0x100;
    }

    /** Each setting of the Dock is one byte or bit of one of its three blocks. */
    method WriteDock(setting: Setting)
      requires Valid() && ProfileOf(profile).legacy.None? && Admissible(profile, setting)
      modifies main, phones, monitor
      ensures Valid() && Contents() == Patch(old(Contents()), setting)
    {
      ghost var wanted := Patch(Contents(), setting);
      match setting {
        case GainRaw(raw) => main[0] := raw;
        case Mute(on) => main[1] := PutBit0(main[1], on);
        case Phantom(on) => main[1] := PutBit1(main[1], on);
        case HeadphoneDb(level) => phones[0] := RoundEven(HpSteps(profile, -level.db));
        case LowImpedance(on) => phones[1] := PutBit1(phones[1], on);
        case MonitorMix(raw) => monitor[0] := raw;
      }
      assert main[..] == wanted.main && phones[..] == wanted.phones && monitor[..] == wanted.monitor;
    }

    /** Each setting of a legacy unit is one or two bytes of its one block. */
    method WriteLegacy(setting: Setting)
      requires Valid() && ProfileOf(profile).legacy.Some? && Admissible(profile, setting)
      modifies main, phones, monitor
      ensures Valid() && Contents() == Patch(old(Contents()), setting)
    {
      ghost var wanted := Patch(Contents(), setting);
      var legacy := ProfileOf(profile).legacy;
      var p := legacy.value;
      match setting {
        case GainRaw(raw) => PutU16(p.offGain, raw);
        case Mute(on) => main[p.offMute] := Flag(on);
        case HeadphoneDb(level) => PutU16(p.offHpVol, FromI16(Trunc(HpSteps(profile, level.db))));
        case Phantom(on) => main[p.offPhantom.value] := Flag(on);
        case LowImpedance(on) => main[p.offLowZ.value] := Flag(on);
        case MonitorMix(raw) => PutU16(p.offMonitorMix.value, raw);
      }
      assert main[..] == wanted.main && phones[..] == wanted.phones && monitor[..] == wanted.monitor;
    }

    /** Refuses before changing any byte. */
    method Apply(s: Setting) returns (r: Result<()>)
      requires Valid()
      modifies main, phones, monitor
      ensures Valid()
      ensures r == match Validate(profile, s) case Ok(_) => Ok(()) case Err(code) => Err(code)
      ensures r.Err? ==> Contents() == old(Contents())
      ensures r.Ok? ==>
        && Admissible(profile, Validate(profile, s).value)
        && Contents() == Patch(old(Contents()), Validate(profile, s).value)
    {
      ghost var was := Contents();
      var setting :- Validate(profile, s);
      ValidateAdmits(profile, s);
      hide Patch, Validate;
      var legacy := ProfileOf(profile).legacy;
      if legacy.None? {
        WriteDock(setting);
      } else {
        WriteLegacy(setting);
      }
      r := Ok(());
    }
  }
}
