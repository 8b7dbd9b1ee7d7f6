/** The USB microphones' configuration blocks (profiles.rs, protocol.rs): which bits of
    which block hold which setting, what a setting leaves of them and what they read as.
    Decibels are reals: every scale is a power of two, so the floating point products
    are exact. */
module Protocol {
  import opened Wrappers
  import opened Numbers

  type u16 = x: int | 0 <= x < 0x1_0000

  // ---------------------------------------------------------------- profiles

  datatype ProfileId = WaveXlr | WaveXlrMk2 | Wave3 | XlrDockMk2

  /** Byte offsets inside the one config block of a legacy profile. */
  datatype Legacy = Legacy(
    wvalueConfig: u16, configLen: nat, offGain: nat, offMute: nat, offHpVol: nat,
    offVolSelect: nat, offLowZ: Option<nat>, offPhantom: Option<nat>, offMonitorMix: Option<nat>)

  datatype Profile = Profile(
    legacy: Option<Legacy>, gainMax: u16, mixMax: u16, syncMute: bool, syncHp: bool, syncGain: bool)
  {
    predicate HasPhantom() { legacy.None? || legacy.value.offPhantom.Some? }
    predicate HasLowZ() { legacy.None? || legacy.value.offLowZ.Some? }
    predicate HasMonitorMix() { legacy.None? || legacy.value.offMonitorMix.Some? }
    function HpMinDb(): real { if legacy.Some? then -128.0 else -60.0 }
  }

  const XLR := Profile(
    Some(Legacy(0, 34, 0, 4, 9, 14, Some(33), Some(6), None)),
    0x5000, 0, true, true, false)

  const WAVE_3 := Profile(
    Some(Legacy(0, 16, 0, 4, 7, 12, None, None, Some(10))),
    0x2800, 0x6400, true, true, true)

  const DOCK := Profile(None, 80, 200, false, false, false)

  function ProfileOf(id: ProfileId): Profile {
    match id
    case WaveXlr => XLR
    case WaveXlrMk2 => XLR
    case Wave3 => WAVE_3
    case XlrDockMk2 => DOCK
  }

  const MAX_CONFIG_LEN := 38

  /** Raw headphone steps are 1/256 dB, on the Dock 1/4 dB. */
  function HpDb(id: ProfileId, raw: int): real {
    if ProfileOf(id).legacy.Some? then raw as real / 256.0 else raw as real / 4.0
  }

  function HpSteps(id: ProfileId, db: real): real {
    if ProfileOf(id).legacy.Some? then db * 256.0 else db * 4.0
  }

  function GainDb(id: ProfileId, raw: u16): real {
    if ProfileOf(id).legacy.Some? then raw as real / 256.0 else raw as real
  }

  // ---------------------------------------------------------------- settings

  datatype Decibels = Finite(db: real) | NonFinite

  datatype Kind = Gain | Muting | Headphone | Phantom48 | Impedance | Mix

  datatype Setting =
    | GainRaw(raw: u16)
    | Mute(on: bool)
    | HeadphoneDb(level: Decibels)
    | Phantom(on: bool)
    | LowImpedance(on: bool)
    | MonitorMix(raw: u16)

  function KindOf(s: Setting): Kind {
    match s
    case GainRaw(_) => Gain
    case Mute(_) => Muting
    case HeadphoneDb(_) => Headphone
    case Phantom(_) => Phantom48
    case LowImpedance(_) => Impedance
    case MonitorMix(_) => Mix
  }

  predicate Supports(p: Profile, kind: Kind) {
    match kind
    case Phantom48 => p.HasPhantom()
    case Impedance => p.HasLowZ()
    case Mix => p.HasMonitorMix()
    case _ => true
  }

  function Min(a: u16, b: u16): u16 { if a < b then a else b }

  /** `validate_setting`: what a requested setting becomes before it is written. */
  function Validate(id: ProfileId, s: Setting): Result<Setting> {
    var p := ProfileOf(id);
    match s
    case GainRaw(raw) => Ok(GainRaw(Min(raw, p.gainMax)))
    case HeadphoneDb(NonFinite) => Err(Invalid)
    case HeadphoneDb(Finite(db)) => Ok(HeadphoneDb(Finite(Clamp(db, p.HpMinDb(), 0.0))))
    case MonitorMix(raw) => if p.HasMonitorMix() then Ok(MonitorMix(Min(raw, p.mixMax))) else Err(Unsupported)
    case _ => if Supports(p, KindOf(s)) then Ok(s) else Err(Unsupported)
  }

  /** Settings the profile takes as they are; exactly what validation returns. */
  predicate Admissible(id: ProfileId, s: Setting) {
    var p := ProfileOf(id);
    && Supports(p, KindOf(s))
    && match s
       case GainRaw(raw) => raw <= p.gainMax
       case HeadphoneDb(level) => level.Finite? && p.HpMinDb() <= level.db <= 0.0
       case MonitorMix(raw) => raw <= p.mixMax
       case _ => true
  }

  lemma ValidateAdmits(id: ProfileId, s: Setting)
    ensures Validate(id, s).Ok? <==> Supports(ProfileOf(id), KindOf(s)) && s != HeadphoneDb(NonFinite)
    ensures Validate(id, s).Ok? ==>
      var v := Validate(id, s).value;
      Admissible(id, v) && KindOf(v) == KindOf(s) && Validate(id, v) == Ok(v)
    ensures Admissible(id, s) <==> Validate(id, s) == Ok(s)
  {}

  // ---------------------------------------------------------------- numbers

  function Raw(b: byte): int { b }

  function I16(v: u16): int { if v < 0x8000 then v else v - 0x1_0000 }

  function FromI16(v: int): u16
    requires -0x8000 <= v < 0x8000
  {
    if v < 0 then v + 0x1_0000 else v
  }

  function ReadU16(bytes: seq<byte>, at: nat): u16
    requires at + 1 < |bytes|
  {
    var high: int := bytes[at + 1];
    bytes[at] + high * 0x100
  }

  function PutU16(bytes: seq<byte>, at: nat, v: u16): (r: seq<byte>)
    requires at + 1 < |bytes|
    ensures |r| == |bytes| && ReadU16(r, at) == v
    ensures forall i :: 0 <= i < |bytes| && i != at && i != at + 1 ==> r[i] == bytes[i]
  {
    bytes[at := v % 0x100][at + 1 := v / 0x100]
  }

  function Flag(on: bool): byte { if on then 1 else 0 }

  function Bit0(b: byte): bool { b % 2 == 1 }

  function Bit1(b: byte): bool { b / 2 % 2 == 1 }

  function PutBit0(b: byte, on: bool): byte { b - b % 2 + Flag(on) }

  function PutBit1(b: byte, on: bool): byte { b - b / 2 % 2 * 2 + Flag(on) * 2 }

  // ---------------------------------------------------------------- the blocks

  datatype Block = Main | Phones | Monitor

  datatype Config = Config(profile: ProfileId, main: seq<byte>, phones: seq<byte>, monitor: seq<byte>) {
    /** The arrays are of fixed size; a legacy profile uses a prefix of the first. */
    predicate Whole() {
      && |main| == MAX_CONFIG_LEN && |phones| == 2 && |monitor| == 6
      && (var legacy := ProfileOf(profile).legacy;
          legacy.Some? ==>
            && (forall i :: legacy.value.configLen <= i < MAX_CONFIG_LEN ==> main[i] == 0)
            && phones == [0, 0] && monitor == [0, 0, 0, 0, 0, 0])
    }

    function At(block: Block): seq<byte> {
      match block
      case Main => main
      case Phones => phones
      case Monitor => monitor
    }
  }

  function HpRaw(id: ProfileId, db: real): (raw: int)
    requires ProfileOf(id).HpMinDb() <= db <= 0.0
    ensures -0x8000 <= raw <= 240
    ensures ProfileOf(id).legacy.None? ==> 0 <= raw
    ensures ProfileOf(id).legacy.Some? ==> raw <= 0
  {
    if ProfileOf(id).legacy.None? then RoundEven(HpSteps(id, -db)) else Trunc(HpSteps(id, db))
  }

  /** What `ConfigBuffer::apply` leaves, once validation passed. */
  function Patch(c: Config, s: Setting): (r: Config)
    requires c.Whole() && Admissible(c.profile, s)
    ensures r.Whole() && r.profile == c.profile
  {
    var legacy := ProfileOf(c.profile).legacy;
    if legacy.None? then
      match s
      case GainRaw(raw) => c.(main := c.main[0 := raw])
      case Mute(on) => c.(main := c.main[1 := PutBit0(c.main[1], on)])
      case Phantom(on) => c.(main := c.main[1 := PutBit1(c.main[1], on)])
      case HeadphoneDb(level) => c.(phones := c.phones[0 := HpRaw(c.profile, level.db)])
      case LowImpedance(on) => c.(phones := c.phones[1 := PutBit1(c.phones[1], on)])
      case MonitorMix(raw) => c.(monitor := c.monitor[0 := raw])
    else
      var p := legacy.value;
      match s
      case GainRaw(raw) => c.(main := PutU16(c.main, p.offGain, raw))
      case Mute(on) => c.(main := c.main[p.offMute := Flag(on)])
      case HeadphoneDb(level) => c.(main := PutU16(c.main, p.offHpVol, FromI16(HpRaw(c.profile, level.db))))
      case Phantom(on) => c.(main := c.main[p.offPhantom.value := Flag(on)])
      case LowImpedance(on) => c.(main := c.main[p.offLowZ.value := Flag(on)])
      case MonitorMix(raw) => c.(main := PutU16(c.main, p.offMonitorMix.value, raw))
  }

  datatype KnobMode = GainKnob | HeadphonesKnob | MonitorMixKnob | NoKnob

  datatype DeviceState = DeviceState(
    gainRaw: u16, muted: bool, hpVolumeDb: real, phantom: Option<bool>,
    lowImpedance: Option<bool>, monitorMix: Option<u16>, knobMode: KnobMode)

  /** `ConfigBuffer::state`. */
  function StateOf(c: Config): DeviceState
    requires c.Whole()
  {
    var legacy := ProfileOf(c.profile).legacy;
    if legacy.None? then
      DeviceState(
        c.main[0], Bit0(c.main[1]), HpDb(c.profile, 0 - Raw(c.phones[0])), Some(Bit1(c.main[1])),
        Some(Bit1(c.phones[1])), Some(c.monitor[0]), NoKnob)
    else
      var p := legacy.value;
      DeviceState(
        ReadU16(c.main, p.offGain), c.main[p.offMute] != 0,
        HpDb(c.profile, I16(ReadU16(c.main, p.offHpVol))),
        if p.offPhantom.Some? then Some(c.main[p.offPhantom.value] != 0) else None,
        if p.offLowZ.Some? then Some(c.main[p.offLowZ.value] != 0) else None,
        if p.offMonitorMix.Some? then Some(ReadU16(c.main, p.offMonitorMix.value)) else None,
        if c.main[p.offVolSelect] == 2 then HeadphonesKnob
        else if c.main[p.offVolSelect] == 3 && c.profile == Wave3 then MonitorMixKnob
        else GainKnob)
  }

  // ---------------------------------------------------------------- what a setting does

  /** The level the blocks can hold for a requested one. */
  function Held(id: ProfileId, db: real): real
    requires ProfileOf(id).HpMinDb() <= db <= 0.0
  {
    HpDb(id, if ProfileOf(id).legacy.None? then -HpRaw(id, db) else HpRaw(id, db))
  }

  lemma HeldNear(id: ProfileId, db: real)
    requires ProfileOf(id).HpMinDb() <= db <= 0.0
    ensures ProfileOf(id).legacy.Some? ==> db <= Held(id, db) < db + 1.0 / 256.0
    ensures ProfileOf(id).legacy.None? ==> -0.125 <= Held(id, db) - db <= 0.125
    ensures ProfileOf(id).HpMinDb() <= Held(id, db) <= 0.0
  {
    if ProfileOf(id).legacy.None? {
      RoundEvenNearest(-db * 4.0);
    }
  }

  lemma WholeSteps(id: ProfileId, raw: int)
    ensures HpSteps(id, HpDb(id, raw)) == raw as real && HpSteps(id, -HpDb(id, raw)) == (-raw) as real
    ensures Trunc(raw as real) == raw && RoundEven(raw as real) == raw
  {}

  /** A level the blocks can hold is held as it is. */
  lemma HeldAgain(id: ProfileId, db: real)
    requires ProfileOf(id).HpMinDb() <= db <= 0.0
    ensures ProfileOf(id).HpMinDb() <= Held(id, db) <= 0.0
    ensures Held(id, Held(id, db)) == Held(id, db)
  {
    HeldNear(id, db);
    var raw := if ProfileOf(id).legacy.None? then -HpRaw(id, db) else HpRaw(id, db);
    WholeSteps(id, raw);
    WholeSteps(id, -raw);
    hide Trunc, RoundEven, HpSteps, HpDb;
  }

  /** The state with one field replaced by the value a setting asks for. */
  function Overlay(id: ProfileId, st: DeviceState, s: Setting): DeviceState
    requires Admissible(id, s)
  {
    match s
    case GainRaw(raw) => st.(gainRaw := raw)
    case Mute(on) => st.(muted := on)
    case HeadphoneDb(level) => st.(hpVolumeDb := Held(id, level.db))
    case Phantom(on) => st.(phantom := Some(on))
    case LowImpedance(on) => st.(lowImpedance := Some(on))
    case MonitorMix(raw) => st.(monitorMix := Some(raw))
  }

  // ---------------------------------------------------------------- bits nobody may touch

  predicate BitOf(b: byte, bit: nat) {
    if bit == 0 then b % 2 == 1 else BitOf(b / 2, bit - 1)
  }

  /** Who may write a bit; None is reserved. */
  function Owner(id: ProfileId, block: Block, index: nat, bit: nat): Option<Kind> {
    var legacy := ProfileOf(id).legacy;
    if legacy.None? then
      match (block, index)
      case (Main, 0) => Some(Gain)
      case (Main, 1) => if bit == 0 then Some(Muting) else if bit == 1 then Some(Phantom48) else None
      case (Phones, 0) => Some(Headphone)
      case (Phones, 1) => if bit == 1 then Some(Impedance) else None
      case (Monitor, 0) => Some(Mix)
      case _ => None
    else
      var p := legacy.value;
      if block != Main then None
      else if index == p.offGain || index == p.offGain + 1 then Some(Gain)
      else if index == p.offMute then Some(Muting)
      else if index == p.offHpVol || index == p.offHpVol + 1 then Some(Headphone)
      else if p.offPhantom == Some(index) then Some(Phantom48)
      else if p.offLowZ == Some(index) then Some(Impedance)
      else if p.offMonitorMix.Some? && p.offMonitorMix.value <= index <= p.offMonitorMix.value + 1 then Some(Mix)
      else None
  }

  lemma PutBitKeeps(b: byte, on: bool, bit: nat)
    ensures BitOf(PutBit0(b, on), bit) == if bit == 0 then on else BitOf(b, bit)
    ensures BitOf(PutBit1(b, on), bit) == if bit == 1 then on else BitOf(b, bit)
  {
    assert PutBit0(b, on) / 2 == b / 2 && PutBit0(b / 2, on) / 2 == b / 2 / 2;
    assert PutBit1(b, on) % 2 == b % 2 && PutBit1(b, on) / 2 == PutBit0(b / 2, on);
  }

  /** The byte a setting leaves at a place that held `was`. */
  function NewByte(id: ProfileId, s: Setting, block: Block, index: nat, was: byte): byte
    requires Admissible(id, s)
  {
    var legacy := ProfileOf(id).legacy;
    if legacy.None? then
      match s
      case GainRaw(raw) => if block == Main && index == 0 then raw else was
      case Mute(on) => if block == Main && index == 1 then PutBit0(was, on) else was
      case Phantom(on) => if block == Main && index == 1 then PutBit1(was, on) else was
      case HeadphoneDb(level) => if block == Phones && index == 0 then HpRaw(id, level.db) else was
      case LowImpedance(on) => if block == Phones && index == 1 then PutBit1(was, on) else was
      case MonitorMix(raw) => if block == Monitor && index == 0 then raw else was
    else if block != Main then was
    else
      var p := legacy.value;
      match s
      case GainRaw(raw) => Half(p.offGain, index, raw, was)
      case Mute(on) => if index == p.offMute then Flag(on) else was
      case HeadphoneDb(level) => Half(p.offHpVol, index, FromI16(HpRaw(id, level.db)), was)
      case Phantom(on) => if index == p.offPhantom.value then Flag(on) else was
      case LowImpedance(on) => if index == p.offLowZ.value then Flag(on) else was
      case MonitorMix(raw) => Half(p.offMonitorMix.value, index, raw, was)
  }

  function Half(at: nat, index: nat, v: u16, was: byte): byte {
    if index == at then v % 0x100 else if index == at + 1 then v / 0x100 else was
  }

  /** Patching is bytewise. */
  lemma PatchAt(c: Config, s: Setting, block: Block, index: nat)
    requires c.Whole() && Admissible(c.profile, s) && index < |c.At(block)|
    ensures |Patch(c, s).At(block)| == |c.At(block)|
    ensures Patch(c, s).At(block)[index] == NewByte(c.profile, s, block, index, c.At(block)[index])
  {}

  lemma DockReads(c: Config, s: Setting)
    requires c.Whole() && Admissible(c.profile, s) && ProfileOf(c.profile).legacy.None?
    ensures StateOf(Patch(c, s)) == Overlay(c.profile, StateOf(c), s)
  {
    hide Patch;
    PatchAt(c, s, Main, 0);
    PatchAt(c, s, Main, 1);
    PatchAt(c, s, Phones, 0);
    PatchAt(c, s, Phones, 1);
    PatchAt(c, s, Monitor, 0);
  }

  lemma XlrReads(c: Config, s: Setting)
    requires c.Whole() && Admissible(c.profile, s) && c.profile in {WaveXlr, WaveXlrMk2}
    ensures StateOf(Patch(c, s)) == Overlay(c.profile, StateOf(c), s)
  {
    hide Patch;
    PatchAt(c, s, Main, 0);
    PatchAt(c, s, Main, 1);
    PatchAt(c, s, Main, 4);
    PatchAt(c, s, Main, 6);
    PatchAt(c, s, Main, 9);
    PatchAt(c, s, Main, 10);
    PatchAt(c, s, Main, 14);
    PatchAt(c, s, Main, 33);
  }

  lemma Wave3Reads(c: Config, s: Setting)
    requires c.Whole() && Admissible(c.profile, s) && c.profile == Wave3
    ensures StateOf(Patch(c, s)) == Overlay(c.profile, StateOf(c), s)
  {
    hide Patch;
    PatchAt(c, s, Main, 0);
    PatchAt(c, s, Main, 1);
    PatchAt(c, s, Main, 4);
    PatchAt(c, s, Main, 7);
    PatchAt(c, s, Main, 8);
    PatchAt(c, s, Main, 10);
    PatchAt(c, s, Main, 11);
    PatchAt(c, s, Main, 12);
  }

  /** A patched config reads as before, but for the field set. */
  lemma PatchReads(c: Config, s: Setting)
    requires c.Whole() && Admissible(c.profile, s)
    ensures StateOf(Patch(c, s)) == Overlay(c.profile, StateOf(c), s)
  {
    if ProfileOf(c.profile).legacy.None? {
      DockReads(c, s);
    } else if c.profile == Wave3 {
      Wave3Reads(c, s);
    } else {
      XlrReads(c, s);
    }
  }

  /** Reserved bits, and those of every other setting, stay as they were. */
  lemma PatchKeepsOtherBits(c: Config, s: Setting, block: Block, index: nat, bit: nat)
    requires c.Whole() && Admissible(c.profile, s)
    requires index < |c.At(block)| && bit < 8
    requires Owner(c.profile, block, index, bit) != Some(KindOf(s))
    ensures |Patch(c, s).At(block)| == |c.At(block)|
    ensures BitOf(Patch(c, s).At(block)[index], bit) == BitOf(c.At(block)[index], bit)
  {
    PatchAt(c, s, block, index);
    if s.Mute? || s.Phantom? || s.LowImpedance? {
      PutBitKeeps(c.At(block)[index], s.on, bit);
    }
  }

  lemma SameBlocks(c: Config, d: Config)
    requires c.profile == d.profile
    requires forall block :: |c.At(block)| == |d.At(block)|
    requires forall block, i :: 0 <= i < |c.At(block)| ==> c.At(block)[i] == d.At(block)[i]
    ensures c == d
  {
    assert c.At(Main) == d.At(Main) && c.At(Phones) == d.At(Phones) && c.At(Monitor) == d.At(Monitor);
  }

  /** The bytes a kind of setting writes to. */
  predicate Touches(id: ProfileId, kind: Kind, block: Block, index: nat) {
    var legacy := ProfileOf(id).legacy;
    if legacy.None? then
      match kind
      case Gain => block == Main && index == 0
      case Muting => block == Main && index == 1
      case Phantom48 => block == Main && index == 1
      case Headphone => block == Phones && index == 0
      case Impedance => block == Phones && index == 1
      case Mix => block == Monitor && index == 0
    else
      var p := legacy.value;
      block == Main
      && match kind
         case Gain => p.offGain <= index <= p.offGain + 1
         case Muting => index == p.offMute
         case Headphone => p.offHpVol <= index <= p.offHpVol + 1
         case Phantom48 => p.offPhantom == Some(index)
         case Impedance => p.offLowZ == Some(index)
         case Mix => p.offMonitorMix.Some? && p.offMonitorMix.value <= index <= p.offMonitorMix.value + 1
  }

  lemma Untouched(id: ProfileId, s: Setting, block: Block, index: nat, was: byte)
    requires Admissible(id, s) && !Touches(id, KindOf(s), block, index)
    ensures NewByte(id, s, block, index, was) == was
  {}

  /** Only the Dock's mute and phantom bits share a byte. */
  lemma Shared(id: ProfileId, a: Kind, b: Kind, block: Block, index: nat)
    requires a != b && Touches(id, a, block, index) && Touches(id, b, block, index)
    ensures ProfileOf(id).legacy.None? && {a, b} == {Muting, Phantom48} && block == Main && index == 1
  {}

  lemma BitsCommute(was: byte, x: bool, y: bool)
    ensures PutBit0(PutBit1(was, y), x) == PutBit1(PutBit0(was, x), y)
  {}

  lemma NewBytesCommute(id: ProfileId, a: Setting, b: Setting, block: Block, index: nat, was: byte)
    requires Admissible(id, a) && Admissible(id, b) && KindOf(a) != KindOf(b)
    ensures NewByte(id, a, block, index, NewByte(id, b, block, index, was))
         == NewByte(id, b, block, index, NewByte(id, a, block, index, was))
  {
    if !Touches(id, KindOf(a), block, index) {
      Untouched(id, a, block, index, was);
      Untouched(id, a, block, index, NewByte(id, b, block, index, was));
      hide NewByte;
    } else if !Touches(id, KindOf(b), block, index) {
      Untouched(id, b, block, index, was);
      Untouched(id, b, block, index, NewByte(id, a, block, index, was));
      hide NewByte;
    } else {
      Shared(id, KindOf(a), KindOf(b), block, index);
      hide Touches, PutBit0, PutBit1;
      if a.Mute? {
        BitsCommute(was, a.on, b.on);
      } else {
        BitsCommute(was, b.on, a.on);
      }
    }
  }

  /** Settings on different fields can be applied in either order, ... */
  lemma PatchesCommute(c: Config, a: Setting, b: Setting)
    requires c.Whole() && Admissible(c.profile, a) && Admissible(c.profile, b)
    requires KindOf(a) != KindOf(b)
    ensures Patch(Patch(c, a), b) == Patch(Patch(c, b), a)
  {
    hide Patch, NewByte;
    forall block, i | 0 <= i < |c.At(block)|
      ensures Patch(Patch(c, a), b).At(block)[i] == Patch(Patch(c, b), a).At(block)[i]
    {
      PatchAt(c, a, block, i);
      PatchAt(c, b, block, i);
      PatchAt(Patch(c, a), b, block, i);
      PatchAt(Patch(c, b), a, block, i);
      NewBytesCommute(c.profile, a, b, block, i, c.At(block)[i]);
    }
    SameBlocks(Patch(Patch(c, a), b), Patch(Patch(c, b), a));
  }

  lemma BitWins(was: byte, x: bool, y: bool)
    ensures PutBit0(PutBit0(was, x), y) == PutBit0(was, y)
    ensures PutBit1(PutBit1(was, x), y) == PutBit1(was, y)
  {}

  lemma NewByteWins(id: ProfileId, a: Setting, b: Setting, block: Block, index: nat, was: byte)
    requires Admissible(id, a) && Admissible(id, b) && KindOf(a) == KindOf(b)
    ensures NewByte(id, b, block, index, NewByte(id, a, block, index, was)) == NewByte(id, b, block, index, was)
  {
    if a.Mute? || a.Phantom? || a.LowImpedance? {
      BitWins(was, a.on, b.on);
    }
    hide PutBit0, PutBit1;
  }

  /** ... and on the same field the last one wins. */
  lemma LastPatchWins(c: Config, a: Setting, b: Setting)
    requires c.Whole() && Admissible(c.profile, a) && Admissible(c.profile, b)
    requires KindOf(a) == KindOf(b)
    ensures Patch(Patch(c, a), b) == Patch(c, b)
  {
    hide Patch, NewByte;
    forall block, i | 0 <= i < |c.At(block)|
      ensures Patch(Patch(c, a), b).At(block)[i] == Patch(c, b).At(block)[i]
    {
      PatchAt(c, a, block, i);
      PatchAt(c, b, block, i);
      PatchAt(Patch(c, a), b, block, i);
      NewByteWins(c.profile, a, b, block, i, c.At(block)[i]);
    }
    SameBlocks(Patch(Patch(c, a), b), Patch(c, b));
  }
}
