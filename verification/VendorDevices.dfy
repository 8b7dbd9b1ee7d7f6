/** The vendor side of one unit (device.rs): a config is read, patched and written as one
    transaction. The transport may fail or fall short at every transfer; what it stored
    then is anybody's guess. */
module VendorDevices {
  import opened Wrappers
  import opened Protocol
  import opened ConfigBuffers

  class VendorDevice {
    const profile: ProfileId
    /** What the hardware holds. */
    var device: Config
    /** Every transfer to it so far. */
    var written: seq<Wire>
    /** Transfers are answered in full; otherwise any of them may go wrong. */
    const reliable: bool

    ghost predicate Valid()
      reads this
    {
      device.Whole() && device.profile == profile
    }

    constructor (c: Config, reliable: bool)
      requires c.Whole()
      ensures Valid() && device == c && written == [] && this.reliable == reliable
    {
      profile, device, written, this.reliable := c.profile, c, [], reliable;
    }

    method Receive(block: seq<byte>) returns (r: Result<seq<byte>>)
      ensures reliable ==> r == Ok(block)
      ensures r.Ok? ==> |r.value| <= |block| && (|r.value| == |block| ==> r.value == block)
    {
      var count: nat, lost: bool := *, *;
      if !reliable && lost {
        return Err(Unavailable);
      }
      if !reliable && count < |block| {
        return Ok(block[..count]);
      }
      r := Ok(block);
    }

    method Send(w: Wire) returns (r: Result<nat>)
      requires Valid()
      modifies this`device, this`written
      ensures Valid() && written == old(written) + [w]
      ensures reliable ==> r == Ok(|w.bytes|)
      ensures r == Ok(|w.bytes|) ==> device == Stored(old(device), w)
    {
      written := written + [w];
      var count: nat, lost: bool, torn: Config := *, *, *;
      if reliable || (!lost && count == |w.bytes|) {
        device := Stored(device, w);
        return Ok(|w.bytes|);
      }
      if torn.Whole() && torn.profile == profile {
        device := torn;
      }
      r := if lost || count == |w.bytes| then Err(Unavailable) else Ok(count);
    }

    /** Short reads never become a config. */
    method ReadConfig() returns (r: Result<ConfigBuffer>)
      requires Valid()
      ensures reliable ==> r.Ok?
      ensures r.Ok? ==> fresh(r.value) && fresh(r.value.Arrays()) && r.value.Valid() && r.value.Contents() == device
    {
      DecodesBack(device);
      if profile == XlrDockMk2 {
        var settings :- Receive(device.main);
        var headphones :- Receive(device.phones);
        var monitor :- Receive(device.monitor);
        var c :- DecodeDock(settings, headphones, monitor);
        var dock := new ConfigBuffer(c);
        return Ok(dock);
      }
      var p := ProfileOf(profile).legacy.value;
      var bytes :- Receive(device.main[..p.configLen]);
      var c :- Decode(profile, bytes);
      var legacy := new ConfigBuffer(c);
      r := Ok(legacy);
    }

    /** Writes the primary block whole. */
    method WriteConfigRaw(bytes: seq<byte>) returns (r: Result<()>)
      requires Valid()
      modifies this`device, this`written
      ensures Valid()
      ensures |bytes| != MainLength(profile) ==> r == Err(Invalid) && written == old(written) && device == old(device)
      ensures |bytes| == MainLength(profile) ==> |written| == |old(written)| + 1 && (reliable ==> r.Ok?)
      ensures r.Ok? ==>
        && written == old(written) + [Wire(MainSelector(profile), bytes)]
        && device == Stored(old(device), Wire(MainSelector(profile), bytes))
    {
      if |bytes| != MainLength(profile) {
        return Err(Invalid);
      }
      var count :- Send(Wire(MainSelector(profile), bytes));
      if count != |bytes| {
        return Err(Unavailable);
      }
      r := Ok(());
    }

    /** Writes the blocks that differ and no other, stopping at the first failure. */
    method WriteChanges(before: Config, after: Config) returns (r: Result<()>)
      requires Valid() && before.Whole() && after.Whole()
      modifies this`device, this`written
      ensures Valid()
      ensures before.profile != profile || after.profile != profile ==>
        r == Err(Identity) && written == old(written) && device == old(device)
      ensures before.profile == profile == after.profile ==>
        && (reliable ==> r.Ok?)
        && (r.Ok? ==> written == old(written) + Differing(BlocksOf(before), BlocksOf(after)))
        && (r.Ok? && old(device) == before ==> device == after)
        && (exists k :: 0 <= k <= |Differing(BlocksOf(before), BlocksOf(after))|
              && written == old(written) + Differing(BlocksOf(before), BlocksOf(after))[..k])
    {
      if before.profile != profile || after.profile != profile {
        return Err(Identity);
      }
      hide Differing, StoredAll, Stored;
      var b, a := BlocksOf(before), BlocksOf(after);
      ghost var all := Differing(b, a);
      ghost var sent: nat := 0;
      assert a[..|a|] == a && b[..|a|] == b;
      for i := 0 to |a|
        invariant Valid() && sent <= |all| && all[..sent] == Differing(b[..i], a[..i])
        invariant written == old(written) + all[..sent]
        invariant old(device) == before ==> device == StoredAll(before, all[..sent])
        invariant Differing(b[..|a|], a[..|a|]) == all
      {
        DifferingPrefix(b, a, i);
        if b[i].bytes != a[i].bytes {
          assert all[..sent + 1] == all[..sent] + [a[i]];
          assert all[..sent + 1][..sent] == all[..sent];
          var count := Send(a[i]);
          sent := sent + 1;
          assert written == old(written) + all[..sent];
          if count != Ok(|a[i].bytes|) {
            return Err(Unavailable);
          }
        }
      }
      assert all[..sent] == all;
      DifferingSuffice(before, after);
      r := Ok(());
    }
  }

  function MainSelector(id: ProfileId): u16 {
    var legacy := ProfileOf(id).legacy;
    if legacy.Some? then legacy.value.wvalueConfig else 4
  }

  /** What differs among the first blocks starts what differs among all of them. */
  lemma {:induction false} DifferingPrefix(b: seq<Wire>, a: seq<Wire>, n: nat)
    requires |a| == |b| && n < |a|
    ensures var some, more := Differing(b[..n], a[..n]), Differing(b[..n + 1], a[..n + 1]);
      more == if b[n].bytes != a[n].bytes then some + [a[n]] else some
    ensures var more, all := Differing(b[..n + 1], a[..n + 1]), Differing(b, a);
      |more| <= |all| && all[..|more|] == more
    decreases |a| - n
  {
    assert b[..n + 1][..n] == b[..n] && a[..n + 1][..n] == a[..n];
    if n + 1 == |a| {
      assert b[..n + 1] == b && a[..n + 1] == a;
    } else {
      DifferingPrefix(b, a, n + 1);
    }
  }
}
