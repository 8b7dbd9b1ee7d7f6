/** Discovery and the registry of units (device.rs): one worker per USB address, spawned
    only when none is left, with jobs routed to the exact incarnation they name. */
module DeviceDiscovery {
  import opened Wrappers
  import opened Protocol
  import opened DeviceWorkers

  const INCARNATION_MAX := 0xffff_ffff_ffff_ffff

  datatype Key = Key(profile: ProfileId, bus: byte, address: byte)

  datatype UnitId = UnitId(key: Key, incarnation: nat)

  class DeviceManager {
    var stopped: bool
    /** The registry; discovery alone adds and removes, and keeps the workers' handles
        under the same names. */
    var units: map<UnitId, Unit>
    var suppressed: set<Key>
    var incarnation: nat
    /** Every unit whose worker was ever started, and the address it was started for. */
    ghost var spawned: set<Unit>
    ghost var names: map<Unit, UnitId>

    ghost predicate Registered()
      reads this
    {
      && names.Keys == spawned
      && (forall id :: id in units ==> units[id] in spawned && names[units[id]] == id && id.incarnation < incarnation)
      && (forall a, b :: a in units && b in units && a.key == b.key ==> a == b)
    }

    /** A worker that still runs is in the registry. */
    ghost predicate Valid()
      reads this, spawned
    {
      && names.Keys == spawned
      && Registered()
      && forall u :: u in spawned ==> u.Valid() && (u.pc != Ended ==> names[u] in units && units[names[u]] == u)
    }

    constructor ()
      ensures Valid() && !stopped && spawned == {}
    {
      stopped, units, suppressed, incarnation := false, map[], {}, 1;
      spawned, names := {}, map[];
    }

    /** Never two running workers for one profile, bus and address. */
    lemma OneWorkerPerAddress(u: Unit, v: Unit)
      requires Valid() && u in spawned && v in spawned && u.pc != Ended && v.pc != Ended
      requires names[u].key == names[v].key
      ensures u == v
    {}

    // -------------------------------------------------------------- callers

    function FirstInvalid(profile: ProfileId, settings: seq<Setting>): Option<ErrorCode> {
      if settings == [] then None
      else
        match Validate(profile, settings[0])
        case Err(code) => Some(code)
        case Ok(_) => FirstInvalid(profile, settings[1..])
    }

    function Cleaned(profile: ProfileId, settings: seq<Setting>): (r: seq<Setting>)
      requires FirstInvalid(profile, settings) == None
      ensures |r| == |settings|
      ensures forall i :: 0 <= i < |r| ==> Validate(profile, settings[i]) == Ok(r[i]) && Admissible(profile, r[i])
    {
      if settings == [] then []
      else
        ValidateAdmits(profile, settings[0]);
        [Validate(profile, settings[0]).value] + Cleaned(profile, settings[1..])
    }

    /** `DeviceManager::submit`: accepted only by the very incarnation named, while it
        takes work, and with every setting already bounded to its profile. */
    method Submit(id: UnitId, job: JobId, settings: seq<Setting>) returns (r: Result<()>)
      requires Valid()
      modifies if id in units then {units[id]} else {}
      ensures Valid()
      ensures r == (
        if settings == [] then Err(Invalid)
        else if FirstInvalid(id.key.profile, settings).Some? then Err(FirstInvalid(id.key.profile, settings).value)
        else if stopped then Err(ErrorCode.Cancelled)
        else if id !in units || old(!units[id].ready || units[id].retiring) then Err(Unavailable)
        else Ok(()))
      ensures r.Err? && id in units ==>
        units[id].jobs == old(units[id].jobs) && units[id].accepted == old(units[id].accepted)
      ensures r.Ok? ==>
        && units[id].jobs == old(units[id].jobs) + [Job(job, Cleaned(id.key.profile, settings))]
        && units[id].accepted == old(units[id].accepted) + [job]
    {
      hide Unit.Valid, Validate, Admissible;
      if settings == [] {
        return Err(Invalid);
      }
      var invalid := FirstInvalid(id.key.profile, settings);
      if invalid.Some? {
        return Err(invalid.value);
      }
      if stopped {
        return Err(ErrorCode.Cancelled);
      }
      if id !in units {
        return Err(Unavailable);
      }
      var unit := units[id];
      var taken := unit.Submit(Job(job, Cleaned(id.key.profile, settings)));
      r := if taken.Ok? then Ok(()) else Err(Unavailable);
    }

    /** Retires every unit in the registry; nothing is accepted from then on. */
    method RetireAll()
      requires Valid()
      modifies units.Values
      ensures Valid()
      ensures forall id :: id in units ==> units[id].retiring && !units[id].ready
      ensures forall u :: u in spawned ==> u.accepted == old(u.accepted) && u.pc == old(u.pc)
    {
      hide Unit.Valid;
      var todo := units.Keys;
      while todo != {}
        invariant Valid() && todo <= units.Keys
        invariant forall id :: id in units && id !in todo ==> units[id].retiring && !units[id].ready
        invariant forall u :: u in spawned ==> u.accepted == old(u.accepted) && u.pc == old(u.pc)
      {
        var id :| id in todo;
        todo := todo - {id};
        units[id].Retire();
      }
    }

    method Stop()
      requires Valid()
      modifies this`stopped, units.Values
      ensures Valid() && stopped
      ensures forall id :: id in units ==> units[id].retiring && !units[id].ready
    {
      hide Unit.Valid;
      stopped := true;
      RetireAll();
    }

    // -------------------------------------------------------------- discovery

    /** Joins a worker that ended; an unresponsive unit that was not unplugged is left
        alone until its address empties. */
    method Reap(id: UnitId, unresponsive: bool)
      requires Valid() && id in units && units[id].pc == Ended
      modifies this`units, this`suppressed
      ensures Valid() && units == old(units) - {id}
      ensures suppressed == old(suppressed) +
        if unresponsive && !old(units[id].unplugged) then {id.key} else {}
    {
      hide Unit.Valid;
      var unplugged := units[id].unplugged;
      units := units - {id};
      if unresponsive && !unplugged {
        suppressed := suppressed + {id.key};
      }
    }

    /** Units no longer on the bus. */
    method Unplug(wanted: set<Key>)
      requires Valid()
      modifies units.Values
      ensures Valid()
      ensures forall id :: id in units && id.key !in wanted ==> units[id].retiring && units[id].unplugged
    {
      hide Unit.Valid;
      var todo := units.Keys;
      while todo != {}
        invariant Valid() && todo <= units.Keys
        invariant forall id :: id in units && id !in todo && id.key !in wanted ==>
          units[id].retiring && units[id].unplugged
      {
        var id :| id in todo;
        todo := todo - {id};
        if id.key !in wanted {
          units[id].Unplug();
          units[id].Retire();
        }
      }
    }

    /** Starts a worker for an address nobody serves; thread creation may fail. */
    method Spawn(key: Key)
      requires Valid() && !stopped && (forall id :: id in units ==> id.key != key)
      modifies this`units, this`incarnation, this`stopped, this`spawned, this`names
      ensures Valid() && incarnation >= old(incarnation)
      ensures fresh(spawned - old(spawned)) && old(spawned) <= spawned
      ensures forall id :: id in units <==> id in old(units) || (id in units && id.key == key)
      ensures forall id :: id in old(units) ==> units[id] == old(units)[id]
      ensures stopped ==> units == old(units)
    {
      hide Unit.Valid;
      if incarnation >= INCARNATION_MAX {
        stopped := true;
        return;
      }
      var id := UnitId(key, incarnation);
      incarnation := incarnation + 1;
      var failed: bool := *;
      if !failed {
        var unit := new Unit();
        Register(unit, id);
      }
    }

    method Register(unit: Unit, id: UnitId)
      requires Valid() && unit.Valid() && unit !in spawned && id.incarnation < incarnation
      requires forall was :: was in units ==> was.key != id.key
      modifies this`units, this`spawned, this`names
      ensures Valid() && units == old(units)[id := unit] && spawned == old(spawned) + {unit}
    {
      hide Unit.Valid;
      spawned, names := spawned + {unit}, names[unit := id];
      units := units[id := unit];
    }

    /** An address that emptied is no longer suppressed. */
    method Forgive(wanted: set<Key>)
      requires Valid()
      modifies this`suppressed
      ensures Valid() && suppressed == old(suppressed) * wanted
    {
      hide Unit.Valid;
      suppressed := suppressed * wanted;
    }

    /** One scan of the bus. An address is served at most once, and not at all while its
        last worker is suppressed or still registered. */
    method Scan(found: seq<Key>)
      requires Valid()
      modifies this, units.Values
      ensures Valid()
      ensures forall id :: id in old(units) ==> id in units && units[id] == old(units)[id]
      ensures forall id :: id in units && id !in old(units) ==>
        !old(stopped) && id.key in found && id.key !in suppressed
          && (forall was :: was in old(units) ==> was.key != id.key)
      ensures suppressed == set k | k in old(suppressed) && k in found
      ensures forall id :: id in units && id.key !in found ==> units[id].retiring && units[id].unplugged
      ensures old(stopped) ==> stopped
    {
      hide Unit.Valid, Valid;
      var wanted := set k | k in found;
      Forgive(wanted);
      Unplug(wanted);
      if stopped {
        return;
      }
      for i := 0 to |found|
        invariant Valid()
        invariant fresh(spawned - old(spawned)) && old(spawned) <= spawned
        invariant suppressed == old(suppressed) * wanted
        invariant forall id :: id in old(units) ==> id in units && units[id] == old(units)[id]
        invariant forall id :: id in units && id !in old(units) ==>
          id.key in found && id.key !in suppressed && (forall was :: was in old(units) ==> was.key != id.key)
        invariant forall id :: id in units && id.key !in found ==> units[id].retiring && units[id].unplugged
        invariant !old(stopped)
      {
        var key := found[i];
        if !stopped && key !in suppressed && forall id :: id in units ==> id.key != key {
          Spawn(key);
        }
      }
    }

    /** The worker's side: any unit takes its next step. */
    method WorkerStep(u: Unit, flag: bool)
      requires Valid() && u in spawned
      modifies u
      ensures Valid()
    {
      hide Unit.Valid;
      u.Work(flag);
    }

    /** After the last worker is joined the registry is emptied. */
    method Finish()
      requires Valid() && stopped && forall u :: u in spawned ==> u.pc == Ended
      modifies this`units
      ensures Valid() && units == map[]
    {
      hide Unit.Valid;
      units := map[];
    }
  }
}
