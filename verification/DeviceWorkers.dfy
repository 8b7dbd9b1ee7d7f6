/** One USB unit and its queue (device.rs). Every method is one step of one thread, under
    the queue's lock where the source takes it, so any sequence of calls is an
    interleaving of submitters, discovery and the unit's own worker. */
module DeviceWorkers {
  import opened Wrappers
  import opened Protocol

  type JobId = nat

  datatype Outcome = Applied | Failed | Cancelled

  datatype Event =
    | Connected
    | Observed
    | Completed(job: JobId, outcome: Outcome)
    | Error
    | Retired

  // ---------------------------------------------------------------- what may be sent

  /** How far the events of a unit have come. */
  datatype Phase = Silent | Live | Broken | Cancelling | Closing | Over | Wrong

  function Next(p: Phase, e: Event): Phase {
    match (p, e)
    case (Silent, Connected) => Live
    case (Live, Observed) => Live
    case (Live, Completed(_, Applied)) => Live
    case (Live, Completed(_, Failed)) => Broken
    case (Live, Completed(_, Cancelled)) => Cancelling
    case (Broken, Completed(_, Cancelled)) => Cancelling
    case (Cancelling, Completed(_, Cancelled)) => Cancelling
    case (Live, Error) => Live
    case (Silent, Error) => Closing
    case (Broken, Error) => Closing
    case (Cancelling, Error) => Closing
    case (Silent, Retired) => Over
    case (Live, Retired) => Over
    case (Broken, Retired) => Over
    case (Cancelling, Retired) => Over
    case (Closing, Retired) => Over
    case _ => Wrong
  }

  function PhaseOf(events: seq<Event>): Phase {
    if events == [] then Silent else Next(PhaseOf(events[..|events| - 1]), events[|events| - 1])
  }

  function Completions(events: seq<Event>): seq<Event> {
    if events == [] then []
    else
      var before, last := Completions(events[..|events| - 1]), events[|events| - 1];
      if last.Completed? then before + [last] else before
  }

  function CompletedJobs(events: seq<Event>): seq<JobId> {
    if events == [] then []
    else
      var before, last := CompletedJobs(events[..|events| - 1]), events[|events| - 1];
      if last.Completed? then before + [last.job] else before
  }

  /** Successes up to `a`, at most one failure, then cancellations only. */
  ghost predicate Shaped(c: seq<Event>, a: nat, failed: bool) {
    var b := if failed then a + 1 else a;
    && b <= |c|
    && (forall i :: 0 <= i < a ==> c[i].Completed? && c[i].outcome == Applied)
    && (failed ==> c[a].Completed? && c[a].outcome == Failed)
    && (forall i :: b <= i < |c| ==> c[i].Completed? && c[i].outcome == Outcome.Cancelled)
  }

  /** Allowed events have their completions in that shape, ... */
  lemma {:induction false} CompletionsShaped(events: seq<Event>)
    requires PhaseOf(events) != Wrong
    ensures exists a: nat, failed :: Shaped(Completions(events), a, failed)
    ensures PhaseOf(events) == Live ==> Shaped(Completions(events), |Completions(events)|, false)
    ensures PhaseOf(events) == Broken ==>
      |Completions(events)| > 0 && Shaped(Completions(events), |Completions(events)| - 1, true)
    ensures PhaseOf(events) == Silent ==> Completions(events) == []
  {
    if events == [] {
      assert Shaped(Completions(events), 0, false);
    } else {
      var before, last := events[..|events| - 1], events[|events| - 1];
      CompletionsShaped(before);
      var c := Completions(before);
      var a: nat, failed :| Shaped(c, a, failed) && (PhaseOf(before) == Live ==> a == |c| && !failed)
        && (PhaseOf(before) == Broken ==> a == |c| - 1 && failed);
      if last.Completed? && last.outcome == Applied {
        assert Shaped(Completions(events), a + 1, false);
      } else if last.Completed? && last.outcome == Failed {
        assert Shaped(Completions(events), a, true);
      } else if last.Completed? {
        assert Shaped(Completions(events), a, failed);
      } else {
        assert Shaped(Completions(events), a, failed);
      }
    }
  }

  /** ... Connected comes before any of them, and nothing follows Retired. */
  lemma {:induction false} ConnectedFirstRetiredLast(events: seq<Event>, i: nat)
    requires PhaseOf(events) != Wrong && i < |events|
    ensures events[i].Completed? || events[i].Observed? ==> Connected in events[..i]
    ensures events[i] == Retired ==> i == |events| - 1
    ensures PhaseOf(events) in {Live, Broken, Cancelling} ==> Connected in events
    ensures PhaseOf(events) == Over ==> events[|events| - 1] == Retired
  {
    var n := |events| - 1;
    var before := events[..n];
    if i < n {
      ConnectedFirstRetiredLast(before, i);
      assert before[..i] == events[..i];
    } else if n > 0 {
      ConnectedFirstRetiredLast(before, n - 1);
    }
  }

  // ---------------------------------------------------------------- one unit

  datatype Job = Job(id: JobId, settings: seq<Setting>)

  function Ids(jobs: seq<Job>): seq<JobId> {
    seq(|jobs|, i requires 0 <= i < |jobs| => jobs[i].id)
  }

  /** Where the unit's worker is. */
  datatype Pc =
    | Starting                  // not yet looked at the queue
    | Opening                   // open, info and first poll
    | Greeting                  // ready, Connected not sent yet
    | Waiting                   // between lock sections of the loop
    | Applying(job: Job)
    | Polling
    | Leaving(error: bool)      // out of the loop, queue not retired yet
    | Draining(error: bool)     // retired, jobs not taken yet
    | Dropping(rest: seq<Job>, error: bool)
    | Ended

  function Carried(pc: Pc): seq<JobId> {
    match pc
    case Applying(job) => [job.id]
    case Dropping(rest, _) => Ids(rest)
    case _ => []
  }

  class Unit {
    var ready: bool
    var retiring: bool
    var unplugged: bool
    var jobs: seq<Job>
    var pc: Pc
    var failures: nat
    var events: seq<Event>
    ghost var accepted: seq<JobId>

    constructor ()
      ensures Valid() && pc == Starting && accepted == [] && !retiring && !unplugged
    {
      ready, retiring, unplugged, jobs := false, false, false, [];
      pc, failures, events, accepted := Starting, 0, [], [];
    }

    /** Every accepted job is completed, in hand or queued, in the order of submission. */
    ghost predicate Conserved()
      reads this
    {
      accepted == CompletedJobs(events) + Carried(pc) + Ids(jobs)
    }

    ghost predicate Valid()
      reads this
    {
      && Conserved()
      && (ready ==> !retiring)
      && PhaseOf(events) != Wrong
      && (PhaseOf(events) == Silent && pc != Greeting ==> accepted == [] && !ready)
      && match pc
         case Starting => PhaseOf(events) == Silent
         case Opening => PhaseOf(events) == Silent
         case Greeting => PhaseOf(events) == Silent
         case Waiting => PhaseOf(events) == Live
         case Applying(_) => PhaseOf(events) == Live
         case Polling => PhaseOf(events) == Live
         case Leaving(_) => PhaseOf(events) in {Silent, Live, Broken}
         case Draining(_) => PhaseOf(events) in {Silent, Live, Broken} && retiring
         case Dropping(rest, _) => PhaseOf(events) in {Silent, Live, Broken, Cancelling} && retiring && jobs == []
         case Ended => PhaseOf(events) == Over && retiring && jobs == []
    }

    // -------------------------------------------------------------- other threads

    /** `submit`, past the registry: accepted exactly while the unit takes work. */
    method Submit(job: Job) returns (r: Result<()>)
      requires Valid()
      modifies this`jobs, this`accepted
      ensures Valid()
      ensures jobs == if r.Ok? then old(jobs) + [job] else old(jobs)
      ensures r.Ok? <==> ready && !retiring
      ensures accepted == if r.Ok? then old(accepted) + [job.id] else old(accepted)
    {
      if retiring || !ready {
        return Err(Unavailable);
      }
      jobs := jobs + [job];
      accepted := accepted + [job.id];
      IdsAppend(old(jobs), job);
      assert accepted == CompletedJobs(events) + Carried(pc) + Ids(jobs);
      r := Ok(());
    }

    method Retire()
      requires Valid()
      modifies this`ready, this`retiring
      ensures Valid() && retiring && !ready
    {
      ready, retiring := false, true;
    }

    method Unplug()
      requires Valid()
      modifies this`unplugged
      ensures Valid() && unplugged
    {
      unplugged := true;
    }

    // -------------------------------------------------------------- the worker

    method Send(e: Event)
      modifies this`events
      ensures events == old(events) + [e]
      ensures PhaseOf(events) == Next(PhaseOf(old(events)), e)
      ensures CompletedJobs(events) == CompletedJobs(old(events)) + if e.Completed? then [e.job] else []
    {
      events := events + [e];
      assert events[..|events| - 1] == old(events);
    }

    method Begin()
      requires Valid() && pc == Starting
      modifies this`pc
      ensures Valid()
    {
      pc := if retiring then Leaving(false) else Opening;
    }

    /** Open, info and the first poll, any of which may fail; then the unit takes work,
        unless it was retired meanwhile. */
    method Opened(ok: bool)
      requires Valid() && pc == Opening
      modifies this`pc, this`ready
      ensures Valid() && (pc == Greeting <==> ok && !retiring)
    {
      if !ok {
        pc := Leaving(true);
      } else if retiring {
        pc := Leaving(false);
      } else {
        ready := true;
        pc := Greeting;
      }
    }

    method Greet()
      requires Valid() && pc == Greeting
      modifies this`pc, this`events
      ensures Valid() && events == old(events) + [Connected]
    {
      Send(Connected);
      pc := Waiting;
    }

    /** The loop's lock section: leave when retired; a due poll comes before any job. */
    method Take(pollDue: bool)
      requires Valid() && pc == Waiting
      modifies this`pc, this`jobs
      ensures Valid()
      ensures pc == if retiring then Leaving(false) else if pollDue then Polling
        else if old(jobs) == [] then Waiting else Applying(old(jobs)[0])
      ensures jobs == if pc.Applying? then old(jobs)[1..] else old(jobs)
    {
      if retiring {
        pc := Leaving(false);
      } else if pollDue {
        pc := Polling;
      } else if jobs != [] {
        pc, jobs := Applying(jobs[0]), jobs[1..];
        IdsHead(old(jobs));
      }
    }

    /** The transaction is over; a failed one retires the unit. */
    method Applied(ok: bool)
      requires Valid() && pc.Applying?
      modifies this`pc, this`events
      ensures Valid() && events == old(events) + [Completed(old(pc).job.id, if ok then Outcome.Applied else Failed)]
      ensures pc == if ok then Waiting else Leaving(true)
    {
      Send(Completed(pc.job.id, if ok then Outcome.Applied else Failed));
      pc := if ok then Waiting else Leaving(true);
    }

    /** Three failed polls in a row retire the unit. */
    method Polled(ok: bool)
      requires Valid() && pc == Polling
      modifies this`pc, this`events, this`failures
      ensures Valid() && accepted == old(accepted)
      ensures pc == if !ok && old(failures) + 1 >= 3 then Leaving(true) else Waiting
    {
      if ok {
        failures := 0;
        Send(Observed);
        pc := Waiting;
      } else {
        failures := failures + 1;
        if failures >= 3 {
          pc := Leaving(true);
        } else {
          Send(Error);
          pc := Waiting;
        }
      }
    }

    /** Nothing is accepted from here on. */
    method Leave()
      requires Valid() && pc.Leaving?
      modifies this`pc, this`ready, this`retiring
      ensures Valid() && pc == Draining(old(pc).error) && retiring
    {
      Retire();
      pc := Draining(pc.error);
    }

    method Drain()
      requires Valid() && pc.Draining?
      modifies this`pc, this`jobs
      ensures Valid() && pc == Dropping(old(jobs), old(pc).error) && jobs == []
    {
      pc := Dropping(jobs, pc.error);
      jobs := [];
      assert Ids([]) == [];
    }

    /** Cancels the jobs left one by one, ... */
    method Drop()
      requires Valid() && pc.Dropping? && pc.rest != []
      modifies this`pc, this`events
      ensures Valid()
      ensures pc == Dropping(old(pc).rest[1..], old(pc).error)
      ensures events == old(events) + [Completed(old(pc).rest[0].id, Outcome.Cancelled)]
    {
      hide PhaseOf, CompletedJobs;
      var rest, error := pc.rest, pc.error;
      IdsHead(rest);
      Send(Completed(rest[0].id, Outcome.Cancelled));
      pc := Dropping(rest[1..], error);
    }

    /** ... then reports the error, if any, and retires. */
    method Finish()
      requires Valid() && pc.Dropping? && pc.rest == []
      modifies this`pc, this`events
      ensures Valid() && pc == Ended
      ensures events == old(events) + (if old(pc).error then [Error] else []) + [Retired]
    {
      hide PhaseOf, CompletedJobs;
      assert Ids(pc.rest) == [];
      if pc.error {
        Send(Error);
      }
      Send(Retired);
      pc := Ended;
    }

    /** Any interleaving whatever of the worker's steps with everybody else's. */
    method Interleave(steps: nat)
      requires Valid()
      modifies this
      ensures Valid()
    {
      hide Conserved, PhaseOf, CompletedJobs, Valid;
      for i := 0 to steps
        invariant Valid()
      {
        var who: nat, job: Job, flag: bool := *, *, *;
        if who == 0 {
          var r := Submit(job);
        } else if who == 1 {
          Retire();
        } else if who == 2 {
          Unplug();
        } else {
          Work(flag);
        }
      }
    }

    /** Whatever the worker does next; `flag` is how its device call or clock turns out. */
    method Work(flag: bool)
      requires Valid()
      modifies this
      ensures Valid() && accepted == old(accepted)
      ensures old(pc) == Ended ==> pc == Ended && events == old(events)
    {
      hide Conserved, PhaseOf, CompletedJobs, Valid;
      match pc
      case Starting => Begin();
      case Opening => Opened(flag);
      case Greeting => Greet();
      case Waiting => Take(flag);
      case Applying(_) => Applied(flag);
      case Polling => Polled(flag);
      case Leaving(_) => Leave();
      case Draining(_) => Drain();
      case Dropping(rest, _) => if rest != [] { Drop(); } else { Finish(); }
      case Ended =>
    }

    /** When the worker is done every accepted job has exactly one completion, in order. */
    lemma ExactlyOnce()
      requires Valid() && pc == Ended
      ensures CompletedJobs(events) == accepted
      ensures events != [] && events[|events| - 1] == Retired
      ensures exists a: nat, failed :: Shaped(Completions(events), a, failed)
      ensures forall i :: 0 <= i < |events| && (events[i].Completed? || events[i].Observed?) ==>
        Connected in events[..i]
    {
      assert Ids(jobs) == [];
      CompletionsShaped(events);
      forall i | 0 <= i < |events|
        ensures events[i].Completed? || events[i].Observed? ==> Connected in events[..i]
        ensures events[|events| - 1] == Retired
      {
        ConnectedFirstRetiredLast(events, i);
      }
    }
  }

  lemma IdsAppend(jobs: seq<Job>, j: Job)
    ensures Ids(jobs + [j]) == Ids(jobs) + [j.id]
  {}

  lemma IdsHead(jobs: seq<Job>)
    requires jobs != []
    ensures Ids(jobs) == [jobs[0].id] + Ids(jobs[1..])
  {}
}
