/** The investigation worker (agent/queue/worker.py), modelled sequentially.
    The poll task reads the stream through the consumer group one entry at a
    time; an entry without a payload is acknowledged at once, one whose
    payload does not decode is left unacknowledged, and every other entry
    becomes an investigation. The semaphore is a slot count: at most
    MaxConcurrentInvestigations investigations hold a slot, the rest wait in
    arrival order. Whatever its outcome, a finished investigation
    acknowledges its entry. */
module Worker {
  import opened Common
  import opened Config
  import opened IngestionModels
  import opened RedisStore

  /** How an investigation ended: normally, by the timeout, by an exception,
      or by cancellation. */
  datatype RunOutcome = Completed | TimedOut | Raised(error: string) | Cancelled

  /** A dispatched investigation: the stream entry id and its alert. */
  datatype Job = Job(msgId: nat, alert: NormalizedAlert)

  function JobId(j: Job): nat {
    j.msgId
  }

  /** What one pass of the poll loop did. */
  datatype PollOutcome =
    | Idle                      // the blocking read timed out with nothing new
    | AckedEmpty(msgId: nat)    // payload missing or empty: acknowledged at once
    | Dispatched(msgId: nat)    // an investigation task was created
    | Backoff                   // an exception reached the generic handler: sleep 5s

  /** The events the poll loop reacts to: a pass of the loop, the end of the
      k-th running investigation, or a call to `stop`. */
  datatype WorkerEvent = Poll | Finish(k: nat, outcome: RunOutcome) | Stop

  /** The number of `Poll` events among the first `n`. */
  function PollsBefore(events: seq<WorkerEvent>, n: nat): nat
    requires n <= |events|
  {
    if n == 0 then 0 else PollsBefore(events, n - 1) + (if events[n - 1].Poll? then 1 else 0)
  }

  /** Every delivered id is in exactly one place, `pending` holding the one
      being handled right now. */
  ghost predicate Accounted(acked: seq<nat>, jobs: seq<Job>, undecodable: seq<nat>,
                            pending: multiset<nat>, delivered: seq<nat>)
  {
    multiset(acked) + multiset(Map(JobId, jobs)) + multiset(undecodable) + pending == multiset(delivered)
  }

  /** Delivering an entry puts its id in hand. */
  lemma DeliverStep(acked: seq<nat>, jobs: seq<Job>, undecodable: seq<nat>, delivered: seq<nat>, id: nat)
    requires Accounted(acked, jobs, undecodable, multiset{}, delivered)
    ensures Accounted(acked, jobs, undecodable, multiset{id}, delivered + [id])
  {
  }

  /** An id in hand can be acknowledged, ... */
  lemma AckStep(acked: seq<nat>, jobs: seq<Job>, undecodable: seq<nat>, delivered: seq<nat>, id: nat)
    requires Accounted(acked, jobs, undecodable, multiset{id}, delivered)
    ensures Accounted(acked + [id], jobs, undecodable, multiset{}, delivered)
  {
    assert multiset(acked + [id]) == multiset(acked) + multiset{id};
  }

  /** ... set aside as undecodable, ... */
  lemma SetAsideStep(acked: seq<nat>, jobs: seq<Job>, undecodable: seq<nat>, delivered: seq<nat>, id: nat)
    requires Accounted(acked, jobs, undecodable, multiset{id}, delivered)
    ensures Accounted(acked, jobs, undecodable + [id], multiset{}, delivered)
  {
    assert multiset(undecodable + [id]) == multiset(undecodable) + multiset{id};
  }

  /** ... or become a job. */
  lemma DispatchStep(acked: seq<nat>, jobs: seq<Job>, undecodable: seq<nat>, delivered: seq<nat>, job: Job)
    requires Accounted(acked, jobs, undecodable, multiset{job.msgId}, delivered)
    ensures Accounted(acked, jobs + [job], undecodable, multiset{}, delivered)
  {
    MapAppend(JobId, jobs, job);
    assert multiset(Map(JobId, jobs + [job])) == multiset(Map(JobId, jobs)) + multiset{job.msgId};
  }

  /** Removing the k-th job removes exactly its id from the ids' multiset. */
  lemma RemoveJobIds(jobs: seq<Job>, k: nat)
    requires k < |jobs|
    ensures multiset(Map(JobId, jobs)) == multiset(Map(JobId, jobs[..k] + jobs[k + 1..])) + multiset{jobs[k].msgId}
  {
    var job := jobs[k];
    assert jobs == jobs[..k] + [job] + jobs[k + 1..];
    MapConcat(JobId, jobs[..k] + [job], jobs[k + 1..]);
    MapConcat(JobId, jobs[..k], [job]);
    MapConcat(JobId, jobs[..k], jobs[k + 1..]);
  }

  /** Finishing the k-th job moves its id from the jobs to the acknowledged. */
  lemma FinishStep(acked: seq<nat>, jobs: seq<Job>, undecodable: seq<nat>, delivered: seq<nat>, k: nat)
    requires k < |jobs|
    requires Accounted(acked, jobs, undecodable, multiset{}, delivered)
    ensures Accounted(acked + [jobs[k].msgId], jobs[..k] + jobs[k + 1..], undecodable, multiset{}, delivered)
  {
    RemoveJobIds(jobs, k);
    assert multiset(acked + [jobs[k].msgId]) == multiset(acked) + multiset{jobs[k].msgId};
  }

  /** The number of jobs holding a slot of the semaphore: tasks acquire it in
      creation order, so the first ones hold it and the others wait. */
  function Holding(jobs: seq<Job>): nat {
    Min(|jobs|, MaxConcurrentInvestigations)
  }

  /** The validation of an entry's payload: None for a missing or empty
      payload, otherwise what `decode` makes of it. */
  function Decoded(e: StreamEntry, decode: string -> Option<NormalizedAlert>): Option<NormalizedAlert> {
    if e.alertJson == "" then None else decode(e.alertJson)
  }

  /** What the loop does with a delivered entry. */
  function Handled(e: StreamEntry, decoded: Option<NormalizedAlert>): PollOutcome {
    if e.alertJson == "" then AckedEmpty(e.id) else if decoded.None? then Backoff else Dispatched(e.id)
  }

  /** The acknowledgements handling `e` makes on the spot. */
  function AckedBy(e: StreamEntry, decoded: Option<NormalizedAlert>): seq<nat> {
    if e.alertJson == "" then [e.id] else []
  }

  /** The job handling `e` creates. */
  function JobsBy(e: StreamEntry, decoded: Option<NormalizedAlert>): seq<Job> {
    if e.alertJson != "" && decoded.Some? then [Job(e.id, decoded.value)] else []
  }

  class InvestigationWorker {
    const redis: Redis
    var running: bool
    /** `_task is not None`: the poll task was created by `start`. */
    var hasTask: bool
    var taskCancelled: bool
    /** The investigation tasks not yet finished, in creation order; the
        first Holding(jobs) of them hold a slot, the others wait for one. */
    var jobs: seq<Job>
    /** The semaphore's counter: slots not held by any task. */
    var free: nat
    /** Entries whose payload failed to decode: delivered, never acknowledged. */
    ghost var undecodable: seq<nat>
    /** How many times the loop slept after an exception. */
    var backoffs: nat
    /** The group's cursor and the length of the ack log when this worker
        was created; the accounting below covers what happened since. */
    ghost const base: nat
    ghost const acks0: nat

    /** The store is consistent, the counters are in range and the counter
        matches the tasks holding a slot. */
    ghost predicate Slots()
      reads this, redis
    {
      && redis.Valid()
      && base <= redis.cursor && acks0 <= |redis.acks|
      && free == MaxConcurrentInvestigations - Holding(jobs)
    }

    /** The ids acknowledged since creation. */
    ghost function Acked(): seq<nat>
      reads this, redis
      requires acks0 <= |redis.acks|
    {
      redis.acks[acks0..]
    }

    /** The ids delivered to the group since creation. */
    ghost function Delivered(): seq<nat>
      reads this, redis
      requires base <= redis.cursor <= |redis.stream|
    {
      Map(EntryId, redis.stream[base..redis.cursor])
    }

    /** Slots() holds and every entry delivered since creation is in exactly
        one place: acknowledged, a job, or undecodable. */
    ghost predicate Valid()
      reads this, redis
    {
      Slots() && Accounted(Acked(), jobs, undecodable, multiset{}, Delivered())
    }

    constructor (redis: Redis)
      requires redis.Valid()
      ensures Valid()
      ensures this.redis == redis && !running && !hasTask && !taskCancelled
      ensures jobs == [] && free == MaxConcurrentInvestigations && backoffs == 0
    {
      this.redis := redis;
      running, hasTask, taskCancelled := false, false, false;
      jobs, free, undecodable, backoffs := [], MaxConcurrentInvestigations, [], 0;
      base := redis.cursor;
      acks0 := |redis.acks|;
      new;
      assert Delivered() == [] && Acked() == [];
    }

    /** Since creation, no entry has been acknowledged twice. */
    lemma AckedAtMostOnce()
      requires Valid()
      ensures NoDup(redis.acks[acks0..])
    {
      IncreasingIdsDistinct(redis.stream, base, redis.cursor);
      NoDupOfSubMultiset(Acked(), Delivered());
    }

    /** `start`: tries to create the consumer group and swallows whatever
        error that raises, then marks the worker running with its poll task.
        `reachable` says whether the creation reaches the server; when it
        does not and the group did not exist, the worker runs without a
        group, and every pass of its loop backs off (PollOnce). */
    method Start(reachable: bool)
      requires Valid()
      modifies this`running, this`hasTask, this`taskCancelled, redis`groupExists
      ensures Valid()
      ensures running && hasTask && !taskCancelled
      ensures redis.groupExists == (old(redis.groupExists) || reachable)
    {
      var _ := redis.XGroupCreate(reachable);
      running := true;
      hasTask := true;
      taskCancelled := false;
    }

    /** `stop`: clears the running flag and cancels the poll task if there is
        one. */
    method Stop()
      requires Valid()
      modifies this`running, this`taskCancelled
      ensures Valid()
      ensures !running && taskCancelled == (old(taskCancelled) || hasTask)
    {
      running := false;
      if hasTask {
        taskCancelled := true;
      }
    }

    /** An entry that has become a job: its task takes a free slot or waits. */
    method Dispatch(job: Job)
      requires Slots() && Accounted(Acked(), jobs, undecodable, multiset{job.msgId}, Delivered())
      modifies this`jobs, this`free
      ensures Valid()
      ensures jobs == old(jobs) + [job]
      ensures free == if old(free) > 0 then old(free) - 1 else 0
    {
      DispatchStep(Acked(), jobs, undecodable, Delivered(), job);
      jobs := jobs + [job];
      if free > 0 {
        free := free - 1;
      }
    }

    /** An entry without payload is acknowledged on the spot. */
    method AckEmpty(id: nat)
      requires Slots() && Accounted(Acked(), jobs, undecodable, multiset{id}, Delivered())
      modifies redis`acks
      ensures Valid()
      ensures redis.acks == old(redis.acks) + [id]
    {
      AckStep(Acked(), jobs, undecodable, Delivered(), id);
      ghost var before := Acked();
      redis.XAck(id);
      assert Acked() == before + [id];
    }

    /** An entry whose payload does not decode is dropped unacknowledged and
        the loop backs off. */
    method SetAside(id: nat)
      requires Slots() && Accounted(Acked(), jobs, undecodable, multiset{id}, Delivered())
      modifies this`undecodable, this`backoffs
      ensures Valid()
      ensures undecodable == old(undecodable) + [id] && backoffs == old(backoffs) + 1
    {
      SetAsideStep(Acked(), jobs, undecodable, Delivered(), id);
      undecodable := undecodable + [id];
      backoffs := backoffs + 1;
    }
 
    /** The body of the inner loop of `_poll_loop` for a delivered entry `e`,
        `decoded` being the alert validation of its payload (None when it
        raises): an entry without payload is acknowledged, one whose payload
        does not decode raises into the generic handler (and stays
        unacknowledged), and any other becomes a job. */
    method HandleEntry(e: StreamEntry, decoded: Option<NormalizedAlert>) returns (outcome: PollOutcome)
      requires Slots() && Accounted(Acked(), jobs, undecodable, multiset{e.id}, Delivered())
      modifies this`jobs, this`free, this`undecodable, this`backoffs, redis`acks
      ensures Valid()
      ensures outcome == Handled(e, decoded)
      ensures redis.acks == old(redis.acks) + AckedBy(e, decoded)
      ensures jobs == old(jobs) + JobsBy(e, decoded)
      ensures outcome == Backoff ==> undecodable == old(undecodable) + [e.id]
    {
      assert jobs + [] == jobs && redis.acks + [] == redis.acks;
      if e.alertJson == "" {
        AckEmpty(e.id);
        return AckedEmpty(e.id);
      }
      if decoded.None? {
        SetAside(e.id);
        return Backoff;
      }
      Dispatch(Job(e.id, decoded.value));
      outcome := Dispatched(e.id);
    }

    /** The read at the top of `_poll_loop` (COUNT 1, id ">"): delivers at
        most one new entry, leaving its id in hand. */
    method ReadNext() returns (r: Result<Option<StreamEntry>>)
      requires Valid()
      modifies redis`cursor
      ensures Slots()
      ensures !redis.groupExists ==> r.Failure?
      ensures redis.groupExists && old(redis.cursor) < |redis.stream| ==>
                r == Success(Some(redis.stream[old(redis.cursor)]))
      ensures redis.groupExists && old(redis.cursor) == |redis.stream| ==> r == Success(None)
      ensures redis.cursor == old(redis.cursor) + (if r.Success? && r.value.Some? then 1 else 0)
      ensures r.Success? && r.value.Some? ==>
                Accounted(Acked(), jobs, undecodable, multiset{r.value.value.id}, Delivered())
      ensures !(r.Success? && r.value.Some?) ==> Valid()
    {
      ghost var acked0, delivered0 := Acked(), Delivered();
      r := redis.XReadGroup();
      if r.Success? && r.value.Some? {
        var e := r.value.value;
        DeliverStep(acked0, jobs, undecodable, delivered0, e.id);
        DeliveredGrows(redis.stream, base, redis.cursor);
        assert Acked() == acked0 && Delivered() == delivered0 + [e.id];
      }
    }

    /** The generic handler's sleep before the next pass. */
    method NoteBackoff()
      requires Valid()
      modifies this`backoffs
      ensures Valid() && backoffs == old(backoffs) + 1
    {
      backoffs := backoffs + 1;
    }

    /** One pass of `_poll_loop`: read at most one entry and handle it; a
        failed read goes to the generic handler. `decode` is the validation
        of a payload as an alert; `read` is the entry delivered, if any. */
    method PollOnce(decode: string -> Option<NormalizedAlert>) returns (outcome: PollOutcome, ghost read: Option<StreamEntry>)
      requires Valid()
      modifies this`jobs, this`free, this`undecodable, this`backoffs, redis`cursor, redis`acks
      ensures Valid()
      ensures !redis.groupExists ==> outcome == Backoff && read == None
      ensures redis.groupExists && old(redis.cursor) == |redis.stream| ==> outcome == Idle && read == None
      ensures redis.groupExists && old(redis.cursor) < |redis.stream| ==> read == Some(redis.stream[old(redis.cursor)])
      ensures read.None? ==> unchanged(redis`cursor, redis`acks, this`jobs)
      ensures read.Some? ==>
                var d := Decoded(read.value, decode);
                && redis.cursor == old(redis.cursor) + 1 && outcome == Handled(read.value, d)
                && redis.acks == old(redis.acks) + AckedBy(read.value, d)
                && jobs == old(jobs) + JobsBy(read.value, d)
    {
      var r := ReadNext();
      if r.Failure? {
        assert !redis.groupExists;
        NoteBackoff();
        return Backoff, None;
      }
      if r.value.None? {
        assert redis.groupExists && old(redis.cursor) == |redis.stream|;
        return Idle, None;
      }
      var e := r.value.value;
      assert redis.groupExists && old(redis.cursor) < |redis.stream| && e == redis.stream[old(redis.cursor)];
      read := Some(e);
      outcome := HandleEntry(e, Decoded(e, decode));
    }

    /** The `finally` of `_run_with_guard` for the k-th unfinished task,
        which holds a slot: its entry is acknowledged whatever `outcome` is
        and its slot goes to the first waiting task, if any. */
    method FinishInvestigation(k: nat, outcome: RunOutcome)
      requires Valid() && k < Holding(jobs)
      modifies this`jobs, this`free, redis`acks
      ensures Valid()
      ensures redis.acks == old(redis.acks) + [old(jobs)[k].msgId]
      ensures jobs == old(jobs)[..k] + old(jobs)[k + 1..]
      ensures free == if |old(jobs)| > MaxConcurrentInvestigations then old(free) else old(free) + 1
    {
      var job := jobs[k];
      ghost var delivered := Delivered();
      FinishStep(Acked(), jobs, undecodable, delivered, k);
      ghost var before := Acked();
      redis.XAck(job.msgId);
      assert Acked() == before + [job.msgId] && Delivered() == delivered;
      if |jobs| <= MaxConcurrentInvestigations {
        free := free + 1;
      }
      jobs := jobs[..k] + jobs[k + 1..];
      assert Delivered() == delivered;
    }
 
    /** The semaphore's counter never lets more than the bound run, and no
        task waits while a slot is free. */
    lemma SlotBound()
      requires Valid()
      ensures free <= MaxConcurrentInvestigations
      ensures MaxConcurrentInvestigations - free == Holding(jobs) <= MaxConcurrentInvestigations
      ensures free > 0 ==> Holding(jobs) == |jobs|
    {
    }

    /** One turn of the scheduler: a pass of the poll loop, the end of a
        task holding a slot (an index past those is ignored), or a call to
        `stop`. */
    method HandleEvent(ev: WorkerEvent, decode: string -> Option<NormalizedAlert>)
      requires Valid()
      modifies this`running, this`taskCancelled, this`jobs, this`free, this`undecodable, this`backoffs,
               redis`cursor, redis`acks
      ensures Valid()
      ensures redis.cursor <= old(redis.cursor) + (if ev.Poll? then 1 else 0)
      ensures ev.Stop? ==> !running
      ensures !ev.Stop? ==> running == old(running)
    {
      match ev {
        case Poll =>
          PollEvent(decode);
        case Finish(k, outcome) =>
          FinishEvent(k, outcome);
        case Stop =>
          Stop();
      }
    }

    /** A `Poll` turn: one pass of the loop, of which only the cursor and
        the effect of a missing group matter to the scheduler. */
    method PollEvent(decode: string -> Option<NormalizedAlert>)
      requires Valid()
      modifies this`jobs, this`free, this`undecodable, this`backoffs, redis`cursor, redis`acks
      ensures Valid()
      ensures redis.cursor <= old(redis.cursor) + 1
      ensures !old(redis.groupExists) ==> unchanged(redis`cursor, redis`acks, this`jobs)
    {
      var _, _ := PollOnce(decode);
    }

    /** A `Finish` turn: the end of the k-th task, ignored unless it holds
        a slot. */
    method FinishEvent(k: nat, outcome: RunOutcome)
      requires Valid()
      modifies this`jobs, this`free, redis`acks
      ensures Valid()
      ensures k < Holding(old(jobs)) ==>
                && redis.acks == old(redis.acks) + [old(jobs)[k].msgId]
                && jobs == old(jobs)[..k] + old(jobs)[k + 1..]
      ensures k >= Holding(old(jobs)) ==> unchanged(redis`acks, this`jobs)
    {
      if k < Holding(jobs) {
        FinishInvestigation(k, outcome);
      }
    }

    /** `_poll_loop` over a schedule of events: runs while the worker is
        running and events remain; a `Stop` clears the flag and cancels the
        task, which ends the loop. Each pass reads at most one entry. */
    method PollLoop(events: seq<WorkerEvent>, decode: string -> Option<NormalizedAlert>)
      returns (handled: nat)
      requires Valid()
      modifies this`running, this`taskCancelled, this`jobs, this`free, this`undecodable, this`backoffs,
               redis`cursor, redis`acks
      ensures Valid()
      ensures handled <= |events|
      ensures handled < |events| ==> !running
      ensures old(running) && handled < |events| ==> handled > 0 && events[handled - 1].Stop?
      ensures !old(running) ==> handled == 0 && redis.cursor == old(redis.cursor)
      ensures redis.cursor <= old(redis.cursor) + PollsBefore(events, handled)
    {
      handled := 0;
      ghost var wasRunning, cursor0 := running, redis.cursor;
      while running && handled < |events|
        invariant Valid()
        invariant handled <= |events|
        invariant !wasRunning ==> handled == 0 && !running && redis.cursor == cursor0
        invariant wasRunning && !running ==> handled > 0 && events[handled - 1].Stop?
        invariant redis.cursor <= cursor0 + PollsBefore(events, handled)
        decreases |events| - handled
      {
        ghost var cursor := redis.cursor;
        HandleEvent(events[handled], decode);
        assert redis.cursor <= cursor + (if events[handled].Poll? then 1 else 0);
        assert !running ==> events[handled].Stop?;
        handled := handled + 1;
      }
    }

    /** An id set aside as undecodable, or held by a job, has not been
        acknowledged: delivered ids are distinct, and each is in one place. */
    lemma NeverAckedWhileHeld()
      requires Valid()
      ensures forall id :: id in undecodable ==> id !in redis.acks[acks0..]
      ensures forall j :: 0 <= j < |jobs| ==> jobs[j].msgId !in redis.acks[acks0..]
    {
      IncreasingIdsDistinct(redis.stream, base, redis.cursor);
      forall id | id in undecodable || id in Map(JobId, jobs)
        ensures id !in Acked()
      {
        NoDupCountsOnce(Delivered(), id);
      }
      forall j | 0 <= j < |jobs| ensures jobs[j].msgId in Map(JobId, jobs) {
        assert Map(JobId, jobs)[j] == jobs[j].msgId;
      }
    }
  }
}
