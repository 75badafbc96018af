/** The operator job queue: workers lease jobs, and a finish is accepted only from the worker that holds the lease. */
module OperatorJobs {
  import opened Options
  import opened Identifiers
  import opened Sequences

  datatype Status = Pending | Running | Completed | Failed | Cancelled

  datatype Job = Job(
    key: string,
    status: Status,
    availableAt: int,
    leaseOwner: Option<Id>,
    leasedAt: Option<int>,
    attemptCount: nat,
    createdAt: int,
    completedAt: Option<int>)

  datatype Event =
    | Enqueue(id: Id, key: string, now: int)
    | Claim(id: Id, worker: Id, now: int, timeout: int)
    | Finish(id: Id, worker: Id, succeeded: bool, now: int)
    | Cancel(id: Id, now: int)

  predicate Claimable(job: Job, now: int, timeout: int) {
    || (job.status == Pending && job.availableAt <= now)
    || (job.status == Running && job.leasedAt.Some? && job.leasedAt.value < now - timeout)
  }

  predicate Accepted(job: Job, worker: Id) {
    job.status == Running && job.leaseOwner == Some(worker)
  }

  function StepRow(id: Id, job: Job, event: Event): Job {
    match event
    case Enqueue(_, _, _) => job
    case Claim(target, worker, now, timeout) =>
      if id == target && Claimable(job, now, timeout)
      then job.(status := Running, leaseOwner := Some(worker), leasedAt := Some(now),
               attemptCount := job.attemptCount + 1)
      else job
    case Finish(target, worker, succeeded, now) =>
      if id == target && Accepted(job, worker)
      then job.(status := if succeeded then Completed else Failed, completedAt := Some(now)) else job
    case Cancel(target, now) =>
      if id == target && job.status == Pending then job.(status := Cancelled, completedAt := Some(now)) else job
  }

  ghost predicate Inserts(jobs: map<Id, Job>, event: Event) {
    event.Enqueue? && event.id !in jobs && forall id :: id in jobs ==> jobs[id].key != event.key
  }

  function NewJob(event: Event): Job
    requires event.Enqueue?
  {
    Job(event.key, Pending, event.now, None, None, 0, event.now, None)
  }

  ghost function Step(jobs: map<Id, Job>, event: Event): map<Id, Job> {
    var rows := map id | id in jobs :: StepRow(id, jobs[id], event);
    if Inserts(jobs, event) then rows[event.id := NewJob(event)] else rows
  }

  ghost function Run(events: seq<Event>): map<Id, Job> {
    if events == [] then map[] else Step(Run(events[..|events| - 1]), events[|events| - 1])
  }

  // ---------------------------------------------------------------- what single steps mean

  /** A claim gives a worker exactly a job that is pending and due, or that another worker has held for longer than the
      timeout. */
  lemma {:induction false} ClaimedIff(jobs: map<Id, Job>, id: Id, worker: Id, now: int, timeout: int)
    requires id in jobs && (jobs[id].status == Running ==> jobs[id].leasedAt.Some?)
    ensures var before, after := jobs[id], Step(jobs, Claim(id, worker, now, timeout));
            && id in after
            && (if (before.status == Pending && now >= before.availableAt)
                   || (before.status == Running && now - before.leasedAt.value > timeout)
                then after[id] == before.(status := Running, leaseOwner := Some(worker), leasedAt := Some(now),
                                          attemptCount := before.attemptCount + 1)
                else after[id] == before)
  {
  }

  /** A finish ends exactly a running job of that worker, as completed if it succeeded and as failed if not. */
  lemma {:induction false} FinishedIff(jobs: map<Id, Job>, id: Id, worker: Id, succeeded: bool, now: int)
    requires id in jobs
    ensures var before, after := jobs[id], Step(jobs, Finish(id, worker, succeeded, now));
            && id in after
            && (if before.status == Running && before.leaseOwner == Some(worker)
                then && after[id] == before.(status := after[id].status, completedAt := Some(now))
                     && (succeeded ==> after[id].status == Completed) && (!succeeded ==> after[id].status == Failed)
                else after[id] == before)
  {
  }

  /** A cancellation ends exactly a pending job. */
  lemma {:induction false} CancelledIff(jobs: map<Id, Job>, id: Id, now: int)
    requires id in jobs
    ensures var before, after := jobs[id], Step(jobs, Cancel(id, now));
            && id in after
            && after[id] == if before.status == Pending
                            then before.(status := Cancelled, completedAt := Some(now)) else before
  {
  }

  /** A job is stored, pending and due at once, exactly if its key is new. */
  lemma {:induction false} EnqueuedIff(jobs: map<Id, Job>, id: Id, key: string, now: int)
    requires id !in jobs
    ensures var after := Step(jobs, Enqueue(id, key, now));
            && (id in after <==> forall j :: j in jobs ==> jobs[j].key != key)
            && (id in after ==> after[id] == Job(key, Pending, now, None, None, 0, now, None))
            && forall j :: j in jobs ==> j in after && after[j] == jobs[j]
  {
  }

  // ---------------------------------------------------------------- theorems

  predicate Terminal(status: Status) {
    status == Completed || status == Failed || status == Cancelled
  }

  ghost predicate Claims(events: seq<Event>, i: int, id: Id) {
    && 0 <= i < |events| && events[i].Claim? && events[i].id == id
    && id in Run(events[..i]) && Claimable(Run(events[..i])[id], events[i].now, events[i].timeout)
  }

  ghost predicate Finishes(events: seq<Event>, i: int, id: Id) {
    && 0 <= i < |events| && events[i].Finish? && events[i].id == id
    && id in Run(events[..i]) && Accepted(Run(events[..i])[id], events[i].worker)
  }

  lemma {:induction false} StepAt(jobs: map<Id, Job>, event: Event, id: Id)
    requires id in jobs
    ensures id in Step(jobs, event) && Step(jobs, event)[id] == StepRow(id, jobs[id], event)
  {
  }

  /** A finished or cancelled job never changes again, in any column. */
  lemma {:induction false} TerminalIsFinal(events: seq<Event>, i: nat, j: nat, id: Id)
    requires i <= j <= |events|
    requires id in Run(events[..i]) && Terminal(Run(events[..i])[id].status)
    ensures id in Run(events[..j]) && Run(events[..j])[id] == Run(events[..i])[id]
  {
    hide Step;
    if i < j {
      TerminalIsFinal(events, i, j - 1, id);
      PrefixOfPrefix(events, j - 1, j);
      StepAt(Run(events[..j - 1]), events[j - 1], id);
    }
  }

  /** A finish is accepted at most once per job. */
  lemma {:induction false} FinishedOnce(events: seq<Event>, i: nat, j: nat, id: Id)
    requires Finishes(events, i, id) && i < j
    ensures !Finishes(events, j, id)
  {
    hide Step;
    if j < |events| {
      PrefixOfPrefix(events, i, i + 1);
      StepAt(Run(events[..i]), events[i], id);
      TerminalIsFinal(events, i + 1, j, id);
    }
  }

  ghost predicate Holds(jobs: map<Id, Job>, id: Id, worker: Id, since: int) {
    id in jobs && jobs[id].status == Running && jobs[id].leaseOwner == Some(worker) && jobs[id].leasedAt == Some(since)
  }

  /** From a claim on, a job is held by that worker until it is finished or claimed again. */
  lemma {:induction false} ClaimLasts(events: seq<Event>, i: nat, j: nat, id: Id)
    requires Claims(events, i, id) && i < j <= |events|
    requires forall m :: i < m < j ==> !Claims(events, m, id) && !Finishes(events, m, id)
    ensures Holds(Run(events[..j]), id, events[i].worker, events[i].now)
  {
    hide Step;
    PrefixOfPrefix(events, j - 1, j);
    if i < j - 1 {
      ClaimLasts(events, i, j - 1, id);
      assert !Claims(events, j - 1, id) && !Finishes(events, j - 1, id);
    }
    StepAt(Run(events[..j - 1]), events[j - 1], id);
  }

  /** Two successive claims of one job are more than the lease timeout of the later one apart. */
  lemma {:induction false} ClaimsAreApart(events: seq<Event>, i: nat, j: nat, id: Id)
    requires Claims(events, i, id) && Claims(events, j, id) && i < j
    requires forall m :: i < m < j ==> !Claims(events, m, id)
    ensures events[j].now > events[i].now + events[j].timeout
  {
    hide Step;
    if m :| i < m < j && Finishes(events, m, id) {
      PrefixOfPrefix(events, m, m + 1);
      StepAt(Run(events[..m]), events[m], id);
      TerminalIsFinal(events, m + 1, j, id);
    } else {
      ClaimLasts(events, i, j, id);
    }
  }

  /** A running job was claimed, and is held by the worker of the latest claim. */
  lemma {:induction false} RunningIsClaimed(events: seq<Event>, j: nat, id: Id) returns (i: nat)
    requires j <= |events| && id in Run(events[..j]) && Run(events[..j])[id].status == Running
    ensures i < j && Claims(events, i, id) && (forall m :: i < m < j ==> !Claims(events, m, id))
    ensures Holds(Run(events[..j]), id, events[i].worker, events[i].now)
  {
    hide StepRow;
    if j == 0 {
      assert false;
    } else {
      var before, event := Run(events[..j - 1]), events[j - 1];
      PrefixOfPrefix(events, j - 1, j);
      RunningRow(before, event, id);
      if Claims(events, j - 1, id) {
        i := j - 1;
      } else {
        i := RunningIsClaimed(events, j - 1, id);
      }
    }
  }

  lemma {:induction false} RunningRow(before: map<Id, Job>, event: Event, id: Id)
    requires id in Step(before, event) && Step(before, event)[id].status == Running
    ensures id in before
    ensures event.Claim? && event.id == id && Claimable(before[id], event.now, event.timeout) ==>
              Holds(Step(before, event), id, event.worker, event.now)
    ensures !(event.Claim? && event.id == id && Claimable(before[id], event.now, event.timeout)) ==>
              before[id] == Step(before, event)[id]
  {
  }

  /** A finish is accepted exactly from the worker of the latest claim, while the job is running. */
  lemma {:induction false} OnlyTheHolderFinishes(events: seq<Event>, j: nat, id: Id) returns (i: nat)
    requires Finishes(events, j, id)
    ensures i < j && Claims(events, i, id) && events[i].worker == events[j].worker
    ensures forall m :: i < m < j ==> !Claims(events, m, id)
  {
    i := RunningIsClaimed(events, j, id);
  }

  ghost predicate UniqueKeys(jobs: map<Id, Job>) {
    forall a, b :: a in jobs && b in jobs && a != b ==> jobs[a].key != jobs[b].key
  }

  /** Idempotency keys stay unique. */
  lemma {:induction false} KeysStayUnique(events: seq<Event>)
    ensures UniqueKeys(Run(events))
  {
    if events != [] {
      KeysStayUnique(events[..|events| - 1]);
      StepKeepsKeys(Run(events[..|events| - 1]), events[|events| - 1]);
    }
  }

  lemma {:induction false} StepKeepsKeys(jobs: map<Id, Job>, event: Event)
    requires UniqueKeys(jobs)
    ensures UniqueKeys(Step(jobs, event))
  {
    assert forall id :: id in jobs ==> StepRow(id, jobs[id], event).key == jobs[id].key;
  }

  // ---------------------------------------------------------------- the queue

  predicate NoLater(a: Job, b: Job) {
    a.availableAt < b.availableAt || (a.availableAt == b.availableAt && a.createdAt <= b.createdAt)
  }

  /** The row the claim query may return: of the claimable ones that no other worker has locked, one that has been
      available, and then stored, longest; none only if there are none. */
  ghost predicate MayPick(jobs: map<Id, Job>, pick: Option<Id>, now: int, timeout: int, locked: set<Id>) {
    && (pick.Some? ==> pick.value in jobs && Claimable(jobs[pick.value], now, timeout) && pick.value !in locked)
    && (forall id :: id in jobs && Claimable(jobs[id], now, timeout) && id !in locked ==>
          pick.Some? && NoLater(jobs[pick.value], jobs[id]))
  }

  datatype EnqueueOutcome = Unsupported | Stored(id: Id)

  lemma {:induction false} OneRow(jobs: map<Id, Job>, event: Event, id: Id, row: Job)
    requires !event.Enqueue? && event.id == id && id in jobs && row == StepRow(id, jobs[id], event)
    ensures Step(jobs, event) == jobs[id := row]
  {
  }

  lemma {:induction false} NoRow(jobs: map<Id, Job>, event: Event)
    requires event.Enqueue? ==> !Inserts(jobs, event)
    requires event.id in jobs ==> StepRow(event.id, jobs[event.id], event) == jobs[event.id]
    ensures Step(jobs, event) == jobs
  {
    assert Step(jobs, event) == jobs;
  }

  class OperatorJobQueue {
    var jobs: map<Id, Job>
    const allowedTypes: set<string>

    constructor (allowedTypes: set<string>)
      ensures jobs == map[] && this.allowedTypes == allowedTypes
    {
      jobs, this.allowedTypes := map[], allowedTypes;
    }

    method Enqueue(id: Id, jobType: string, key: string, now: int) returns (outcome: EnqueueOutcome)
      requires id !in jobs
      modifies this
      ensures jobType !in allowedTypes ==> outcome == Unsupported && jobs == old(jobs)
      ensures jobType in allowedTypes ==>
                && jobs == Step(old(jobs), Event.Enqueue(id, key, now))
                && outcome.Stored? && outcome.id in jobs && jobs[outcome.id].key == key
    {
      ghost var event := Event.Enqueue(id, key, now);
      if jobType !in allowedTypes {
        return Unsupported;
      }
      if other :| other in jobs && jobs[other].key == key {
        NoRow(jobs, event);
        return Stored(other);
      }
      assert Step(jobs, event) == jobs[id := NewJob(event)];
      jobs := jobs[id := Job(key, Pending, now, None, None, 0, now, None)];
      return Stored(id);
    }

    method Claim(pick: Option<Id>, worker: Id, now: int, timeout: int, ghost locked: set<Id>)
      returns (claimed: Option<Job>)
      requires MayPick(jobs, pick, now, timeout, locked)
      modifies this
      ensures pick == None ==> claimed == None && jobs == old(jobs)
      ensures claimed == None <==>
              forall id :: id in old(jobs) && Claimable(old(jobs)[id], now, timeout) ==> id in locked
      ensures pick.Some? ==>
                forall id :: id in old(jobs) && Claimable(old(jobs)[id], now, timeout) && id !in locked ==>
                  NoLater(old(jobs)[pick.value], old(jobs)[id])
      ensures pick.Some? ==>
                && jobs == Step(old(jobs), Event.Claim(pick.value, worker, now, timeout))
                && pick.value in jobs && claimed == Some(jobs[pick.value])
                && Holds(jobs, pick.value, worker, now)
    {
      if pick == None {
        return None;
      }
      var row := jobs[pick.value].(status := Running, leaseOwner := Some(worker), leasedAt := Some(now),
                                   attemptCount := jobs[pick.value].attemptCount + 1);
      OneRow(jobs, Event.Claim(pick.value, worker, now, timeout), pick.value, row);
      jobs := jobs[pick.value := row];
      return Some(row);
    }

    method Cancel(id: Id, now: int) returns (done: bool)
      modifies this
      ensures jobs == Step(old(jobs), Event.Cancel(id, now))
      ensures done <==> id in old(jobs) && old(jobs)[id].status == Pending
    {
      if id !in jobs || jobs[id].status != Pending {
        NoRow(jobs, Event.Cancel(id, now));
        return false;
      }
      var row := jobs[id].(status := Cancelled, completedAt := Some(now));
      OneRow(jobs, Event.Cancel(id, now), id, row);
      jobs := jobs[id := row];
      return true;
    }

    /** `complete` and `fail`: one conditional update. */
    method Finish(id: Id, worker: Id, succeeded: bool, now: int) returns (done: bool)
      modifies this
      ensures jobs == Step(old(jobs), Event.Finish(id, worker, succeeded, now))
      ensures done <==> id in old(jobs) && Accepted(old(jobs)[id], worker)
      ensures done ==> Terminal(jobs[id].status)
    {
      if id !in jobs || jobs[id].status != Running || jobs[id].leaseOwner != Some(worker) {
        NoRow(jobs, Event.Finish(id, worker, succeeded, now));
        return false;
      }
      var row := jobs[id].(status := if succeeded then Completed else Failed, completedAt := Some(now));
      OneRow(jobs, Event.Finish(id, worker, succeeded, now), id, row);
      jobs := jobs[id := row];
      return true;
    }
  }
}
