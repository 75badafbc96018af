/** The notification outbox: a table of jobs that are enqueued, leased, completed and expired.

    Every database transaction of the source is one atomic step. `Step` gives the meaning of a step on
    the whole table, class `NotificationTable` carries the steps out in place, and the theorems are
    about every table a sequence of steps can reach. Times are in microseconds. */
module Outbox {
  import opened Options
  import opened Durations
  import opened Identifiers
  import opened Sequences

  datatype Status = Pending | Leased | Sent | Failed | Unknown | Retry | Cancelled

  datatype JobKind = Airing | Release | DailyDigest | OtherKind

  /** The business keys in use: `airing/<anime>/<episode>`, `mikan/<anime>/<number>`, `mikan/<batch>`, and the
      content planner's keys of a day, a week or a poll. */
  datatype BusinessKey =
    | AiringKey(animeId: Id, episodeLabel: string)
    | EpisodeKey(animeId: Id, episode: nat)
    | BatchKey(batchId: Id)
    | DailyKey(periodDay: int)
    | WeeklyKey(weekStart: int)
    | PollKey(pollId: Id)

  datatype Payload = Payload(animeId: Option<Id>, episodeLabel: string, audience: set<Id>,
                             releaseCount: nat, firstReleases: seq<Id>, atAll: bool, digest: seq<DigestLine>)

  /** What a line of a daily digest is about: an anime and an episode, or no episode label. */
  datatype DigestItem = DigestItem(animeId: Id, episodeLabel: Option<string>)

  /** `title` is the place of the anime's display title in string order. */
  datatype DigestLine = DigestLine(item: DigestItem, title: int, releaseCount: nat)

  datatype Job = Job(
    group: Id,
    kind: JobKind,
    key: BusinessKey,
    payload: Payload,
    status: Status,
    availableAt: int,
    expiresAt: int,
    leaseOwner: Option<Id>,
    leasedAt: Option<int>,
    attemptCount: nat,
    createdAt: int)

  /** What a delivery can be completed with. */
  datatype Result = SentResult | FailedResult | UnknownResult | RetryResult

  datatype Attempt = Attempt(job: Id, attemptNo: nat, result: Result)

  datatype Table = Table(jobs: map<Id, Job>, attempts: seq<Attempt>)

  const RETRY_DELAY := 30 * SECOND
  const LEASE_TIMEOUT := 600 * SECOND

  const EMPTY_TABLE := Table(map[], [])

  // ---------------------------------------------------------------- the meaning of one step

  datatype Event =
    | Enqueue(id: Id, group: Id, kind: JobKind, key: BusinessKey, payload: Payload,
              availableAt: int, expiresAt: int, createdAt: int)
    | Claim(ids: set<Id>, owner: Id, now: int)
    | Complete(id: Id, result: Result, now: int)
    | ReleaseExpired(now: int, timeout: int)
    | AdminRetry(id: Id, confirmUnknown: bool, now: int)
    | AdminCancel(id: Id)
    | AddAudience(id: Id, user: Id, now: int)

  predicate SameKey(job: Job, group: Id, kind: JobKind, key: BusinessKey) {
    job.group == group && job.kind == kind && job.key == key
  }

  predicate Claimable(job: Job, now: int) {
    job.status == Pending && job.availableAt <= now < job.expiresAt
  }

  predicate LeaseExpired(job: Job, now: int, timeout: int) {
    job.status == Leased && job.leasedAt.Some? && job.leasedAt.value < now - timeout
  }

  predicate AudienceOpen(job: Job, now: int) {
    job.kind == Airing && job.key.AiringKey? && job.status == Pending && job.availableAt > now && job.expiresAt > now
  }

  predicate Retryable(job: Job, confirmUnknown: bool) {
    job.status in {Failed, Unknown, Retry} && (job.status == Unknown ==> confirmUnknown)
  }

  predicate Cancellable(job: Job) {
    job.status in {Pending, Retry, Failed, Unknown}
  }

  function ResultStatus(result: Result): Status {
    match result
    case SentResult => Sent
    case FailedResult => Failed
    case UnknownResult => Unknown
    case RetryResult => Pending
  }

  function LeasedBy(job: Job, owner: Id, now: int): Job {
    job.(status := Leased, leaseOwner := Some(owner), leasedAt := Some(now), attemptCount := job.attemptCount + 1)
  }

  function Completed(job: Job, result: Result, now: int): Job {
    job.(status := ResultStatus(result),
         availableAt := if result == RetryResult then now + RETRY_DELAY else job.availableAt,
         leaseOwner := None, leasedAt := None)
  }

  function Returned(job: Job): Job {
    job.(status := Pending, leaseOwner := None, leasedAt := None)
  }

  function Readmitted(job: Job, now: int): Job {
    job.(status := Pending, availableAt := now, leaseOwner := None, leasedAt := None)
  }

  function WithUser(job: Job, user: Id): Job {
    job.(payload := job.payload.(audience := job.payload.audience + {user}))
  }

  /** What a step does to one existing row; only `Enqueue` adds rows and no step removes any. */
  function StepRow(id: Id, job: Job, event: Event): Job {
    match event
    case Enqueue(_, _, _, _, _, _, _, _) => job
    case Claim(ids, owner, now) => if id in ids && Claimable(job, now) then LeasedBy(job, owner, now) else job
    case Complete(target, result, now) => if id == target then Completed(job, result, now) else job
    case ReleaseExpired(now, timeout) => if LeaseExpired(job, now, timeout) then Returned(job) else job
    case AdminRetry(target, confirm, now) =>
      if id == target && Retryable(job, confirm) then Readmitted(job, now) else job
    case AdminCancel(target) => if id == target && Cancellable(job) then job.(status := Cancelled) else job
    case AddAudience(target, user, now) => if id == target && AudienceOpen(job, now) then WithUser(job, user) else job
  }

  ghost predicate Inserts(table: Table, event: Event) {
    && event.Enqueue?
    && event.id !in table.jobs
    && forall id :: id in table.jobs ==> !SameKey(table.jobs[id], event.group, event.kind, event.key)
  }

  function NewJob(event: Event): Job
    requires event.Enqueue?
  {
    Job(event.group, event.kind, event.key, event.payload, Pending, event.availableAt, event.expiresAt,
        None, None, 0, event.createdAt)
  }

  function NewAttempts(table: Table, event: Event): seq<Attempt> {
    if event.Complete? && event.id in table.jobs
    then [Attempt(event.id, table.jobs[event.id].attemptCount, event.result)] else []
  }

  ghost function Step(table: Table, event: Event): Table {
    var rows := map id | id in table.jobs :: StepRow(id, table.jobs[id], event);
    Table(if Inserts(table, event) then rows[event.id := NewJob(event)] else rows,
          table.attempts + NewAttempts(table, event))
  }

  ghost function Run(events: seq<Event>): Table {
    if events == [] then EMPTY_TABLE else Step(Run(events[..|events| - 1]), events[|events| - 1])
  }

  // ---------------------------------------------------------------- what single steps mean

  /** A claim leases a job exactly if it was asked for, is pending, and its time has come and is not over; an expired
      job is never leased. */
  lemma {:induction false} LeasedOnlyInItsTime(table: Table, ids: set<Id>, owner: Id, now: int, id: Id)
    requires id in table.jobs
    ensures var before, after := table.jobs[id], Step(table, Claim(ids, owner, now)).jobs;
            && id in after
            && (after[id] != before <==>
                  id in ids && before.status == Pending && before.availableAt <= now < before.expiresAt)
            && (after[id] != before ==>
                  && after[id].status == Leased
                  && after[id].leaseOwner == Some(owner) && after[id].leasedAt == Some(now)
                  && after[id].attemptCount == before.attemptCount + 1)
  {
  }

  /** What a completion leaves: sent, failed or unknown as reported, and pending after half a minute for a retry; in
      every case without a lease, and with one attempt row of the current number. */
  lemma {:induction false} CompletionMeans(table: Table, id: Id, result: Result, now: int)
    requires id in table.jobs
    ensures var before, after := table.jobs[id], Step(table, Complete(id, result, now));
            && id in after.jobs && after.jobs[id].leaseOwner == None && after.jobs[id].leasedAt == None
            && (result == SentResult ==> after.jobs[id].status == Sent)
            && (result == FailedResult ==> after.jobs[id].status == Failed)
            && (result == UnknownResult ==> after.jobs[id].status == Unknown)
            && (result == RetryResult ==> after.jobs[id].status == Pending)
            && after.jobs[id].availableAt == (if result == RetryResult then now + 30_000_000 else before.availableAt)
            && after.jobs[id].attemptCount == before.attemptCount
            && after.attempts == table.attempts + [Attempt(id, before.attemptCount, result)]
  {
  }

  /** An administrator readmits exactly failed jobs, and unknown ones if the decision is confirmed; the job is due at
      once. A job at rest is never in status retry, which the same decision would readmit. */
  lemma {:induction false} ReadmittedIff(table: Table, id: Id, confirmed: bool, now: int)
    requires id in table.jobs
    ensures var before, after := table.jobs[id], Step(table, AdminRetry(id, confirmed, now)).jobs;
            && id in after
            && (if before.status == Failed || before.status == Retry || (before.status == Unknown && confirmed)
                then && after[id].status == Pending && after[id].availableAt == now
                     && after[id].leaseOwner == None && after[id].leasedAt == None
                else after[id] == before)
  {
  }

  /** An administrator cancels exactly jobs that are neither leased, nor sent, nor cancelled. */
  lemma {:induction false} CancelledIff(table: Table, id: Id)
    requires id in table.jobs
    ensures var before, after := table.jobs[id], Step(table, AdminCancel(id)).jobs;
            && id in after
            && (if before.status != Leased && before.status != Sent then after[id] == before.(status := Cancelled)
                else after[id] == before)
  {
  }

  /** A lease is returned exactly if it is older than the timeout. */
  lemma {:induction false} ReturnedIff(table: Table, id: Id, now: int, timeout: int)
    requires id in table.jobs && (table.jobs[id].status == Leased ==> table.jobs[id].leasedAt.Some?)
    ensures var before, after := table.jobs[id], Step(table, ReleaseExpired(now, timeout)).jobs;
            && id in after
            && (if before.status == Leased && now - before.leasedAt.value > timeout
                then after[id] == before.(status := Pending, leaseOwner := None, leasedAt := None)
                else after[id] == before)
  {
  }

  /** A late subscriber is added exactly to an airing job that is pending and not yet due, and is then in its audience,
      with everybody who was there before and nobody else. */
  lemma {:induction false} LateSubscriberIsAdded(table: Table, id: Id, user: Id, now: int)
    requires id in table.jobs
    ensures var before, after := table.jobs[id], Step(table, AddAudience(id, user, now)).jobs;
            && id in after
            && (if before.kind == Airing && before.key.AiringKey? && before.status == Pending
                   && now < before.availableAt && now < before.expiresAt
                then && (forall u :: u in after[id].payload.audience <==> u == user || u in before.payload.audience)
                     && after[id] == before.(payload := before.payload.(audience := after[id].payload.audience))
                else after[id] == before)
  {
  }

  /** A job is stored pending, with what it was enqueued with and no lease, exactly if its group has none of that kind
      and key. */
  lemma {:induction false} EnqueuedIff(table: Table, id: Id, group: Id, kind: JobKind, key: BusinessKey,
                                       payload: Payload, availableAt: int, expiresAt: int, createdAt: int)
    requires id !in table.jobs
    ensures var after := Step(table, Enqueue(id, group, kind, key, payload, availableAt, expiresAt, createdAt)).jobs;
            && (id in after <==> forall j :: j in table.jobs ==>
                  table.jobs[j].group != group || table.jobs[j].kind != kind || table.jobs[j].key != key)
            && (id in after ==> after[id] == Job(group, kind, key, payload, Pending, availableAt, expiresAt, None, None,
                                                 0, createdAt))
            && forall j :: j in table.jobs ==> j in after && after[j] == table.jobs[j]
  {
  }

  // ---------------------------------------------------------------- what every reachable table keeps

  /** A job is leased exactly when both lease fields are set, and the stored status is never `retry`. */
  predicate RowOk(job: Job) {
    && (job.status == Leased <==> job.leaseOwner.Some?)
    && (job.status == Leased <==> job.leasedAt.Some?)
    && job.status != Retry
  }

  ghost predicate UniqueKeys(table: Table) {
    forall a, b :: a in table.jobs && b in table.jobs && a != b ==>
      !SameKey(table.jobs[a], table.jobs[b].group, table.jobs[b].kind, table.jobs[b].key)
  }

  lemma {:induction false} StepKeepsKeys(table: Table, event: Event)
    requires UniqueKeys(table)
    ensures UniqueKeys(Step(table, event))
  {
    forall id | id in table.jobs
      ensures var job := StepRow(id, table.jobs[id], event);
              SameKey(job, table.jobs[id].group, table.jobs[id].kind, table.jobs[id].key)
    {
    }
  }

  lemma {:induction false} StepKeepsRows(table: Table, event: Event)
    requires forall id :: id in table.jobs ==> RowOk(table.jobs[id])
    ensures forall id :: id in Step(table, event).jobs ==> RowOk(Step(table, event).jobs[id])
  {
  }

  /** In every reachable table keys are unique and every row is consistent. */
  lemma {:induction false} ReachableTablesAreConsistent(events: seq<Event>)
    ensures UniqueKeys(Run(events))
    ensures forall id :: id in Run(events).jobs ==> RowOk(Run(events).jobs[id])
  {
    hide Step, RowOk;
    if events != [] {
      var k := |events| - 1;
      ReachableTablesAreConsistent(events[..k]);
      StepKeepsKeys(Run(events[..k]), events[k]);
      StepKeepsRows(Run(events[..k]), events[k]);
    }
  }

  /** Step number `i` of a run takes a lease on the job. */
  ghost predicate Claims(events: seq<Event>, i: int, id: Id) {
    && 0 <= i < |events| && events[i].Claim? && id in events[i].ids
    && id in Run(events[..i]).jobs && Claimable(Run(events[..i]).jobs[id], events[i].now)
  }

  predicate Completes(event: Event, id: Id) {
    event.Complete? && event.id == id
  }

  ghost function ClaimCount(events: seq<Event>, id: Id): nat {
    if events == [] then 0 else
      ClaimCount(events[..|events| - 1], id) + if Claims(events, |events| - 1, id) then 1 else 0
  }

  /** The attempt counter of a job counts the leases taken on it. */
  lemma {:induction false} AttemptCountCountsClaims(events: seq<Event>, id: Id)
    ensures id in Run(events).jobs ==> Run(events).jobs[id].attemptCount == ClaimCount(events, id)
    ensures id !in Run(events).jobs ==> ClaimCount(events, id) == 0
  {
    if events != [] {
      AttemptCountCountsClaims(events[..|events| - 1], id);
    }
  }

  /** A lease lasts until the job is completed or an expiry finds it older than its timeout. */
  lemma {:induction false} LeaseLasts(events: seq<Event>, i: nat, id: Id)
    requires Claims(events, i, id)
    requires forall m :: i < m < |events| ==> !Completes(events[m], id)
    requires forall m :: i < m < |events| && events[m].ReleaseExpired? ==>
               events[i].now >= events[m].now - events[m].timeout
    ensures id in Run(events).jobs
    ensures Run(events).jobs[id].status == Leased && Run(events).jobs[id].leasedAt == Some(events[i].now)
  {
    hide Step;
    var k := |events| - 1;
    if i < k {
      PrefixOfPrefix(events, i, k);
      LeaseLasts(events[..k], i, id);
      assert !Completes(events[k], id);
    }
    StepAt(Run(events[..k]), events[k], id);
  }

  /** Between two leases of one job there is a completion of it, or an expiry more than the timeout after the
      first lease was taken. */
  lemma {:induction false} ClaimsAreSeparated(events: seq<Event>, i: nat, j: nat, id: Id)
    requires Claims(events, i, id) && Claims(events, j, id) && i < j
    ensures exists m :: i < m < j && (Completes(events[m], id) ||
              (events[m].ReleaseExpired? && events[m].now - events[m].timeout > events[i].now))
  {
    if !exists m :: i < m < j && (Completes(events[m], id) ||
              (events[m].ReleaseExpired? && events[m].now - events[m].timeout > events[i].now)) {
      var before := events[..j];
      PrefixOfPrefix(events, i, j);
      forall m | i < m < j
        ensures !Completes(before[m], id)
        ensures before[m].ReleaseExpired? ==> before[i].now >= before[m].now - before[m].timeout
      {
        assert before[m] == events[m];
      }
      LeaseLasts(before, i, id);
      assert false;
    }
  }

  lemma {:induction false} StepAt(table: Table, event: Event, id: Id)
    requires id in table.jobs
    ensures id in Step(table, event).jobs && Step(table, event).jobs[id] == StepRow(id, table.jobs[id], event)
  {
    hide StepRow;
  }

  lemma {:induction false} RetryRowWaits(id: Id, job: Job, event: Event)
    requires Completes(event, id) && event.result == RetryResult
    ensures StepRow(id, job, event).status == Pending
    ensures StepRow(id, job, event).availableAt == event.now + RETRY_DELAY
  {
  }

  lemma {:induction false} WaitingRowWaits(id: Id, job: Job, event: Event)
    requires job.status in {Pending, Leased, Cancelled} && !Completes(event, id)
    ensures StepRow(id, job, event).status in {Pending, Leased, Cancelled}
    ensures StepRow(id, job, event).availableAt == job.availableAt
  {
  }

  /** After a retry result the job waits at its new instant until it is completed again: neither an expiry nor an
      administrator can bring it forward. */
  lemma {:induction false} BackoffLasts(events: seq<Event>, i: nat, id: Id)
    requires i < |events| && Completes(events[i], id) && events[i].result == RetryResult && id in Run(events[..i]).jobs
    requires forall m :: i < m < |events| ==> !Completes(events[m], id)
    ensures id in Run(events).jobs
    ensures var job := Run(events).jobs[id];
            job.availableAt == events[i].now + RETRY_DELAY && job.status in {Pending, Leased, Cancelled}
  {
    hide StepRow, Step;
    var k := |events| - 1;
    var before := Run(events[..k]);
    if i < k {
      PrefixOfPrefix(events, i, k);
      BackoffLasts(events[..k], i, id);
      WaitingRowWaits(id, before.jobs[id], events[k]);
    } else {
      RetryRowWaits(id, before.jobs[id], events[k]);
    }
    StepAt(before, events[k], id);
  }

  /** A lease taken after a retry result, with no completion in between, is at least thirty seconds later. */
  lemma {:induction false} RetriesBackOff(events: seq<Event>, i: nat, j: nat, id: Id)
    requires i < j && Claims(events, j, id)
    requires Completes(events[i], id) && events[i].result == RetryResult && id in Run(events[..i]).jobs
    requires forall m :: i < m < j ==> !Completes(events[m], id)
    ensures events[j].now >= events[i].now + RETRY_DELAY
  {
    PrefixOfPrefix(events, i, j);
    BackoffLasts(events[..j], i, id);
  }

  /** The audience of a job can grow only while the job is pending and not yet due; nothing else in a stored job's
      payload, and neither its key nor its group, ever changes. */
  lemma {:induction false} AudienceIsFrozenOnceDue(table: Table, event: Event, id: Id)
    requires id in table.jobs
    ensures id in Step(table, event).jobs
    ensures var before, after := table.jobs[id], Step(table, event).jobs[id];
            && SameKey(after, before.group, before.kind, before.key)
            && after.payload == before.payload.(audience := after.payload.audience)
            && before.payload.audience <= after.payload.audience
            && (before.payload != after.payload ==>
                  event.AddAudience? && before.status == Pending && before.availableAt > event.now)
  {
  }

  /** An administrator's decision is read and written without a lock. Written over whatever the row has become since,
      it leaves the row consistent exactly when the job is not leased by then. */
  lemma {:induction false} LateDecisionFitsIff(events: seq<Event>, id: Id, decided: Status)
    requires id in Run(events).jobs && decided in {Pending, Cancelled}
    ensures RowOk(Run(events).jobs[id].(status := decided)) <==> Run(events).jobs[id].status != Leased
  {
    hide Run;
    ReachableTablesAreConsistent(events);
  }

  /** A lease can come between: the job is pending when the cancellation is decided, and leased when it is written. */
  lemma {:induction false} LeaseBeforeDecision(group: Id, payload: Payload, owner: Id, now: int)
    ensures var enqueue := Enqueue(0, group, OtherKind, PollKey(0), payload, now, now + 1, now);
            var events := [enqueue, Claim({0}, owner, now)];
            && 0 in Run(events[..1]).jobs && Cancellable(Run(events[..1]).jobs[0])
            && 0 in Run(events).jobs && !RowOk(Run(events).jobs[0].(status := Cancelled))
  {
    var enqueue := Enqueue(0, group, OtherKind, PollKey(0), payload, now, now + 1, now);
    var events := [enqueue, Claim({0}, owner, now)];
    assert events[..1] == [enqueue] && [enqueue][..0] == [];
    assert Run([]) == EMPTY_TABLE && Run([enqueue]) == Step(EMPTY_TABLE, enqueue);
    assert Run(events) == Step(Run([enqueue]), events[1]);
  }

  /** A retry decided late is written over the row all the same. While the job waits after a retry result, it then is
      due before the delay is over exactly when the decision is written before that. */
  lemma {:induction false} LateRetryKeepsDelayIff(events: seq<Event>, i: nat, id: Id, now: int)
    requires i < |events| && Completes(events[i], id) && events[i].result == RetryResult && id in Run(events[..i]).jobs
    requires forall m :: i < m < |events| ==> !Completes(events[m], id)
    ensures id in Run(events).jobs
    ensures var job := Readmitted(Run(events).jobs[id], now);
            job.availableAt >= events[i].now + RETRY_DELAY <==> now >= events[i].now + RETRY_DELAY
  {
    hide Run;
    BackoffLasts(events, i, id);
  }

  /** This can happen to a consistent row: the job had failed when the retry was decided, and before that is written,
      somebody else readmits it, and it is leased and completed with a retry result. */
  lemma {:induction false} DelayBeforeDecision(group: Id, payload: Payload, owner: Id, now: int)
    ensures var events := TwoDecisions(group, payload, owner, now);
            && 0 in Run(events[..3]).jobs && Retryable(Run(events[..3]).jobs[0], false)
            && 0 in Run(events).jobs && RowOk(Readmitted(Run(events).jobs[0], now))
            && Run(events).jobs[0].status == Pending && Run(events).jobs[0].availableAt == now + RETRY_DELAY
            && Claimable(Readmitted(Run(events).jobs[0], now), now)
  {
    hide Step, StepRow;
    var events := TwoDecisions(group, payload, owner, now);
    var first := NewJob(events[0]);
    assert events[..0] == [] && events[..6] == events;
    forall k | 1 <= k <= 6
      ensures Run(events[..k]) == Step(Run(events[..k - 1]), events[k - 1])
    {
      PrefixOfPrefix(events, k - 1, k);
    }
    EnqueueEffect(EMPTY_TABLE, events[0]);
    assert Run(events[..1]).jobs[0] == first;
    StepAt(Run(events[..1]), events[1], 0);
    StepAt(Run(events[..2]), events[2], 0);
    StepAt(Run(events[..3]), events[3], 0);
    StepAt(Run(events[..4]), events[4], 0);
    StepAt(Run(events[..5]), events[5], 0);
    LeasedRow(0, first, owner, now);
    var failed := Completed(LeasedBy(first, owner, now), FailedResult, now);
    CompletedRow(0, LeasedBy(first, owner, now), FailedResult, now);
    ReadmittedRow(0, failed, now);
    LeasedRow(0, Readmitted(failed, now), owner, now);
    CompletedRow(0, LeasedBy(Readmitted(failed, now), owner, now), RetryResult, now);
  }

  function TwoDecisions(group: Id, payload: Payload, owner: Id, now: int): seq<Event> {
    [Enqueue(0, group, OtherKind, PollKey(0), payload, now, now + 1, now), Claim({0}, owner, now),
     Complete(0, FailedResult, now), AdminRetry(0, false, now), Claim({0}, owner, now), Complete(0, RetryResult, now)]
  }

  lemma {:induction false} LeasedRow(id: Id, job: Job, owner: Id, now: int)
    requires Claimable(job, now)
    ensures StepRow(id, job, Claim({id}, owner, now)) == LeasedBy(job, owner, now)
  {
  }

  lemma {:induction false} CompletedRow(id: Id, job: Job, result: Result, now: int)
    ensures StepRow(id, job, Complete(id, result, now)) == Completed(job, result, now)
  {
  }

  lemma {:induction false} ReadmittedRow(id: Id, job: Job, now: int)
    requires Retryable(job, false)
    ensures StepRow(id, job, AdminRetry(id, false, now)) == Readmitted(job, now)
  {
  }

  // ---------------------------------------------------------------- the stored table

  datatype AdminAction = RetryAction | CancelAction

  datatype AdminOutcome = NotFound | Rejected | Done

  /** The row a query for the next airing job of a group that is still open for subscribers may return. */
  ghost predicate NextAiring(jobs: map<Id, Job>, pick: Option<Id>, group: Id, animeId: Id, now: int) {
    match pick
    case None => forall id :: id in jobs ==> !AiringFor(jobs[id], group, animeId, now)
    case Some(p) =>
      && p in jobs && AiringFor(jobs[p], group, animeId, now)
      && forall id :: id in jobs && AiringFor(jobs[id], group, animeId, now) ==>
           jobs[p].availableAt <= jobs[id].availableAt
  }

  /** The rows the claim query may return: claimable ones that no other transaction has locked, in whatever order, and
      fewer than the limit only if there are no more. */
  ghost predicate PicksUpTo(jobs: map<Id, Job>, picked: seq<Id>, limit: nat, now: int, locked: set<Id>) {
    && |picked| <= limit && Distinct(picked)
    && (forall i :: 0 <= i < |picked| ==>
          picked[i] in jobs && Claimable(jobs[picked[i]], now) && picked[i] !in locked)
    && (|picked| < limit ==> forall id :: id in jobs && Claimable(jobs[id], now) && id !in locked ==> id in picked)
  }

  predicate AiringFor(job: Job, group: Id, animeId: Id, now: int) {
    job.group == group && AudienceOpen(job, now) && job.key.animeId == animeId
  }

  lemma {:induction false} OneRowStep(table: Table, event: Event, id: Id, row: Job)
    requires !event.Enqueue? && id in table.jobs && row == StepRow(id, table.jobs[id], event)
    requires forall other :: other in table.jobs && other != id ==>
               StepRow(other, table.jobs[other], event) == table.jobs[other]
    ensures Step(table, event) == Table(table.jobs[id := row], table.attempts + NewAttempts(table, event))
  {
    hide StepRow, NewAttempts;
    assert Step(table, event).jobs == table.jobs[id := row];
  }

  lemma {:induction false} IdleStep(table: Table, event: Event)
    requires event.Enqueue? ==> !Inserts(table, event)
    requires event.Complete? ==> event.id !in table.jobs
    requires forall id :: id in table.jobs ==> StepRow(id, table.jobs[id], event) == table.jobs[id]
    ensures Step(table, event) == table
  {
    hide StepRow;
    assert Step(table, event).jobs == table.jobs;
  }

  lemma {:induction false} ReleasedRows(table: Table, now: int, timeout: int, jobs: map<Id, Job>)
    requires jobs.Keys == table.jobs.Keys
    requires forall id :: id in jobs ==>
      jobs[id] == if LeaseExpired(table.jobs[id], now, timeout) then Returned(table.jobs[id]) else table.jobs[id]
    ensures Step(table, ReleaseExpired(now, timeout)) == Table(jobs, table.attempts)
  {
    assert Step(table, ReleaseExpired(now, timeout)).jobs == jobs;
  }

  lemma {:induction false} EnqueueEffect(table: Table, event: Event)
    requires event.Enqueue?
    ensures Step(table, event).jobs ==
            if Inserts(table, event) then table.jobs[event.id := NewJob(event)] else table.jobs
  {
  }

  class NotificationTable {
    var jobs: map<Id, Job>
    var attempts: seq<Attempt>

    function Contents(): Table
      reads this
    {
      Table(jobs, attempts)
    }

    constructor ()
      ensures Contents() == EMPTY_TABLE
    {
      jobs, attempts := map[], [];
    }

    /** Stores a job under a fresh id unless its key is taken, and answers with the job that has the key. */
    method Enqueue(id: Id, group: Id, kind: JobKind, key: BusinessKey, payload: Payload,
                   availableAt: int, expiresAt: int, createdAt: int) returns (stored: Id)
      requires id !in jobs
      modifies this
      ensures Contents()
           == Step(old(Contents()), Event.Enqueue(id, group, kind, key, payload, availableAt, expiresAt, createdAt))
      ensures stored in jobs && SameKey(jobs[stored], group, kind, key)
      ensures stored in old(jobs) <==> exists other :: other in old(jobs) && SameKey(old(jobs)[other], group, kind, key)
    {
      ghost var event := Event.Enqueue(id, group, kind, key, payload, availableAt, expiresAt, createdAt);
      if other :| other in jobs && SameKey(jobs[other], group, kind, key) {
        IdleStep(Contents(), event);
        return other;
      }
      assert Step(Contents(), event).jobs == jobs[id := NewJob(event)];
      jobs := jobs[id := Job(group, kind, key, payload, Pending, availableAt, expiresAt, None, None, 0, createdAt)];
      return id;
    }

    /** Leases the rows the query picked. */
    method ClaimPendingJobs(picked: seq<Id>, consumer: Id, limit: nat, now: int, ghost locked: set<Id>)
      returns (claimed: seq<Id>)
      requires PicksUpTo(jobs, picked, limit, now, locked)
      modifies this
      ensures claimed == picked
      ensures Contents() == Step(old(Contents()), Event.Claim((set id | id in picked), consumer, now))
      ensures |claimed| < limit ==> forall id :: id in jobs && Claimable(jobs[id], now) ==> id in locked
    {
      ghost var event := Event.Claim((set id | id in picked), consumer, now);
      for k := 0 to |picked|
        invariant attempts == old(attempts) && jobs.Keys == old(jobs).Keys
        invariant forall id :: id in jobs ==>
          jobs[id] == if id in picked[..k] then LeasedBy(old(jobs)[id], consumer, now) else old(jobs)[id]
      {
        var row := jobs[picked[k]];
        assert picked[..k + 1] == picked[..k] + [picked[k]];
        jobs := jobs[picked[k] := row.(status := Leased, leaseOwner := Some(consumer), leasedAt := Some(now),
                                        attemptCount := row.attemptCount + 1)];
      }
      assert picked[..|picked|] == picked;
      assert jobs == Step(old(Contents()), event).jobs;
      claimed := picked;
    }

    /** Leases the job unless it may no longer be leased; a row that another transaction has locked is skipped. */
    method ClaimPendingJob(id: Id, consumer: Id, now: int, locked: bool) returns (claimed: bool)
      modifies this
      ensures claimed <==> id in old(jobs) && Claimable(old(jobs)[id], now) && !locked
      ensures Contents() == if locked then old(Contents()) else Step(old(Contents()), Event.Claim({id}, consumer, now))
    {
      ghost var event := Event.Claim({id}, consumer, now);
      if id !in jobs || !Claimable(jobs[id], now) || locked {
        if !locked {
          IdleStep(Contents(), event);
        }
        return false;
      }
      var row := jobs[id].(status := Leased, leaseOwner := Some(consumer), leasedAt := Some(now),
                           attemptCount := jobs[id].attemptCount + 1);
      OneRowStep(Contents(), event, id, row);
      jobs := jobs[id := row];
      return true;
    }

    method CompleteJob(id: Id, result: Result, now: int)
      modifies this
      ensures Contents() == Step(old(Contents()), Event.Complete(id, result, now))
    {
      ghost var event := Event.Complete(id, result, now);
      if id !in jobs {
        IdleStep(Contents(), event);
        return;
      }
      var job := jobs[id];
      job := job.(status := if result == RetryResult then Pending else ResultStatus(result));
      if result == RetryResult {
        job := job.(availableAt := now + RETRY_DELAY);
      }
      job := job.(leaseOwner := None, leasedAt := None);
      OneRowStep(Contents(), event, id, job);
      attempts := attempts + [Attempt(id, jobs[id].attemptCount, result)];
      jobs := jobs[id := job];
    }

    /** Returns every job whose lease has expired; `rows` is the query's list of them, in whatever order. */
    method ReleaseExpiredLeases(rows: seq<Id>, now: int, timeout: int) returns (released: nat)
      requires Distinct(rows)
      requires forall id :: id in rows <==> id in jobs && LeaseExpired(jobs[id], now, timeout)
      modifies this
      ensures Contents() == Step(old(Contents()), Event.ReleaseExpired(now, timeout))
      ensures released == |rows|
    {
      for k := 0 to |rows|
        invariant attempts == old(attempts) && jobs.Keys == old(jobs).Keys
        invariant forall id :: id in jobs ==>
          jobs[id] == if id in rows[..k] then Returned(old(jobs)[id]) else old(jobs)[id]
      {
        var id := rows[k];
        assert id in rows && id in old(jobs);
        assert rows[..k + 1] == rows[..k] + [id];
        jobs := jobs[id := jobs[id].(status := Pending, leaseOwner := None, leasedAt := None)];
      }
      assert rows[..|rows|] == rows;
      ReleasedRows(old(Contents()), now, timeout, jobs);
      return |rows|;
    }

    method UpdateNotification(id: Id, action: AdminAction, confirmUnknown: bool, now: int)
      returns (outcome: AdminOutcome)
      modifies this
      ensures Contents() == Step(old(Contents()), match action
                                                  case RetryAction => Event.AdminRetry(id, confirmUnknown, now)
                                                  case CancelAction => Event.AdminCancel(id))
      ensures outcome == NotFound <==> id !in old(jobs)
      ensures outcome == Done <==> id in old(jobs) && (if action == RetryAction
                                                       then Retryable(old(jobs)[id], confirmUnknown)
                                                       else Cancellable(old(jobs)[id]))
    {
      ghost var event := match action
                         case RetryAction => Event.AdminRetry(id, confirmUnknown, now)
                         case CancelAction => Event.AdminCancel(id);
      if id !in jobs {
        IdleStep(Contents(), event);
        return NotFound;
      }
      var row := jobs[id];
      if action == RetryAction {
        if (row.status == Unknown && !confirmUnknown) || row.status !in {Failed, Unknown, Retry} {
          IdleStep(Contents(), event);
          return Rejected;
        }
        row := row.(status := Pending, availableAt := now, leaseOwner := None, leasedAt := None);
      } else {
        if row.status !in {Pending, Retry, Failed, Unknown} {
          IdleStep(Contents(), event);
          return Rejected;
        }
        row := row.(status := Cancelled);
      }
      OneRowStep(Contents(), event, id, row);
      jobs := jobs[id := row];
      return Done;
    }

    /** Adds a late subscriber to the group's next airing job, if there is one that is not due yet. */
    method AddAiringAudience(pick: Option<Id>, group: Id, animeId: Id, user: Id, now: int) returns (added: bool)
      requires NextAiring(jobs, pick, group, animeId, now)
      modifies this
      ensures added ==> pick.Some? && Contents() == Step(old(Contents()), Event.AddAudience(pick.value, user, now))
      ensures !added ==> Contents() == old(Contents())
      ensures added <==> pick.Some? && user !in old(jobs)[pick.value].payload.audience
    {
      if pick == None {
        return false;
      }
      var job := jobs[pick.value];
      if user in job.payload.audience {
        return false;
      }
      OneRowStep(Contents(), Event.AddAudience(pick.value, user, now), pick.value, WithUser(job, user));
      jobs := jobs[pick.value := job.(payload := job.payload.(audience := job.payload.audience + {user}))];
      return true;
    }

    /** Any step, whoever takes it. */
    method Act(event: Event)
      modifies this
      ensures Contents() == Step(old(Contents()), event)
    {
      if event.Enqueue? && event.id in jobs {
        IdleStep(Contents(), event);
      } else if event.Enqueue? {
        var _ := Enqueue(event.id, event.group, event.kind, event.key, event.payload, event.availableAt,
                         event.expiresAt, event.createdAt);
      } else {
        hide StepRow;
        var rows := map id | id in jobs :: StepRow(id, jobs[id], event);
        jobs, attempts := rows, attempts + NewAttempts(Contents(), event);
      }
    }
  }
}
