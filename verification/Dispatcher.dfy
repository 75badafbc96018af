/** The single sequential consumer of the notification outbox.

    The dispatcher's steps are separated by database transactions, and enqueues and administrator actions may
    happen between any two of them. `SystemStep` gives one such step; the theorems are about every interleaving.
    Class `OutboxDispatcher` carries out a tick with all its early returns and exception paths, and every tick is a
    run of the same steps. */
module Dispatcher {
  import opened Options
  import opened Durations
  import opened Identifiers
  import opened Sequences
  import opened Outbox
  import SH = SendHistory
  import SG = SendGovernors
  import SL = SendLimits

  // ---------------------------------------------------------------- protocol

  /** What the dispatcher is in the middle of: nothing, a leased job, or the bookkeeping after a completed one. */
  datatype Phase = Idle | Holding(id: Id) | Settled(id: Id, result: Result)

  datatype System = System(table: Table, phase: Phase)

  datatype Action =
    | Others(event: Event)
    | Expire(now: int)
    | Take(id: Id, owner: Id, now: int)
    | Finish(result: Result, now: int)
    | BooksKept
    | Raised(now: int)
    | Lost

  predicate ByOthers(event: Event) {
    event.Enqueue? || event.AdminRetry? || event.AdminCancel? || event.AddAudience?
  }

  ghost function SystemStep(s: System, action: Action): System {
    match action
    case Others(event) => if ByOthers(event) then s.(table := Step(s.table, event)) else s
    case Expire(now) => if s.phase == Idle then s.(table := Step(s.table, ReleaseExpired(now, LEASE_TIMEOUT))) else s
    case Take(id, owner, now) =>
      if s.phase == Idle && id in s.table.jobs && Claimable(s.table.jobs[id], now)
      then System(Step(s.table, Claim({id}, owner, now)), Holding(id)) else s
    case Finish(result, now) =>
      if s.phase.Holding?
      then System(Step(s.table, Complete(s.phase.id, result, now)), Settled(s.phase.id, result)) else s
    case BooksKept => if s.phase.Settled? then s.(phase := Idle) else s
    // The catch-all around a delivery completes the job once more, whatever had already happened to it.
    case Raised(now) =>
      if s.phase == Idle then s else System(Step(s.table, Complete(s.phase.id, RetryResult, now)), Idle)
    // The process died, or the catch-all's own transaction failed.
    case Lost => s.(phase := Idle)
  }

  ghost function Reach(actions: seq<Action>): System {
    if actions == [] then System(EMPTY_TABLE, Idle)
    else SystemStep(Reach(actions[..|actions| - 1]), actions[|actions| - 1])
  }

  /** Between deliveries the dispatcher returns exactly the leases older than ten minutes. */
  lemma {:induction false} LeasesOfTenMinutes(s: System, now: int, id: Id)
    requires s.phase == Idle && id in s.table.jobs && RowOk(s.table.jobs[id])
    ensures var before, after := s.table.jobs[id], SystemStep(s, Expire(now)).table.jobs;
            && id in after
            && (after[id] != before <==> before.status == Leased && now - before.leasedAt.value > 600 * SECOND)
            && (after[id] != before ==> after[id].status == Pending)
  {
    hide Step;
    ReturnedIff(s.table, id, now, LEASE_TIMEOUT);
  }

  // ---------------------------------------------------------------- invariants

  ghost predicate RowsOk(table: Table) {
    forall id :: id in table.jobs ==> RowOk(table.jobs[id])
  }

  ghost predicate NumbersBounded(table: Table) {
    forall i :: 0 <= i < |table.attempts| ==>
      var a := table.attempts[i];
      a.job in table.jobs && a.attemptNo <= table.jobs[a.job].attemptCount
  }

  /** The rows of one job carry strictly increasing attempt numbers. As a row's number is that of the latest lease,
      no lease has two rows. */
  ghost predicate NumbersIncrease(attempts: seq<Attempt>) {
    forall i, j :: 0 <= i < j < |attempts| && attempts[i].job == attempts[j].job ==>
      attempts[i].attemptNo < attempts[j].attemptNo
  }

  /** A held job is leased and has no row for this lease yet; a settled one has its row and, if sent, its status. */
  ghost predicate PhaseOk(s: System) {
    match s.phase
    case Idle => true
    case Holding(id) =>
      && id in s.table.jobs && s.table.jobs[id].status == Leased
      && forall i :: 0 <= i < |s.table.attempts| && s.table.attempts[i].job == id ==>
           s.table.attempts[i].attemptNo < s.table.jobs[id].attemptCount
    case Settled(id, result) =>
      && id in s.table.jobs
      && (result == SentResult ==> s.table.jobs[id].status == Sent)
      && exists i :: 0 <= i < |s.table.attempts| && s.table.attempts[i].job == id
                     && s.table.attempts[i].attemptNo == s.table.jobs[id].attemptCount
  }

  lemma {:induction false} OthersLeaveWorkAlone(id: Id, job: Job, event: Event)
    requires ByOthers(event)
    ensures StepRow(id, job, event).attemptCount == job.attemptCount
    ensures job.status in {Leased, Sent} ==> StepRow(id, job, event).status == job.status
  {
  }

  lemma {:induction false} AttemptsOfOthers(table: Table, event: Event)
    requires !event.Complete?
    ensures Step(table, event).attempts == table.attempts
  {
  }

  lemma {:induction false} CountsNeverFall(id: Id, job: Job, event: Event)
    ensures StepRow(id, job, event).attemptCount >= job.attemptCount
  {
  }

  lemma {:induction false} StepKeepsNumbersBounded(table: Table, event: Event)
    requires NumbersBounded(table)
    ensures NumbersBounded(Step(table, event))
  {
    hide StepRow;
    var after := Step(table, event);
    forall i | 0 <= i < |after.attempts|
      ensures var a := after.attempts[i]; a.job in after.jobs && a.attemptNo <= after.jobs[a.job].attemptCount
    {
      var id := after.attempts[i].job;
      assert id in table.jobs;
      StepAt(table, event, id);
      CountsNeverFall(id, table.jobs[id], event);
    }
  }

  lemma {:induction false} OthersKeepPhase(s: System, event: Event)
    requires PhaseOk(s) && ByOthers(event)
    ensures PhaseOk(s.(table := Step(s.table, event)))
  {
    hide Step, StepRow;
    AttemptsOfOthers(s.table, event);
    if s.phase != Idle {
      StepAt(s.table, event, s.phase.id);
      OthersLeaveWorkAlone(s.phase.id, s.table.jobs[s.phase.id], event);
    }
  }

  lemma {:induction false} TakeStartsHolding(table: Table, id: Id, owner: Id, now: int)
    requires NumbersBounded(table) && id in table.jobs && Claimable(table.jobs[id], now)
    ensures PhaseOk(System(Step(table, Claim({id}, owner, now)), Holding(id)))
  {
    StepAt(table, Claim({id}, owner, now), id);
  }

  lemma {:induction false} FinishSettles(table: Table, id: Id, result: Result, now: int)
    requires id in table.jobs
    ensures PhaseOk(System(Step(table, Complete(id, result, now)), Settled(id, result)))
    ensures Step(table, Complete(id, result, now)).attempts
         == table.attempts + [Attempt(id, table.jobs[id].attemptCount, result)]
  {
    var event := Complete(id, result, now);
    StepAt(table, event, id);
    var after := Step(table, event);
    assert after.attempts[|table.attempts|] == Attempt(id, table.jobs[id].attemptCount, result);
  }

  lemma {:induction false} ReachableSystems(actions: seq<Action>)
    ensures RowsOk(Reach(actions).table) && NumbersBounded(Reach(actions).table) && PhaseOk(Reach(actions))
  {
    hide Step, RowsOk, NumbersBounded, PhaseOk;
    if actions == [] {
      NothingReached();
    } else {
      var k := |actions| - 1;
      ReachableSystems(actions[..k]);
      StepKeepsSystem(Reach(actions[..k]), actions[k]);
    }
  }

  lemma {:induction false} NothingReached()
    ensures RowsOk(EMPTY_TABLE) && NumbersBounded(EMPTY_TABLE) && PhaseOk(System(EMPTY_TABLE, Idle))
  {
  }

  lemma {:induction false} IdleIsOk(table: Table)
    ensures PhaseOk(System(table, Idle))
  {
  }

  lemma {:induction false} TableKeepsUp(table: Table, event: Event)
    requires RowsOk(table) && NumbersBounded(table)
    ensures RowsOk(Step(table, event)) && NumbersBounded(Step(table, event))
  {
    hide Step, NumbersBounded;
    StepKeepsRows(table, event);
    StepKeepsNumbersBounded(table, event);
  }

  lemma {:induction false} PhaseHasRow(s: System)
    requires PhaseOk(s) && s.phase != Idle
    ensures s.phase.id in s.table.jobs
  {
  }

  lemma {:induction false} StepKeepsSystem(s: System, action: Action)
    requires RowsOk(s.table) && NumbersBounded(s.table) && PhaseOk(s)
    ensures var t := SystemStep(s, action); RowsOk(t.table) && NumbersBounded(t.table) && PhaseOk(t)
  {
    hide Step, RowsOk, NumbersBounded, PhaseOk;
    IdleIsOk(s.table);
    IdleIsOk(SystemStep(s, action).table);
    match action {
      case Others(event) =>
        if ByOthers(event) {
          TableKeepsUp(s.table, event);
          OthersKeepPhase(s, event);
        }
      case Expire(now) =>
        TableKeepsUp(s.table, ReleaseExpired(now, LEASE_TIMEOUT));
      case Take(id, owner, now) =>
        TableKeepsUp(s.table, Claim({id}, owner, now));
        if s.phase == Idle && id in s.table.jobs && Claimable(s.table.jobs[id], now) {
          TakeStartsHolding(s.table, id, owner, now);
        }
      case Finish(result, now) =>
        if s.phase.Holding? {
          PhaseHasRow(s);
          TableKeepsUp(s.table, Complete(s.phase.id, result, now));
          FinishSettles(s.table, s.phase.id, result, now);
        }
      case Raised(now) =>
        if s.phase != Idle {
          TableKeepsUp(s.table, Complete(s.phase.id, RetryResult, now));
        }
      case BooksKept =>
      case Lost =>
    }
  }

  // ---------------------------------------------------------------- one row per lease

  /** A bookkeeping call after the completion raised, and the catch-all completed the job again. */
  ghost predicate RaisedAfterCompletion(actions: seq<Action>, i: int) {
    0 <= i < |actions| && actions[i].Raised? && Reach(actions[..i]).phase.Settled?
  }

  lemma {:induction false} AttemptsOnlyGrow(s: System, action: Action)
    ensures s.table.attempts <= SystemStep(s, action).table.attempts
  {
  }

  lemma {:induction false} RepeatStaysRepeat(shorter: seq<Attempt>, longer: seq<Attempt>)
    requires shorter <= longer && !NumbersIncrease(shorter)
    ensures !NumbersIncrease(longer)
  {
    var i, j :| 0 <= i < j < |shorter| && shorter[i].job == shorter[j].job
                && shorter[i].attemptNo >= shorter[j].attemptNo;
    assert longer[i] == shorter[i] && longer[j] == shorter[j];
  }

  lemma {:induction false} StepNumbers(s: System, action: Action)
    requires PhaseOk(s) && NumbersIncrease(s.table.attempts)
    ensures NumbersIncrease(SystemStep(s, action).table.attempts) <==> !(action.Raised? && s.phase.Settled?)
  {
    hide Step;
    var before := s.table.attempts;
    var after := SystemStep(s, action).table.attempts;
    match action {
      case Others(event) => if ByOthers(event) { AttemptsOfOthers(s.table, event); }
      case Expire(now) => AttemptsOfOthers(s.table, ReleaseExpired(now, LEASE_TIMEOUT));
      case Take(id, owner, now) => AttemptsOfOthers(s.table, Claim({id}, owner, now));
      case Finish(result, now) =>
        if s.phase.Holding? { FinishSettles(s.table, s.phase.id, result, now); }
      case Raised(now) =>
        if s.phase != Idle { FinishSettles(s.table, s.phase.id, RetryResult, now); }
        if s.phase.Settled? {
          var i :| 0 <= i < |before| && before[i].job == s.phase.id
                   && before[i].attemptNo == s.table.jobs[s.phase.id].attemptCount;
          assert after[i] == before[i] && after[|before|].attemptNo == before[i].attemptNo;
        }
      case BooksKept =>
      case Lost =>
    }
  }

  /** Over every run: attempt numbers strictly increase per job, so that no lease has two attempt rows, exactly when
      no bookkeeping call raised after a completion. */
  lemma {:induction false} OneRowPerLeaseIffBooksKept(actions: seq<Action>)
    ensures NumbersIncrease(Reach(actions).table.attempts)
       <==> !exists i :: RaisedAfterCompletion(actions, i)
  {
    hide SystemStep, NumbersIncrease, PhaseOk;
    if actions == [] {
      NoRowsIncrease();
    } else {
      var k := |actions| - 1;
      var before := Reach(actions[..k]);
      OneRowPerLeaseIffBooksKept(actions[..k]);
      ReachableSystems(actions[..k]);
      forall i | 0 <= i < k
        ensures RaisedAfterCompletion(actions, i) <==> RaisedAfterCompletion(actions[..k], i)
      {
        PrefixOfPrefix(actions, i, k);
      }
      if NumbersIncrease(before.table.attempts) {
        StepNumbers(before, actions[k]);
        assert RaisedAfterCompletion(actions, k) <==> actions[k].Raised? && before.phase.Settled?;
      } else {
        AttemptsOnlyGrow(before, actions[k]);
        RepeatStaysRepeat(before.table.attempts, Reach(actions).table.attempts);
        var i :| RaisedAfterCompletion(actions[..k], i);
        assert RaisedAfterCompletion(actions, i);
      }
    }
  }

  lemma {:induction false} NoRowsIncrease()
    ensures NumbersIncrease(EMPTY_TABLE.attempts)
  {
  }

  // ---------------------------------------------------------------- sent is final

  ghost predicate IsSent(s: System, id: Id) {
    id in s.table.jobs && s.table.jobs[id].status == Sent
  }

  /** A sent job is sent at every later point of the run. */
  ghost predicate SentIsFinal(actions: seq<Action>) {
    forall i, j, id :: 0 <= i <= j <= |actions| && IsSent(Reach(actions[..i]), id) ==> IsSent(Reach(actions[..j]), id)
  }

  ghost predicate RaisedAfterSent(actions: seq<Action>, i: int) {
    && 0 <= i < |actions| && actions[i].Raised?
    && Reach(actions[..i]).phase.Settled? && Reach(actions[..i]).phase.result == SentResult
  }

  lemma {:induction false} SentRow(id: Id, job: Job, event: Event)
    requires job.status == Sent
    ensures StepRow(id, job, event).status == Sent <==>
            !(event.Complete? && event.id == id && event.result != SentResult)
  {
  }

  lemma {:induction false} SentSurvives(s: System, action: Action, id: Id)
    requires PhaseOk(s) && IsSent(s, id)
    requires !(action.Raised? && s.phase.Settled? && s.phase.result == SentResult)
    requires s.phase.Settled? && s.phase.result != SentResult ==> s.phase.id != id
    ensures IsSent(SystemStep(s, action), id)
  {
    hide Step, StepRow;
    var job := s.table.jobs[id];
    match action {
      case Others(event) => StepAt(s.table, event, id); SentRow(id, job, event);
      case Expire(now) =>
        StepAt(s.table, ReleaseExpired(now, LEASE_TIMEOUT), id); SentRow(id, job, ReleaseExpired(now, LEASE_TIMEOUT));
      case Take(other, owner, now) =>
        StepAt(s.table, Claim({other}, owner, now), id); SentRow(id, job, Claim({other}, owner, now));
      case Finish(result, now) =>
        if s.phase.Holding? {
          var event := Complete(s.phase.id, result, now);
          StepAt(s.table, event, id); SentRow(id, job, event);
        }
      case Raised(now) =>
        if s.phase != Idle {
          var event := Complete(s.phase.id, RetryResult, now);
          StepAt(s.table, event, id); SentRow(id, job, event);
        }
      case BooksKept =>
      case Lost =>
    }
  }

  /** While the bookkeeping of a job that was not sent runs, that job is not sent. */
  lemma {:induction false} UnsentStaysUnsent(actions: seq<Action>)
    ensures var s := Reach(actions);
            s.phase.Settled? && s.phase.result != SentResult ==> !IsSent(s, s.phase.id)
  {
    if actions != [] {
      var k := |actions| - 1;
      UnsentStaysUnsent(actions[..k]);
      ReachableSystems(actions[..k]);
      UnsentStep(Reach(actions[..k]), actions[k]);
    }
  }

  lemma {:induction false} UnsentRow(id: Id, job: Job, event: Event)
    requires ByOthers(event) && job.status != Sent
    ensures StepRow(id, job, event).status != Sent
  {
  }

  lemma {:induction false} UnsentStep(s: System, action: Action)
    requires PhaseOk(s)
    requires s.phase.Settled? && s.phase.result != SentResult ==> !IsSent(s, s.phase.id)
    ensures var t := SystemStep(s, action);
            t.phase.Settled? && t.phase.result != SentResult ==> !IsSent(t, t.phase.id)
  {
    hide Step;
    if action.Others? && ByOthers(action.event) && s.phase.Settled? && s.phase.result != SentResult {
      StepAt(s.table, action.event, s.phase.id);
      UnsentRow(s.phase.id, s.table.jobs[s.phase.id], action.event);
    }
    if action.Finish? && s.phase.Holding? {
      StepAt(s.table, Complete(s.phase.id, action.result, action.now), s.phase.id);
    }
  }

  lemma {:induction false} SentIsUndone(s: System, now: int)
    requires s.phase.Settled? && s.phase.result == SentResult && s.phase.id in s.table.jobs
    ensures var after := SystemStep(s, Raised(now)); var id := s.phase.id;
            && id in after.table.jobs && after.table.jobs[id].status == Pending
            && after.table.jobs[id].availableAt == now + RETRY_DELAY
  {
    StepAt(s.table, Complete(s.phase.id, RetryResult, now), s.phase.id);
  }

  /** Over every run: a step takes a job out of sent exactly when it is the catch-all's, after that very job was
      completed as sent. */
  lemma {:induction false} StepKeepsSent(actions: seq<Action>, k: nat, id: Id)
    requires k < |actions| && IsSent(Reach(actions[..k]), id)
    ensures IsSent(Reach(actions[..k + 1]), id) <==>
            !(RaisedAfterSent(actions, k) && Reach(actions[..k]).phase.id == id)
  {
    hide SystemStep, PhaseOk;
    var s := Reach(actions[..k]);
    PrefixOfPrefix(actions, k, k + 1);
    ReachableSystems(actions[..k]);
    UnsentStaysUnsent(actions[..k]);
    if RaisedAfterSent(actions, k) {
      PhaseHasRow(s);
      SentIsUndone(s, actions[k].now);
      if s.phase.id != id {
        OthersStaySent(s, actions[k].now, id);
      }
    } else {
      SentSurvives(s, actions[k], id);
    }
  }

  lemma {:induction false} OthersStaySent(s: System, now: int, id: Id)
    requires s.phase.Settled? && IsSent(s, id) && s.phase.id != id
    ensures IsSent(SystemStep(s, Raised(now)), id)
  {
    StepAt(s.table, Complete(s.phase.id, RetryResult, now), id);
  }

  lemma {:induction false} SentLasts(actions: seq<Action>, i: nat, j: nat, id: Id)
    requires i <= j <= |actions| && IsSent(Reach(actions[..i]), id)
    requires !exists m :: RaisedAfterSent(actions, m)
    ensures IsSent(Reach(actions[..j]), id)
  {
    hide Reach, IsSent;
    if i < j {
      SentLasts(actions, i, j - 1, id);
      assert !RaisedAfterSent(actions, j - 1);
      StepKeepsSent(actions, j - 1, id);
    }
  }

  /** Over every run: a sent job stays sent exactly when no bookkeeping call raised after a sent completion. */
  lemma {:induction false} SentIsFinalIffBooksKept(actions: seq<Action>)
    ensures SentIsFinal(actions) <==> !exists i :: RaisedAfterSent(actions, i)
  {
    hide SystemStep, IsSent, PhaseOk;
    if i :| RaisedAfterSent(actions, i) {
      ResentAfterSent(actions, i);
    } else {
      forall i, j, id | 0 <= i <= j <= |actions| && IsSent(Reach(actions[..i]), id)
        ensures IsSent(Reach(actions[..j]), id)
      {
        SentLasts(actions, i, j, id);
      }
    }
  }

  /** If a call raises after a sent completion, the job just sent is pending again and due after the retry delay. */
  lemma {:induction false} ResentAfterSent(actions: seq<Action>, i: int)
    requires RaisedAfterSent(actions, i)
    ensures var s, t := Reach(actions[..i]), Reach(actions[..i + 1]);
            && IsSent(s, s.phase.id)
            && s.phase.id in t.table.jobs && t.table.jobs[s.phase.id].status == Pending
            && t.table.jobs[s.phase.id].availableAt == actions[i].now + RETRY_DELAY
    ensures !SentIsFinal(actions)
  {
    hide SystemStep;
    var s := Reach(actions[..i]);
    ReachableSystems(actions[..i]);
    PrefixOfPrefix(actions, i, i + 1);
    SentIsUndone(s, actions[i].now);
    assert IsSent(Reach(actions[..i]), s.phase.id) && !IsSent(Reach(actions[..i + 1]), s.phase.id);
  }

  /** Such runs exist: a job is stored, leased and sent, and then a call raises. */
  lemma {:induction false} SentCanBeUndone(group: Id, payload: Payload, owner: Id, now: int)
    ensures var actions := UndoingRun(group, payload, owner, now);
            && RaisedAfterSent(actions, 3) && RaisedAfterCompletion(actions, 3)
            && IsSent(Reach(actions[..3]), 0) && !IsSent(Reach(actions), 0)
            && !SentIsFinal(actions) && !NumbersIncrease(Reach(actions).table.attempts)
  {
    hide Step;
    var actions := UndoingRun(group, payload, owner, now);
    var stored := Step(EMPTY_TABLE, actions[0].event);
    assert stored.jobs[0] == NewJob(actions[0].event) by {
      EnqueueEffect(EMPTY_TABLE, actions[0].event);
    }
    assert actions[..1] == [actions[0]] && actions[..0] == [] && actions[..4] == actions;
    PrefixOfPrefix(actions, 0, 1);
    PrefixOfPrefix(actions, 1, 2);
    PrefixOfPrefix(actions, 2, 3);
    assert Reach(actions[..0]) == System(EMPTY_TABLE, Idle);
    assert Reach(actions[..1]) == System(stored, Idle);
    assert Reach(actions[..2]).phase == Holding(0);
    assert Reach(actions[..3]).phase == Settled(0, SentResult);
    ResentAfterSent(actions, 3);
    OneRowPerLeaseIffBooksKept(actions);
  }

  function UndoingRun(group: Id, payload: Payload, owner: Id, now: int): seq<Action> {
    [Others(Enqueue(0, group, OtherKind, PollKey(0), payload, now, now + 1, now)),
     Take(0, owner, now), Finish(SentResult, now), Raised(now)]
  }

  // ---------------------------------------------------------------- cancelled is final

  ghost predicate IsCancelled(s: System, id: Id) {
    id in s.table.jobs && s.table.jobs[id].status == Cancelled
  }

  /** A cancelled job is cancelled at every later point of the run. */
  ghost predicate CancelledIsFinal(actions: seq<Action>) {
    forall i, j, id :: 0 <= i <= j <= |actions| && IsCancelled(Reach(actions[..i]), id) ==>
      IsCancelled(Reach(actions[..j]), id)
  }

  /** A bookkeeping call raised after the completion of a job that an administrator has cancelled by now. */
  ghost predicate RaisedAfterCancel(actions: seq<Action>, i: int) {
    && 0 <= i < |actions| && actions[i].Raised?
    && Reach(actions[..i]).phase.Settled? && IsCancelled(Reach(actions[..i]), Reach(actions[..i]).phase.id)
  }

  lemma {:induction false} CancelledRow(id: Id, job: Job, event: Event)
    requires job.status == Cancelled
    ensures StepRow(id, job, event).status == Cancelled <==> !Completes(event, id)
  {
  }

  lemma {:induction false} TableKeepsCancelled(table: Table, event: Event, id: Id)
    requires id in table.jobs && table.jobs[id].status == Cancelled
    ensures id in Step(table, event).jobs
    ensures Step(table, event).jobs[id].status == Cancelled <==> !Completes(event, id)
  {
    hide Step, StepRow;
    StepAt(table, event, id);
    CancelledRow(id, table.jobs[id], event);
  }

  /** In every run, a step takes a job out of cancelled exactly when it is the catch-all's, after that very job was
      completed. */
  lemma {:induction false} StepKeepsCancelled(actions: seq<Action>, k: nat, id: Id)
    requires k < |actions| && IsCancelled(Reach(actions[..k]), id)
    ensures IsCancelled(Reach(actions[..k + 1]), id) <==>
            !(RaisedAfterCancel(actions, k) && Reach(actions[..k]).phase.id == id)
  {
    hide Step, StepRow;
    var s, action := Reach(actions[..k]), actions[k];
    PrefixOfPrefix(actions, k, k + 1);
    ReachableSystems(actions[..k]);
    match action {
      case Others(event) => TableKeepsCancelled(s.table, event, id);
      case Expire(now) => TableKeepsCancelled(s.table, ReleaseExpired(now, LEASE_TIMEOUT), id);
      case Take(other, owner, now) => TableKeepsCancelled(s.table, Claim({other}, owner, now), id);
      case Finish(result, now) =>
        if s.phase.Holding? {
          TableKeepsCancelled(s.table, Complete(s.phase.id, result, now), id);
        }
      case Raised(now) =>
        if s.phase != Idle {
          TableKeepsCancelled(s.table, Complete(s.phase.id, RetryResult, now), id);
        }
      case BooksKept =>
      case Lost =>
    }
  }

  lemma {:induction false} CancelledLasts(actions: seq<Action>, i: nat, j: nat, id: Id)
    requires i <= j <= |actions| && IsCancelled(Reach(actions[..i]), id)
    requires !exists m :: RaisedAfterCancel(actions, m)
    ensures IsCancelled(Reach(actions[..j]), id)
  {
    hide Reach, IsCancelled;
    if i < j {
      CancelledLasts(actions, i, j - 1, id);
      assert !RaisedAfterCancel(actions, j - 1);
      StepKeepsCancelled(actions, j - 1, id);
    }
  }

  /** Over every run: a cancelled job stays cancelled exactly when no bookkeeping call raised after the completion of a
      job cancelled since. */
  lemma {:induction false} CancelledIsFinalIffBooksKept(actions: seq<Action>)
    ensures CancelledIsFinal(actions) <==> !exists i :: RaisedAfterCancel(actions, i)
  {
    hide SystemStep;
    if i :| RaisedAfterCancel(actions, i) {
      var id := Reach(actions[..i]).phase.id;
      StepKeepsCancelled(actions, i, id);
      assert IsCancelled(Reach(actions[..i]), id) && !IsCancelled(Reach(actions[..i + 1]), id);
    } else {
      forall i, j, id | 0 <= i <= j <= |actions| && IsCancelled(Reach(actions[..i]), id)
        ensures IsCancelled(Reach(actions[..j]), id)
      {
        CancelledLasts(actions, i, j, id);
      }
    }
  }

  /** Such runs exist: a failed job is cancelled while its bookkeeping runs, and then a call raises. */
  lemma {:induction false} CancelCanBeUndone(group: Id, payload: Payload, owner: Id, now: int)
    ensures var actions := UncancellingRun(group, payload, owner, now);
            && RaisedAfterCancel(actions, 4) && IsCancelled(Reach(actions[..4]), 0)
            && 0 in Reach(actions).table.jobs && Reach(actions).table.jobs[0].status == Pending
            && !CancelledIsFinal(actions)
  {
    hide Step, StepRow, Reach;
    var actions := UncancellingRun(group, payload, owner, now);
    UncancellingStart(group, payload, owner, now);
    assert actions[..5] == actions;
    CancelStep(Reach(actions[..3]), 0);
    ReachGrowsAt(actions, 3);
    assert RaisedAfterCancel(actions, 4);
    ReachGrowsAt(actions, 4);
    CompleteStep(Reach(actions[..4]).table, 0, RetryResult, now);
    CancelledIsFinalIffBooksKept(actions);
  }

  lemma {:induction false} UncancellingStart(group: Id, payload: Payload, owner: Id, now: int)
    ensures var s := Reach(UncancellingRun(group, payload, owner, now)[..3]);
            s.phase == Settled(0, FailedResult) && 0 in s.table.jobs && s.table.jobs[0].status == Failed
  {
    hide Step, StepRow, Reach;
    var actions := UncancellingRun(group, payload, owner, now);
    NothingDone(actions);
    ReachGrowsAt(actions, 0);
    ReachGrowsAt(actions, 1);
    ReachGrowsAt(actions, 2);
    EnqueueEffect(EMPTY_TABLE, actions[0].event);
    var job := NewJob(actions[0].event);
    TakeStep(Reach(actions[..1]), 0, owner, now);
    CompleteStep(Reach(actions[..2]).table, 0, FailedResult, now);
  }

  lemma {:induction false} NothingDone(actions: seq<Action>)
    ensures Reach(actions[..0]) == System(EMPTY_TABLE, Idle)
  {
  }

  lemma {:induction false} ReachGrowsAt(actions: seq<Action>, k: nat)
    requires k < |actions|
    ensures Reach(actions[..k + 1]) == SystemStep(Reach(actions[..k]), actions[k])
  {
    PrefixOfPrefix(actions, k, k + 1);
  }

  lemma {:induction false} CancelStep(s: System, id: Id)
    requires id in s.table.jobs && s.table.jobs[id].status == Failed
    ensures var t := SystemStep(s, Others(AdminCancel(id)));
            t.phase == s.phase && IsCancelled(t, id)
  {
    hide Step, StepRow;
    StepAt(s.table, AdminCancel(id), id);
    FailedIsCancelled(id, s.table.jobs[id]);
  }

  lemma {:induction false} FailedIsCancelled(id: Id, job: Job)
    requires job.status == Failed
    ensures StepRow(id, job, AdminCancel(id)) == job.(status := Cancelled)
  {
  }

  function UncancellingRun(group: Id, payload: Payload, owner: Id, now: int): seq<Action> {
    [Others(Enqueue(0, group, OtherKind, PollKey(0), payload, now, now + 1, now)),
     Take(0, owner, now), Finish(FailedResult, now), Others(AdminCancel(0)), Raised(now)]
  }

  // ---------------------------------------------------------------- choosing a job

  /** Airing reminders go before releases, releases before digests, digests before everything else. */
  function Priority(kind: JobKind): int {
    match kind case Airing => 1 case Release => 2 case DailyDigest => 3 case OtherKind => 4
  }

  predicate Before(a: Job, b: Job) {
    || Priority(a.kind) < Priority(b.kind)
    || (Priority(a.kind) == Priority(b.kind) && (a.availableAt < b.availableAt ||
          (a.availableAt == b.availableAt && a.createdAt <= b.createdAt)))
  }

  /** What the queue query answers: the first `limit` claimable jobs in delivery order. */
  ghost predicate IsQueue(jobs: map<Id, Job>, now: int, limit: nat, rows: seq<Id>) {
    && |rows| <= limit && Distinct(rows)
    && (forall i :: 0 <= i < |rows| ==> rows[i] in jobs && Claimable(jobs[rows[i]], now))
    && (forall i, j :: 0 <= i < j < |rows| ==> Before(jobs[rows[i]], jobs[rows[j]]))
    && (forall id :: id in jobs && Claimable(jobs[id], now) && id !in rows ==>
          |rows| == limit && forall i :: 0 <= i < |rows| ==> Before(jobs[rows[i]], jobs[id]))
  }

  function ClassOf(kind: JobKind): SH.DeliveryClass {
    match kind
    case Release => SH.DeliveryClass.Release
    case Airing => SH.DeliveryClass.Airing
    case DailyDigest => SH.DeliveryClass.Content
    case OtherKind => SH.DeliveryClass.Content
  }

  function RequestFor(job: Job): SH.SendRequest {
    SH.SendRequest(ClassOf(job.kind), job.group, None)
  }

  /** Every job is charged as a message nobody asked for: to its group and to no member. */
  lemma {:induction false} JobsAreUnasked(job: Job)
    ensures var request := RequestFor(job);
            && request.groupId == job.group && request.userId == None
            && request.deliveryClass == (match job.kind
                                         case Airing => SH.DeliveryClass.Airing
                                         case Release => SH.DeliveryClass.Release
                                         case _ => SH.DeliveryClass.Content)
            && SL.Concerns(SH.ProactiveGroup, request) && SL.Concerns(SH.ProactiveWindow, request)
            && !SL.Concerns(SH.User, request) && !SL.Concerns(SH.UserWindow, request)
  {
  }

  /** The queue goes by kind first: reminders of an airing, releases, daily digests, all else; and among jobs of one
      kind by when they are due and then by when they were stored. */
  lemma {:induction false} QueueOrder(a: Job, b: Job)
    ensures a.kind == Airing && b.kind != Airing ==> !Before(b, a) && Before(a, b)
    ensures a.kind == Release && (b.kind == DailyDigest || b.kind == OtherKind) ==> !Before(b, a) && Before(a, b)
    ensures a.kind == DailyDigest && b.kind == OtherKind ==> !Before(b, a) && Before(a, b)
    ensures a.kind == b.kind && a.availableAt < b.availableAt ==> !Before(b, a) && Before(a, b)
    ensures a.kind == b.kind && a.availableAt == b.availableAt && a.createdAt < b.createdAt ==>
              !Before(b, a) && Before(a, b)
  {
  }

  // ---------------------------------------------------------------- delivering it

  datatype OutcomeKind = Temporary | RateLimited | Permanent | UnknownOutcome | AccountOffline

  predicate RetryableOutcome(kind: OutcomeKind) {
    kind == Temporary || kind == RateLimited
  }

  datatype SendOutcome = Delivered | Refused(kind: OutcomeKind)

  /** What the world around one delivery does: what the lookups find, how the platform answers, and which of the
      calls raise. */
  datatype Script = Script(
    originKnown: bool,
    lookupRaises: bool,
    quotaRaises: bool,
    atAllRemaining: Option<int>,
    renderRaises: bool,
    send: SendOutcome,
    circuitRaises: bool,
    completionRaises: bool,
    booksRaise: bool,
    catchAllRaises: bool,
    doneAt: int)
  {
    /** Mentioning everybody is limited by the platform. */
    predicate NeedsQuota(job: Job) {
      job.kind == DailyDigest && job.payload.atAll
    }

    predicate QuotaRefuses(job: Job) {
      NeedsQuota(job) && (atAllRemaining == None || atAllRemaining.value <= 0)
    }

    /** An exception comes before the completion is stored. */
    predicate RaisesEarly(job: Job) {
      || lookupRaises || completionRaises
      || (originKnown && NeedsQuota(job) && quotaRaises)
      || (originKnown && !QuotaRefuses(job) &&
            (renderRaises || (send in {Refused(AccountOffline), Refused(RateLimited)} && circuitRaises)))
    }

    /** The call that sends the message is made. */
    predicate SendCalled(job: Job) {
      && !lookupRaises && originKnown && !(NeedsQuota(job) && quotaRaises) && !QuotaRefuses(job)
      && !renderRaises
    }

    /** The call that sends the message returned. A message that got through although the call failed is not meant. */
    predicate MessageSent(job: Job) {
      SendCalled(job) && send == Delivered
    }

    /** The publication records are updated after the completion, unless the job is simply to be tried again. */
    predicate KeepsBooks(job: Job) {
      originKnown && Verdict(job) != RetryResult
    }

    /** The completion is stored, and an exception comes after it. */
    predicate RaisesLate(job: Job) {
      !RaisesEarly(job) && KeepsBooks(job) && booksRaise
    }

    /** What the delivery does to the table before it returns or raises. */
    function Deed(job: Job): seq<Action> {
      if RaisesEarly(job) then []
      else if RaisesLate(job) then [Finish(Verdict(job), doneAt)]
      else [Finish(Verdict(job), doneAt), BooksKept]
    }

    /** The job's row after the delivery and the catch-all. */
    function After(job: Job): Job {
      var stored := if RaisesEarly(job) then job else Completed(job, Verdict(job), doneAt);
      if (RaisesEarly(job) || RaisesLate(job)) && !catchAllRaises
      then Completed(stored, RetryResult, doneAt) else stored
    }

    /** What the catch-all adds. */
    function CatchAll(job: Job): seq<Action> {
      if !RaisesEarly(job) && !RaisesLate(job) then []
      else if catchAllRaises then [Lost]
      else [Raised(doneAt)]
    }

    /** The result a completed delivery is recorded with. */
    function Verdict(job: Job): Result {
      if !originKnown then RetryResult
      else if QuotaRefuses(job) then FailedResult
      else if send == Delivered then SentResult
      else if RetryableOutcome(send.kind) then RetryResult
      else if send.kind == UnknownOutcome then UnknownResult
      else FailedResult
    }
  }

  lemma {:induction false} ExpireStep(s: System, now: int)
    requires s.phase == Idle
    ensures SystemStep(s, Expire(now)) == System(Step(s.table, ReleaseExpired(now, LEASE_TIMEOUT)), Idle)
    ensures Step(s.table, ReleaseExpired(now, LEASE_TIMEOUT)).attempts == s.table.attempts
  {
  }

  lemma {:induction false} TakeStep(s: System, id: Id, owner: Id, now: int)
    requires s.phase == Idle && id in s.table.jobs && Claimable(s.table.jobs[id], now)
    ensures SystemStep(s, Take(id, owner, now)) == System(Step(s.table, Claim({id}, owner, now)), Holding(id))
    ensures Step(s.table, Claim({id}, owner, now)).attempts == s.table.attempts
    ensures var jobs := Step(s.table, Claim({id}, owner, now)).jobs;
            id in jobs && jobs[id] == LeasedBy(s.table.jobs[id], owner, now)
  {
    StepAt(s.table, Claim({id}, owner, now), id);
  }

  /** From position `from` on, nothing raised after a completion. */
  ghost predicate NoLateRaise(log: seq<Action>, from: nat) {
    forall i :: from <= i < |log| ==> !RaisedAfterCompletion(log, i)
  }

  /** The rows a delivery adds: one for its own completion and one for the catch-all's, where they are stored. */
  function DeliveryRows(id: Id, job: Job, script: Script): seq<Attempt> {
    (if script.RaisesEarly(job) then [] else [Attempt(id, job.attemptCount, script.Verdict(job))])
    + (if (script.RaisesEarly(job) || script.RaisesLate(job)) && !script.catchAllRaises
       then [Attempt(id, job.attemptCount, RetryResult)] else [])
  }

  /** An attempt row says sent exactly when the message went out and the completion could be stored. */
  lemma {:induction false} SentRowIffSentAndStored(id: Id, job: Job, script: Script)
    ensures Attempt(id, job.attemptCount, SentResult) in DeliveryRows(id, job, script) <==>
            script.MessageSent(job) && !script.completionRaises
    ensures script.MessageSent(job) && script.completionRaises && !script.catchAllRaises ==>
              DeliveryRows(id, job, script) == [Attempt(id, job.attemptCount, RetryResult)]
  {
  }

  lemma {:induction false} ReachGrows(log: seq<Action>, action: Action)
    ensures Reach(log + [action]) == SystemStep(Reach(log), action)
  {
    assert (log + [action])[..|log|] == log;
  }

  lemma {:induction false} CompleteStep(table: Table, id: Id, result: Result, now: int)
    requires id in table.jobs
    ensures Step(table, Complete(id, result, now))
         == Table(table.jobs[id := Completed(table.jobs[id], result, now)],
                  table.attempts + [Attempt(id, table.jobs[id].attemptCount, result)])
  {
    OneRowStep(table, Complete(id, result, now), id, Completed(table.jobs[id], result, now));
  }

  /** What a delivery makes of the table, for every history and whatever raises. */
  lemma {:induction false} TableAfterDelivery(log: seq<Action>, id: Id, script: Script)
    requires Reach(log).phase == Holding(id) && id in Reach(log).table.jobs
    ensures var table := Reach(log).table; var job := table.jobs[id];
            Reach(log + (script.Deed(job) + script.CatchAll(job)))
            == System(Table(table.jobs[id := script.After(job)], table.attempts + DeliveryRows(id, job, script)), Idle)
  {
    hide Reach, Step, Completed, Script.RaisesEarly, Script.RaisesLate, Script.Verdict;
    var table := Reach(log).table;
    var job := table.jobs[id];
    var result, at := script.Verdict(job), script.doneAt;
    var row, again := Attempt(id, job.attemptCount, result), Attempt(id, job.attemptCount, RetryResult);
    CompleteStep(table, id, result, at);
    CompleteStep(table, id, RetryResult, at);
    CompletionKeepsCount(job, result, at);
    assert log + [] == log && table.jobs[id := job] == table.jobs && table.attempts + [] == table.attempts;
    if script.RaisesEarly(job) {
      ReachGrows(log, Raised(at));
      ReachGrows(log, Lost);
      assert [] + [Raised(at)] == [Raised(at)] && [] + [Lost] == [Lost];
      assert script.Deed(job) == [] && script.CatchAll(job) == [if script.catchAllRaises then Lost else Raised(at)];
      assert DeliveryRows(id, job, script) == if script.catchAllRaises then [] else [again];
    } else {
      var stored := Table(table.jobs[id := Completed(job, result, at)], table.attempts + [row]);
      ReachGrows(log, Finish(result, at));
      var done := log + [Finish(result, at)];
      assert Reach(done) == System(stored, Settled(id, result));
      ReachGrows(done, BooksKept);
      ReachGrows(done, Raised(at));
      ReachGrows(done, Lost);
      CompleteStep(stored, id, RetryResult, at);
      assert forall action :: done + [action] == log + [Finish(result, at), action];
      var last := Completed(stored.jobs[id], RetryResult, at);
      assert stored.jobs[id := last] == table.jobs[id := last];
      assert stored.attempts + [again] == table.attempts + [row, again];
      assert [Finish(result, at)] + [Raised(at)] == [Finish(result, at), Raised(at)];
      assert [Finish(result, at)] + [Lost] == [Finish(result, at), Lost];
      assert [Finish(result, at), BooksKept] + [] == [Finish(result, at), BooksKept];
      assert [row] + [again] == [row, again] && [row] + [] == [row];
    }
  }

  lemma {:induction false} CompletionKeepsCount(job: Job, result: Result, now: int)
    ensures Completed(job, result, now).attemptCount == job.attemptCount
  {
  }

  /** What becomes of a job whose message went out, after every history: it is sent exactly if its completion was
      stored and the catch-all did not take that back, still leased exactly if neither its own completion nor the
      catch-all's could be stored, and otherwise pending, to be sent again after the retry delay. */
  lemma {:induction false} SentMessageIsRepeatedIff(log: seq<Action>, id: Id, script: Script)
    requires Reach(log).phase == Holding(id) && id in Reach(log).table.jobs
    requires script.MessageSent(Reach(log).table.jobs[id])
    ensures var job := Reach(log).table.jobs[id];
            var jobs := Reach(log + (script.Deed(job) + script.CatchAll(job))).table.jobs;
            && id in jobs
            && jobs[id].status == StatusAfterSending(script)
            && (jobs[id].status == Pending ==> jobs[id].availableAt == script.doneAt + RETRY_DELAY)
            && jobs[id].expiresAt == job.expiresAt && jobs[id].attemptCount == job.attemptCount
  {
    hide Reach;
    ReachableIsLeased(log);
    TableAfterDelivery(log, id, script);
  }

  lemma {:induction false} ReachableIsLeased(log: seq<Action>)
    ensures Reach(log).phase.Holding? ==>
              && Reach(log).phase.id in Reach(log).table.jobs
              && Reach(log).table.jobs[Reach(log).phase.id].status == Leased
  {
    ReachableSystems(log);
  }

  function StatusAfterSending(script: Script): Status {
    if !script.completionRaises && !(script.booksRaise && !script.catchAllRaises) then Sent
    else if script.completionRaises && script.catchAllRaises then Leased
    else Pending
  }

  /** The status a completed delivery comes to rest in, if its own completion asks for `wanted`: whatever cannot be
      stored, or is followed by an exception that the catch-all stores, is pending again or still leased. */
  predicate ComesTo(script: Script, job: Job, wanted: Status) {
    job.status == if script.completionRaises then Fallen(script)
                  else if script.booksRaise && wanted != Pending && !script.catchAllRaises then Pending
                  else wanted
  }

  /** The status after an exception before anything was stored. */
  function Fallen(script: Script): Status {
    if script.catchAllRaises then Leased else Pending
  }

  /** Whether the daily digest that mentions everybody is within the platform's quota. */
  predicate WithinQuota(script: Script, job: Job) {
    job.kind == DailyDigest && job.payload.atAll ==> script.atAllRemaining.Some? && script.atAllRemaining.value > 0
  }

  /** What is left of a job after its delivery, case by case. Without an origin, and after a temporary failure or a rate
      limit, it is to be tried again; without quota, and after a permanent failure or with the account offline, it has
      failed; after an unclear failure it is unknown; and otherwise sent. Whenever it is pending it is due after half a
      minute. */
  predicate IsDelivered(script: Script, job: Job, after: Job) {
    var asksQuota := job.kind == DailyDigest && job.payload.atAll;
    && (after.status == Pending ==> after.availableAt == script.doneAt + 30 * SECOND)
    && (after.status != Pending ==> after.availableAt == job.availableAt)
    && after.attemptCount == job.attemptCount && after.payload == job.payload && after.expiresAt == job.expiresAt
    && (if script.lookupRaises then after.status == Fallen(script)
        else if !script.originKnown then ComesTo(script, after, Pending)
        else if asksQuota && script.quotaRaises then after.status == Fallen(script)
        else if !WithinQuota(script, job) then ComesTo(script, after, Failed)
        else if script.renderRaises then after.status == Fallen(script)
        else match script.send
          case Delivered => ComesTo(script, after, Sent)
          case Refused(kind) =>
            match kind
            case Temporary => ComesTo(script, after, Pending)
            case RateLimited => if script.circuitRaises then after.status == Fallen(script)
                                else ComesTo(script, after, Pending)
            case AccountOffline => if script.circuitRaises then after.status == Fallen(script)
                                   else ComesTo(script, after, Failed)
            case Permanent => ComesTo(script, after, Failed)
            case UnknownOutcome => ComesTo(script, after, Unknown))
  }

  lemma {:induction false} AfterIsDelivered(job: Job, script: Script)
    requires job.status == Leased
    ensures IsDelivered(script, job, script.After(job))
  {
  }

  /** After every history, a delivered job is left as it should be, whatever the platform answers and whatever raises.
      */
  lemma {:induction false} DeliveredJobIsRight(log: seq<Action>, id: Id, script: Script)
    requires Reach(log).phase == Holding(id) && id in Reach(log).table.jobs
    ensures var job := Reach(log).table.jobs[id];
            var jobs := Reach(log + (script.Deed(job) + script.CatchAll(job))).table.jobs;
            id in jobs && IsDelivered(script, job, jobs[id])
  {
    hide Reach, Script.Deed, Script.CatchAll, Script.After, IsDelivered;
    ReachableIsLeased(log);
    TableAfterDelivery(log, id, script);
    AfterIsDelivered(Reach(log).table.jobs[id], script);
  }

  /** A call that times out is a temporary failure, whether or not the message got through: after every history the
      job is pending, to be sent again, unless neither completion could be stored. */
  lemma {:induction false} TimeoutIsRetried(log: seq<Action>, id: Id, script: Script)
    requires Reach(log).phase == Holding(id) && id in Reach(log).table.jobs
    requires script.SendCalled(Reach(log).table.jobs[id]) && script.send == Refused(Temporary)
    ensures var job := Reach(log).table.jobs[id];
            var jobs := Reach(log + (script.Deed(job) + script.CatchAll(job))).table.jobs;
            && id in jobs
            && jobs[id].status == (if script.completionRaises && script.catchAllRaises then Leased else Pending)
            && (jobs[id].status == Pending ==> jobs[id].availableAt == script.doneAt + RETRY_DELAY)
  {
    hide Reach;
    ReachableIsLeased(log);
    TableAfterDelivery(log, id, script);
  }

  /** Such deliveries exist: the message goes out, its completion cannot be stored, and half a minute later the job is
      leased to be delivered once more. */
  lemma {:induction false} MessageCanGoOutTwice(group: Id, payload: Payload, owner: Id, now: int)
    ensures var first, script := FirstTwo(group, payload, owner, now), CompletionLost(now);
            && Reach(first).phase == Holding(0) && 0 in Reach(first).table.jobs
            && var job := Reach(first).table.jobs[0];
               && script.MessageSent(job)
               && Reach(first + (script.Deed(job) + script.CatchAll(job)) + [Take(0, owner, now + RETRY_DELAY)]).phase
                  == Holding(0)
  {
    hide Step;
    var first, script := FirstTwo(group, payload, owner, now), CompletionLost(now);
    var stored := Step(EMPTY_TABLE, first[0].event);
    EnqueueEffect(EMPTY_TABLE, first[0].event);
    assert first[..1] == [first[0]] && first[..0] == [] && first[..2] == first;
    PrefixOfPrefix(first, 0, 1);
    assert Reach(first[..1]) == System(stored, Idle);
    TakeStep(Reach(first[..1]), 0, owner, now);
    var job := Reach(first).table.jobs[0];
    var all := first + (script.Deed(job) + script.CatchAll(job));
    SentMessageIsRepeatedIff(first, 0, script);
    TableAfterDelivery(first, 0, script);
    ReachGrows(all, Take(0, owner, now + RETRY_DELAY));
  }

  function FirstTwo(group: Id, payload: Payload, owner: Id, now: int): seq<Action> {
    [Others(Enqueue(0, group, OtherKind, PollKey(0), payload, now, now + RETRY_DELAY + 1, now)), Take(0, owner, now)]
  }

  function CompletionLost(now: int): Script {
    Script(true, false, false, None, false, Delivered, false, true, false, false, now)
  }

  /** Even a job left leased is sent again: once the lease is older than the timeout, an expiry makes it pending. */
  lemma {:induction false} LostLeaseIsReturned(table: Table, id: Id, now: int, timeout: int)
    requires id in table.jobs && table.jobs[id].status == Leased && RowOk(table.jobs[id])
    ensures var jobs := Step(table, ReleaseExpired(now, timeout)).jobs;
            id in jobs && (jobs[id].status == Pending <==> table.jobs[id].leasedAt.value < now - timeout)
  {
    StepAt(table, ReleaseExpired(now, timeout), id);
  }

  /** A delivery raises late exactly when its bookkeeping raises and the catch-all then completes the job again. */
  lemma {:induction false} DeliveryRaisesLateIff(log: seq<Action>, id: Id, job: Job, script: Script)
    requires Reach(log).phase == Holding(id)
    ensures NoLateRaise(log + (script.Deed(job) + script.CatchAll(job)), |log|)
       <==> !(script.RaisesLate(job) && !script.catchAllRaises)
  {
    hide Reach, Script.RaisesEarly, Script.KeepsBooks, Script.Verdict;
    var done, all := log + script.Deed(job), log + (script.Deed(job) + script.CatchAll(job));
    var finish := Finish(script.Verdict(job), script.doneAt);
    ReachGrows(log, finish);
    assert all[..|done|] == done && all[..|log|] == log;
    assert script.RaisesEarly(job) ==> done == log;
    if script.RaisesLate(job) && !script.catchAllRaises {
      assert RaisedAfterCompletion(all, |done|);
    } else {
      forall i | |log| <= i < |all|
        ensures !RaisedAfterCompletion(all, i)
      {
        assert all[i].Raised? ==> i == |done| && script.RaisesEarly(job);
      }
    }
  }

  lemma {:induction false} NoLateRaiseSince(log: seq<Action>, taken: seq<Action>, from: nat)
    requires from <= |taken| && taken <= log && forall i :: from <= i < |taken| ==> !taken[i].Raised?
    ensures NoLateRaise(log, from) <==> NoLateRaise(log, |taken|)
  {
    hide Reach;
  }

  lemma {:induction false} NothingRaisesLate(log: seq<Action>)
    ensures NoLateRaise(log, |log|)
  {
  }

  lemma {:induction false} DeedsRaiseNothing(events: seq<Event>)
    ensures |Deeds(events)| == |events| && forall i :: 0 <= i < |events| ==> !Deeds(events)[i].Raised?
  {
    if events != [] {
      DeedsRaiseNothing(events[..|events| - 1]);
    }
  }

  lemma {:induction false} OnlyDeliveriesRaise(before: seq<Action>, now: int, events: seq<Event>, log: seq<Action>)
    requires before + [Expire(now)] + Deeds(events) <= log
    ensures NoLateRaise(log, |before|) <==> NoLateRaise(log, |before + [Expire(now)] + Deeds(events)|)
  {
    DeedsRaiseNothing(events);
    var taken := before + [Expire(now)] + Deeds(events);
    forall i | |before| <= i < |taken|
      ensures !taken[i].Raised?
    {
      assert taken[i] == if i == |before| then Expire(now) else Deeds(events)[i - |before| - 1];
    }
    NoLateRaiseSince(log, taken, |before|);
  }

  lemma {:induction false} BooksStep(s: System)
    requires s.phase.Settled?
    ensures SystemStep(s, BooksKept) == System(s.table, Idle)
  {
  }

  lemma {:induction false} FinishStep(s: System, result: Result, now: int)
    requires s.phase.Holding?
    ensures SystemStep(s, Finish(result, now))
         == System(Step(s.table, Complete(s.phase.id, result, now)), Settled(s.phase.id, result))
  {
  }

  lemma {:induction false} LostStep(s: System)
    ensures SystemStep(s, Lost) == System(s.table, Idle)
  {
  }

  lemma {:induction false} RaisedStep(s: System, now: int)
    requires s.phase != Idle && s.phase.id in s.table.jobs
    ensures SystemStep(s, Raised(now)) == System(Step(s.table, Complete(s.phase.id, RetryResult, now)), Idle)
    ensures Step(s.table, Complete(s.phase.id, RetryResult, now)).attempts
         == s.table.attempts + [Attempt(s.phase.id, s.table.jobs[s.phase.id].attemptCount, RetryResult)]
  {
    FinishSettles(s.table, s.phase.id, RetryResult, now);
  }

  lemma {:induction false} QueuedIsClaimable(jobs: map<Id, Job>, now: int, limit: nat, rows: seq<Id>, k: nat)
    requires IsQueue(jobs, now, limit, rows) && k < |rows|
    ensures rows[k] in jobs && Claimable(jobs[rows[k]], now)
  {
  }

  lemma {:induction false} AcquireMeans(limits: SH.GovernorLimits, history: seq<SH.Grant>, request: SH.SendRequest,
                                        at: int)
    requires limits.Usable()
    ensures SH.After(limits, history, SH.Acquire(request, at))
         == if SH.Decide(limits, history, request, at).allowed then history + [SH.Grant(request, at)] else history
  {
    hide SH.Decide;
  }

  class OutboxDispatcher {
    const table: NotificationTable
    const governor: SG.SendGovernor
    const governed: bool
    const owner: Id
    /** Everything this dispatcher and all others have done to the table. */
    ghost var log: seq<Action>

    ghost predicate Valid()
      reads this, table, governor
    {
      governor.Valid() && table.Contents() == Reach(log).table
    }

    constructor (table: NotificationTable, governor: SG.SendGovernor, governed: bool, owner: Id)
      requires table.Contents() == EMPTY_TABLE && governor.Valid()
      ensures Valid() && Reach(log).phase == Idle
      ensures this.table == table && this.governor == governor && this.governed == governed
    {
      this.table, this.governor, this.governed, this.owner := table, governor, governed, owner;
      log := [];
    }

    ghost function Phase(): Phase
      reads this
    {
      Reach(log).phase
    }

    ghost method Log(action: Action)
      requires governor.Valid() && table.Contents() == SystemStep(Reach(log), action).table
      modifies this`log
      ensures Valid() && log == old(log) + [action] && Reach(log) == SystemStep(Reach(old(log)), action)
    {
      log := log + [action];
      assert log[..|log| - 1] == old(log);
    }

    /** Finds the first job that may be sent now; `k` is its place in the queue. With the governor on, it is charged
        for that job and for no other. The query, or the look-up for the row in place `raisesAt`, may raise. */
    method ReserveNextCapacity(rows: seq<Id>, now: int, open: set<Id>, readings: seq<int>, raisesAt: Option<nat>)
      returns (pick: Option<Id>, ghost k: nat)
      requires Valid() && IsQueue(table.jobs, now, QueueLimit(), rows)
      requires Forward(governor.seen, readings) && |readings| == |rows|
      modifies governor
      ensures Valid()
      ensures k <= |rows| && pick == if Picks(rows, raisesAt, k) then Some(rows[k]) else None
      ensures Reserves(old(governor.history), governor.history, table.jobs, rows, readings, open, raisesAt, k)
    {
      hide SG.SendGovernor.Valid, Reach, SH.Decide, SH.Rules, SH.After, IsQueue;
      if !governed {
        return if rows == [] || raisesAt == Some(0) then None else Some(rows[0]), 0;
      }
      for n := 0 to |rows|
        invariant Valid() && governor.history == old(governor.history)
        invariant n < |rows| ==> readings[n] >= governor.seen
        invariant raisesAt.Some? ==> raisesAt.value >= n
        invariant forall i :: 0 <= i < n ==>
                    !Sendable(old(governor.history), table.jobs, rows[i], readings[i], open)
      {
        if raisesAt == Some(n) {
          return None, n;
        }
        QueuedIsClaimable(table.jobs, now, QueueLimit(), rows, n);
        var job := table.jobs[rows[n]];
        if job.group !in open {
          continue;
        }
        var request := RequestFor(job);
        governor.LimitsAreUsable();
        AcquireMeans(governor.limits, governor.history, request, readings[n]);
        var permit := governor.Acquire(request, readings[n]);
        if permit.allowed {
          return Some(rows[n]), n;
        }
      }
      return None, |rows|;
    }

    function QueueLimit(): nat {
      if governed then 50 else 1
    }

    ghost predicate Forward(seen: int, readings: seq<int>) {
      && (forall i :: 0 <= i < |readings| ==> readings[i] >= seen)
      && (forall i, j :: 0 <= i < j < |readings| ==> readings[i] <= readings[j])
    }

    /** The group may receive messages now, and the governor with this history would let one pass. */
    ghost predicate Sendable(history: seq<SH.Grant>, jobs: map<Id, Job>, id: Id, at: int, open: set<Id>) {
      && id in jobs && jobs[id].group in open && governor.limits.Usable()
      && SH.Decide(governor.limits, history, RequestFor(jobs[id]), at).allowed
    }

    predicate Picks(rows: seq<Id>, raisesAt: Option<nat>, k: nat) {
      k < |rows| && raisesAt != Some(k)
    }

    /** The job in place `k` is the first that may be sent, unless something raised there. With the governor on, it is
        charged for that job and for no other. */
    ghost predicate Reserves(before: seq<SH.Grant>, after: seq<SH.Grant>, jobs: map<Id, Job>, rows: seq<Id>,
                             readings: seq<int>, open: set<Id>, raisesAt: Option<nat>, k: nat)
      requires k <= |rows| == |readings|
    {
      if !governed then k == 0 && after == before
      else
        && (forall i :: 0 <= i < k ==> !Sendable(before, jobs, rows[i], readings[i], open) && raisesAt != Some(i))
        && if !Picks(rows, raisesAt, k) then after == before
           else && Sendable(before, jobs, rows[k], readings[k], open)
                && after == before + [SH.Grant(RequestFor(jobs[rows[k]]), readings[k])]
    }

    /** Delivers the held job. A normal return has completed it with the right result; an exception leaves the job
        either as it was or completed and still in its bookkeeping. */
    method Deliver(id: Id, script: Script) returns (raised: bool)
      requires Valid() && Phase() == Holding(id) && id in table.jobs
      modifies this`log, table
      ensures Valid() && id in table.jobs && log == old(log) + script.Deed(old(table.jobs[id]))
      ensures raised <==> script.RaisesEarly(old(table.jobs[id])) || script.RaisesLate(old(table.jobs[id]))
      ensures Phase() == if script.RaisesEarly(old(table.jobs[id])) then Holding(id)
                         else if script.RaisesLate(old(table.jobs[id]))
                              then Settled(id, script.Verdict(old(table.jobs[id]))) else Idle
      ensures var job := old(table.jobs[id]);
              table.Contents() == if script.RaisesEarly(job) then old(table.Contents())
                                  else AfterCompletion(old(table.Contents()), id, script.Verdict(job), script.doneAt)
    {
      hide SG.SendGovernor.Valid, Reach, SystemStep, Step, AfterCompletion;
      var job := table.jobs[id];
      if script.lookupRaises {
        return true;
      }
      if !script.originKnown {
        raised := Conclude(id, RetryResult, script.completionRaises, false, script.doneAt);
        return;
      }
      if script.NeedsQuota(job) {
        if script.quotaRaises {
          return true;
        }
        if script.atAllRemaining == None || script.atAllRemaining.value <= 0 {
          raised := Conclude(id, FailedResult, script.completionRaises, script.booksRaise, script.doneAt);
          return;
        }
      }
      if script.renderRaises {
        return true;
      }
      match script.send {
        case Refused(kind) =>
          if (kind == AccountOffline || kind == RateLimited) && script.circuitRaises {
            return true;
          }
          var result := if RetryableOutcome(kind) then RetryResult
                        else if kind == UnknownOutcome then UnknownResult else FailedResult;
          raised := Conclude(id, result, script.completionRaises,
                             !RetryableOutcome(kind) && script.booksRaise, script.doneAt);
        case Delivered =>
          raised := Conclude(id, SentResult, script.completionRaises, script.booksRaise, script.doneAt);
      }
    }

    /** Completes the held job and then updates the publication records; either may raise. */
    method Conclude(id: Id, result: Result, completionRaises: bool, booksRaise: bool, at: int) returns (raised: bool)
      requires Valid() && Phase() == Holding(id) && id in table.jobs
      modifies this`log, table
      ensures Valid() && id in table.jobs
      ensures raised <==> completionRaises || booksRaise
      ensures completionRaises ==> log == old(log) && table.Contents() == old(table.Contents())
      ensures !completionRaises ==>
                && log == old(log) + (if booksRaise then [Finish(result, at)] else [Finish(result, at), BooksKept])
                && Phase() == (if booksRaise then Settled(id, result) else Idle)
                && table.Contents() == AfterCompletion(old(table.Contents()), id, result, at)
    {
      hide SG.SendGovernor.Valid, Reach, SystemStep, Step;
      if completionRaises {
        return true;
      }
      FinishStep(Reach(log), result, at);
      CompleteStep(table.Contents(), id, result, at);
      table.CompleteJob(id, result, at);
      Log(Finish(result, at));
      BooksStep(Reach(log));
      if !booksRaise {
        Log(BooksKept);
      }
      return booksRaise;
    }

    /** One tick: expire leases, reserve capacity, lease the chosen job and deliver it. `k` is the job's place in the
        queue, or the queue's length if there was nothing to send. Before the lease is taken any call may raise, and
        others may act meanwhile. */
    method Tick(expired: seq<Id>, rows: seq<Id>, now: int, open: set<Id>, readings: seq<int>, meanwhile: seq<Event>,
                halt: Halt, script: Script)
      returns (ghost k: nat)
      requires Valid() && Phase() == Idle
      requires Distinct(expired)
      requires forall id :: id in expired <==> id in table.jobs && LeaseExpired(table.jobs[id], now, LEASE_TIMEOUT)
      requires IsQueue(Step(table.Contents(), ReleaseExpired(now, LEASE_TIMEOUT)).jobs, now, QueueLimit(), rows)
      requires Forward(governor.seen, readings) && |readings| == |rows|
      requires forall i :: 0 <= i < |meanwhile| ==> ByOthers(meanwhile[i])
      modifies this`log, table, governor
      ensures Valid() && Phase() == Idle && k <= |rows|
      ensures halt == AtExpiry ==>
                && log == old(log) && table.Contents() == old(table.Contents())
                && governor.history == old(governor.history)
      ensures halt != AtExpiry ==>
                var released := Step(old(table.Contents()), ReleaseExpired(now, LEASE_TIMEOUT));
                && Reserves(old(governor.history), governor.history, released.jobs, rows, readings, open,
                            RaisesAt(halt), k)
                && var picked := Picks(rows, RaisesAt(halt), k) && halt != AtClaim && halt != RowLocked;
                   var found, pick := StepsOf(released, meanwhile), if picked then Some(rows[k]) else None;
                   && Delivers(old(log) + [Expire(now)] + Deeds(meanwhile), found, pick, now, script)
                   && (NoLateRaise(log, |old(log)|) <==> !CompletesTwice(found, pick, now, script))
    {
      hide SG.SendGovernor.Valid, Step, IsQueue, SystemStep, Reach, Forward, Reserves, Delivers, StepsOf, Deeds,
           NoLateRaise, CompletesTwice;
      k := 0;
      if halt == AtExpiry {
        return;
      }
      var _ := table.ReleaseExpiredLeases(expired, now, LEASE_TIMEOUT);
      ExpireStep(Reach(log), now);
      Log(Expire(now));
      var pick;
      pick, k := ReserveNextCapacity(rows, now, open, readings, RaisesAt(halt));
      Interfere(meanwhile);
      ghost var before := log;
      ClaimAndDeliver(if halt == AtClaim then None else pick, halt == RowLocked, now, script);
      OnlyDeliveriesRaise(old(log), now, meanwhile, log);
    }

    /** What the log and the table are once the picked job, if there is one and it may still be leased, has been leased
        and delivered. */
    ghost predicate Delivers(before: seq<Action>, found: Table, pick: Option<Id>, now: int, script: Script)
      reads this, table
    {
      if pick.Some? && pick.value in found.jobs && Claimable(found.jobs[pick.value], now) then
        var id, job := pick.value, LeasedBy(found.jobs[pick.value], owner, now);
        && log == before + ([Take(id, owner, now)] + (script.Deed(job) + script.CatchAll(job)))
        && table.jobs == found.jobs[id := script.After(job)]
        && table.attempts == found.attempts + DeliveryRows(id, job, script)
        && id in table.jobs && IsDelivered(script, job, table.jobs[id])
        && (script.MessageSent(job) ==> table.jobs[id].status == StatusAfterSending(script))
      else log == before && table.Contents() == found
    }

    predicate CompletesTwice(found: Table, pick: Option<Id>, now: int, script: Script) {
      && pick.Some? && pick.value in found.jobs && Claimable(found.jobs[pick.value], now)
      && script.RaisesLate(LeasedBy(found.jobs[pick.value], owner, now)) && !script.catchAllRaises
    }

    /** What others do to the table between two transactions of this dispatcher. */
    method Interfere(events: seq<Event>)
      requires Valid() && forall i :: 0 <= i < |events| ==> ByOthers(events[i])
      modifies this`log, table
      ensures Valid() && Phase() == old(Phase()) && log == old(log) + Deeds(events)
      ensures table.Contents() == StepsOf(old(table.Contents()), events)
    {
      hide SG.SendGovernor.Valid, Reach, Step;
      for k := 0 to |events|
        invariant Valid() && Phase() == old(Phase()) && log == old(log) + Deeds(events[..k])
        invariant table.Contents() == StepsOf(old(table.Contents()), events[..k])
      {
        assert events[..k + 1][..k] == events[..k];
        table.Act(events[k]);
        Log(Others(events[k]));
      }
      assert events[..|events|] == events;
    }

    /** The second half of a tick: lease the reserved job, unless it may no longer be leased, and deliver it. */
    method ClaimAndDeliver(pick: Option<Id>, locked: bool, now: int, script: Script)
      requires Valid() && Phase() == Idle
      modifies this`log, table
      ensures Valid() && Phase() == Idle
      ensures var mine := if locked then None else pick;
              && Delivers(old(log), old(table.Contents()), mine, now, script) && old(log) <= log
              && (NoLateRaise(log, |old(log)|) <==> !CompletesTwice(old(table.Contents()), mine, now, script))
    {
      hide SG.SendGovernor.Valid, Step, SystemStep, Reach, Script.Deed, Script.CatchAll, Script.After, DeliveryRows,
           Claimable,
           Script.RaisesLate, Script.MessageSent, NoLateRaise, StatusAfterSending;
      NothingRaisesLate(log);
      if pick == None {
        return;
      }
      var id := pick.value;
      ghost var found := table.Contents();
      ClaimStep(found, id, owner, now);
      if id in table.jobs && Claimable(table.jobs[id], now) {
        TakeStep(Reach(log), id, owner, now);
      }
      var claimed := table.ClaimPendingJob(id, owner, now, locked);
      if !claimed {
        return;
      }
      Log(Take(id, owner, now));
      ghost var taken := log;
      DeliverOrRetry(id, script);
      DeliveryRaisesLateIff(taken, id, LeasedBy(found.jobs[id], owner, now), script);
      NoLateRaiseSince(log, taken, |old(log)|);
    }

    /** The delivery inside its catch-all. */
    method DeliverOrRetry(id: Id, script: Script)
      requires Valid() && Phase() == Holding(id) && id in table.jobs
      modifies this`log, table
      ensures Valid() && Phase() == Idle
      ensures var job := old(table.jobs[id]);
              && log == old(log) + (script.Deed(job) + script.CatchAll(job))
              && table.jobs == old(table.jobs)[id := script.After(job)]
              && table.attempts == old(table.attempts) + DeliveryRows(id, job, script)
      ensures IsDelivered(script, old(table.jobs[id]), table.jobs[id])
      ensures script.MessageSent(old(table.jobs[id])) ==> table.jobs[id].status == StatusAfterSending(script)
    {
      hide SG.SendGovernor.Valid, Step, SystemStep, Reach, Script.RaisesEarly, Script.RaisesLate, Script.Verdict,
           Script.After, DeliveryRows,
           Script.MessageSent, StatusAfterSending, IsDelivered;
      TableAfterDelivery(log, id, script);
      DeliveredJobIsRight(log, id, script);
      if script.MessageSent(table.jobs[id]) {
        SentMessageIsRepeatedIff(log, id, script);
      }
      var raised := Deliver(id, script);
      if raised {
        if script.catchAllRaises {
          LostStep(Reach(log));
          Log(Lost);
        } else {
          RaisedStep(Reach(log), script.doneAt);
          table.CompleteJob(id, RetryResult, script.doneAt);
          Log(Raised(script.doneAt));
        }
      }
    }
  }

  /** Where a tick is broken off before the lease is taken: at the expiry of leases, at a row of the queue, or at the
      lease itself, because that raises or because another transaction has locked the row. */
  datatype Halt = NoHalt | AtExpiry | AtRow(k: nat) | AtClaim | RowLocked

  function RaisesAt(halt: Halt): Option<nat> {
    if halt.AtRow? then Some(halt.k) else None
  }

  function AfterCompletion(table: Table, id: Id, result: Result, now: int): Table
    requires id in table.jobs
  {
    Table(table.jobs[id := Completed(table.jobs[id], result, now)],
          table.attempts + [Attempt(id, table.jobs[id].attemptCount, result)])
  }

  function Deeds(events: seq<Event>): seq<Action> {
    if events == [] then [] else Deeds(events[..|events| - 1]) + [Others(events[|events| - 1])]
  }

  ghost function StepsOf(table: Table, events: seq<Event>): Table {
    if events == [] then table else Step(StepsOf(table, events[..|events| - 1]), events[|events| - 1])
  }

  lemma {:induction false} ClaimStep(table: Table, id: Id, owner: Id, now: int)
    ensures Step(table, Claim({id}, owner, now)) ==
            if id in table.jobs && Claimable(table.jobs[id], now)
            then Table(table.jobs[id := LeasedBy(table.jobs[id], owner, now)], table.attempts) else table
  {
    hide Claimable;
    var event := Claim({id}, owner, now);
    if id in table.jobs && Claimable(table.jobs[id], now) {
      OneRowStep(table, event, id, LeasedBy(table.jobs[id], owner, now));
    } else {
      IdleStep(table, event);
    }
  }
}
