/** The NapCat status tracker and its stored event log. Times are in microseconds. */
module StatusTracker {
  import opened Options

  datatype Status = Unknown | Online | QqOffline | Unreachable

  datatype Outcome = ProbeOnline | ProbeQqOffline | ProbeFailure

  datatype Probe = Probe(outcome: Outcome, at: int)

  datatype Snapshot =
    Snapshot(status: Status, failures: nat, changedAt: int, observedAt: int, offlineSince: Option<int>)

  const LIMIT := 20

  // ---------------------------------------------------------------- the closed form

  /** How many probes at the end of the history failed in a row. */
  function TrailingFailures(probes: seq<Probe>): nat {
    if probes != [] && probes[|probes| - 1].outcome == ProbeFailure
    then 1 + TrailingFailures(probes[..|probes| - 1]) else 0
  }

  /** The status the last probe that did not fail reported. */
  function LastReport(probes: seq<Probe>): Status {
    if probes == [] then Unknown else
      match probes[|probes| - 1].outcome
      case ProbeOnline => Online
      case ProbeQqOffline => QqOffline
      case ProbeFailure => LastReport(probes[..|probes| - 1])
  }

  /** Three failures in a row make the component unreachable; otherwise the last report stands. */
  function StatusOf(probes: seq<Probe>): Status {
    if TrailingFailures(probes) >= 3 then Unreachable else LastReport(probes)
  }

  /** The first QQ-offline probe since the last online one. */
  ghost predicate IsOfflineSince(probes: seq<Probe>, since: Option<int>) {
    match since
    case None => forall i :: 0 <= i < |probes| && probes[i].outcome == ProbeQqOffline ==> OnlineAfter(probes, i)
    case Some(t) => exists i :: 0 <= i < |probes| && probes[i] == Probe(ProbeQqOffline, t) && !OnlineAfter(probes, i)
                      && forall j :: 0 <= j < i && probes[j].outcome == ProbeQqOffline ==> OnlineAfter(probes, j)
  }

  ghost predicate OnlineAfter(probes: seq<Probe>, i: int) {
    exists j :: 0 <= i < j < |probes| && probes[j].outcome == ProbeOnline
  }

  /** The probe with which the current status began: it is the status at every later point of the history, and was not
      the status just before. */
  ghost predicate IsChangedAt(probes: seq<Probe>, at: int) {
    exists i :: 0 <= i < |probes| && probes[i].at == at && BeganAt(probes, i)
  }

  ghost predicate BeganAt(probes: seq<Probe>, i: int) {
    && 0 <= i < |probes|
    && (forall j :: i < j <= |probes| ==> StatusOf(probes[..j]) == StatusOf(probes))
    && (i > 0 ==> StatusOf(probes[..i]) != StatusOf(probes))
  }

  /** What a snapshot says about the history. */
  ghost predicate Describes(snapshot: Option<Snapshot>, probes: seq<Probe>) {
    && (snapshot == None <==> probes == [])
    && (snapshot.Some? ==>
          && snapshot.value.status == StatusOf(probes)
          && snapshot.value.failures == TrailingFailures(probes)
          && snapshot.value.observedAt == probes[|probes| - 1].at
          && IsOfflineSince(probes, snapshot.value.offlineSince)
          && IsChangedAt(probes, snapshot.value.changedAt))
  }

  lemma {:induction false} StatusGrows(probes: seq<Probe>, probe: Probe)
    ensures TrailingFailures([]) == 0 && StatusOf([]) == Unknown
    ensures TrailingFailures(probes + [probe])
         == if probe.outcome == ProbeFailure then TrailingFailures(probes) + 1 else 0
    ensures StatusOf(probes + [probe]) ==
            match probe.outcome
            case ProbeOnline => Online
            case ProbeQqOffline => QqOffline
            case ProbeFailure => if TrailingFailures(probes) + 1 >= 3 then Unreachable else StatusOf(probes)
  {
    var more := probes + [probe];
    assert more[..|more| - 1] == probes;
  }

  lemma {:induction false} OfflineSinceGrows(probes: seq<Probe>, since: Option<int>, probe: Probe)
    requires IsOfflineSince(probes, since)
    ensures IsOfflineSince(probes + [probe],
              match probe.outcome
              case ProbeOnline => None
              case ProbeQqOffline => if since.Some? then since else Some(probe.at)
              case ProbeFailure => since)
  {
    var more, n := probes + [probe], |probes|;
    forall i | 0 <= i < n
      ensures OnlineAfter(more, i) <==> OnlineAfter(probes, i) || probe.outcome == ProbeOnline
    {
      if j :| i < j < |probes| && probes[j].outcome == ProbeOnline {
        assert more[j].outcome == ProbeOnline;
      }
      if probe.outcome == ProbeOnline {
        assert more[n].outcome == ProbeOnline;
      }
    }
    if probe.outcome != ProbeOnline && since.Some? {
      var i :| 0 <= i < n && probes[i] == Probe(ProbeQqOffline, since.value) && !OnlineAfter(probes, i)
               && forall j :: 0 <= j < i && probes[j].outcome == ProbeQqOffline ==> OnlineAfter(probes, j);
      assert more[i] == probes[i];
    } else if probe.outcome == ProbeQqOffline {
      assert more[n] == probe && !OnlineAfter(more, n);
    }
  }

  lemma {:induction false} ChangedAtGrows(probes: seq<Probe>, probe: Probe, at: int)
    requires probes != [] ==> IsChangedAt(probes, at)
    ensures var more := probes + [probe];
            IsChangedAt(more, if probes != [] && StatusOf(probes) == StatusOf(more) then at else probe.at)
  {
    hide StatusOf;
    var more, n := probes + [probe], |probes|;
    forall j | 0 <= j <= n
      ensures more[..j] == probes[..j]
    {
    }
    assert more[..n + 1] == more && probes[..n] == probes;
    if probes != [] && StatusOf(probes) == StatusOf(more) {
      var i :| 0 <= i < n && probes[i].at == at && BeganAt(probes, i);
      assert more[i].at == at;
      forall j | i < j <= |more|
        ensures StatusOf(more[..j]) == StatusOf(more)
      {
        if j <= n {
          assert more[..j] == probes[..j];
        }
      }
      assert BeganAt(more, i);
    } else {
      assert more[n].at == probe.at && BeganAt(more, n);
    }
  }

  class NapCatStatusTracker {
    var snapshot: Option<Snapshot>
    /** All probes so far. */
    ghost var probes: seq<Probe>

    ghost predicate Valid()
      reads this
    {
      Describes(snapshot, probes)
    }

    /** Starts without a snapshot, or goes on from a stored one. */
    constructor (stored: Option<Snapshot>, ghost past: seq<Probe>)
      requires Describes(stored, past)
      ensures Valid() && snapshot == stored && probes == past
    {
      snapshot, probes := stored, past;
    }

    method Observe(outcome: Outcome, at: int) returns (s: Snapshot)
      requires Valid()
      modifies this
      ensures Valid() && probes == old(probes) + [Probe(outcome, at)]
      ensures snapshot == Some(s) && Describes(Some(s), probes)
    {
      hide IsOfflineSince, IsChangedAt, StatusOf, TrailingFailures;
      StatusGrows(probes, Probe(outcome, at));
      var current := snapshot;
      var status, offlineSince;
      ghost var more := probes + [Probe(outcome, at)];
      assert more[|more| - 1].at == at;
      match outcome {
        case ProbeOnline =>
          status, offlineSince := Online, None;
        case ProbeQqOffline =>
          status := QqOffline;
          offlineSince := if current.Some? && current.value.offlineSince.Some? then current.value.offlineSince
                          else Some(at);
        case ProbeFailure =>
          var failures := (if current.Some? then current.value.failures else 0) + 1;
          status := if failures >= 3 then Unreachable else if current.Some? then current.value.status else Unknown;
          offlineSince := if current.Some? then current.value.offlineSince else None;
      }
      NothingOfflineYet();
      OfflineSinceGrows(probes, if current.Some? then current.value.offlineSince else None, Probe(outcome, at));
      ChangedAtGrows(probes, Probe(outcome, at), if current.Some? then current.value.changedAt else at);
      var changedAt := if current.Some? && current.value.status == status then current.value.changedAt else at;
      var failures := if outcome == ProbeFailure then (if current.Some? then current.value.failures else 0) + 1 else 0;
      s := Snapshot(status, failures, changedAt, at, offlineSince);
      snapshot, probes := Some(s), more;
    }
  }

  lemma {:induction false} NothingOfflineYet()
    ensures IsOfflineSince([], None)
  {
  }

  // ---------------------------------------------------------------- the stored event log

  datatype StatusEvent = StatusEvent(previous: Option<Status>, status: Status, occurredAt: int)

  /** Events follow one another: each names its predecessor's status, differs from it, and occurred later. */
  ghost predicate Chained(log: seq<StatusEvent>) {
    && (log != [] ==> log[0].previous == None)
    && (forall i :: 0 < i < |log| ==> log[i].previous == Some(log[i - 1].status) && log[i].status != log[i - 1].status)
    && (forall i, j :: 0 <= i < j < |log| ==> log[i].occurredAt < log[j].occurredAt)
  }

  function Newest(log: seq<StatusEvent>): seq<StatusEvent> {
    if |log| <= LIMIT then log else log[|log| - LIMIT..]
  }

  function StoredStatus(row: Option<Snapshot>): Option<Status> {
    if row.Some? then Some(row.value.status) else None
  }

  /** The status has changed since then, or the snapshot is about the same status no earlier. */
  predicate IsNewer(stored: Snapshot, snapshot: Snapshot) {
    if snapshot.status == stored.status then snapshot.changedAt >= stored.changedAt
    else snapshot.changedAt > stored.observedAt
  }

  /** The stored log is the last twenty entries of the whole one, or all of it. */
  lemma {:induction false} NewestAreTwenty(log: seq<StatusEvent>)
    ensures |Newest(log)| == if |log| < 20 then |log| else 20
    ensures log == log[..|log| - |Newest(log)|] + Newest(log)
  {
  }

  lemma {:induction false} ChainGrows(log: seq<StatusEvent>, event: StatusEvent)
    requires Chained(log)
    requires if log == [] then event.previous == None
             else var last := log[|log| - 1];
                  && event.previous == Some(last.status) && event.status != last.status
                  && event.occurredAt > last.occurredAt
    ensures Chained(log + [event])
    ensures forall i, j :: 0 <= i < j < |log + [event]| ==>
              (log + [event])[i].occurredAt < (log + [event])[j].occurredAt
  {
  }

  lemma {:induction false} NewestGrows(log: seq<StatusEvent>, event: StatusEvent)
    requires forall i, j :: 0 <= i < j < |log + [event]| ==>
               (log + [event])[i].occurredAt < (log + [event])[j].occurredAt
    ensures Newest(Newest(log) + [event]) == Newest(log + [event])
    ensures |Newest(log)| <= LIMIT
    ensures var kept := Newest(log) + [event];
            forall i, j :: 0 <= i < j < |kept| ==> kept[i].occurredAt < kept[j].occurredAt
  {
    var kept, all := Newest(log) + [event], log + [event];
    var gap := |all| - |kept|;
    forall i | 0 <= i < |kept|
      ensures kept[i] == all[i + gap]
    {
    }
  }

  class RuntimeStatusRepository {
    var row: Option<Snapshot>
    var events: seq<StatusEvent>
    /** The log as it would be without trimming. */
    ghost var log: seq<StatusEvent>

    /** The stored log is the newest part of the full one, and the stored status is that of its last event. */
    ghost predicate Valid()
      reads this
    {
      && events == Newest(log) && Chained(log)
      && (row == None <==> log == [])
      && (row.Some? ==>
            && row.value.status == log[|log| - 1].status
            && log[|log| - 1].occurredAt <= row.value.changedAt <= row.value.observedAt)
    }

    constructor ()
      ensures Valid() && row == None && log == []
    {
      row, events, log := None, [], [];
    }

    /** Stores a snapshot that is newer than the stored one. Snapshots in between may have been lost: the event is about
        the change since the one that was stored last. */
    method Record(snapshot: Snapshot) returns (changed: bool)
      requires Valid() && snapshot.changedAt <= snapshot.observedAt
      requires row.Some? ==> IsNewer(row.value, snapshot)
      modifies this
      ensures Valid() && row == Some(snapshot)
      ensures changed <==> StoredStatus(old(row)) != Some(snapshot.status)
      ensures log == old(log) + if changed
                                then [StatusEvent(StoredStatus(old(row)), snapshot.status, snapshot.changedAt)]
                                else []
    {
      hide Chained, Newest;
      var previous := if row.Some? then Some(row.value.status) else None;
      changed := previous != Some(snapshot.status);
      if changed {
        var event := StatusEvent(previous, snapshot.status, snapshot.changedAt);
        ChainGrows(log, event);
        NewestGrows(log, event);
        log := log + [event];
        events := events + [event];
        TrimEvents();
      }
      row := Some(snapshot);
    }

    /** Deletes all but the newest events; they are stored in the order in which they occurred. */
    method TrimEvents()
      requires |events| <= LIMIT + 1
      requires forall i, j :: 0 <= i < j < |events| ==> events[i].occurredAt < events[j].occurredAt
      modifies this`events
      ensures events == Newest(old(events))
      ensures forall gone, kept :: gone in old(events) && gone !in events && kept in events ==>
                gone.occurredAt < kept.occurredAt
    {
      if |events| > LIMIT {
        var stale := |events| - LIMIT;
        assert events == events[..stale] + events[stale..];
        events := events[stale..];
      }
    }
  }

  // ---------------------------------------------------------------- the monitor

  ghost predicate ClockForward(probes: seq<Probe>) {
    forall i, j :: 0 <= i < j < |probes| ==> probes[i].at < probes[j].at
  }

  /** A snapshot of a longer history is newer than one of a shorter one. */
  lemma {:induction false} LaterIsNewer(probes: seq<Probe>, k: nat, stored: Snapshot, snapshot: Snapshot)
    requires ClockForward(probes) && 1 <= k <= |probes|
    requires Describes(Some(stored), probes[..k]) && Describes(Some(snapshot), probes)
    ensures IsNewer(stored, snapshot) && snapshot.changedAt <= snapshot.observedAt
  {
    hide StatusOf, IsOfflineSince;
    var early := probes[..k];
    var i :| 0 <= i < |probes| && probes[i].at == snapshot.changedAt && BeganAt(probes, i);
    var m :| 0 <= m < k && early[m].at == stored.changedAt && BeganAt(early, m);
    if stored.status != snapshot.status {
      assert i >= k;
    } else {
      assert probes[..m] == early[..m];
    }
  }

  /** What a tracker sees that knows nothing of the stored snapshot is newer all the same. */
  lemma {:induction false} RestartIsNewer(past: seq<Probe>, probes: seq<Probe>, stored: Snapshot, snapshot: Snapshot)
    requires ClockForward(past + probes) && past != [] && probes != []
    requires Describes(Some(stored), past) && Describes(Some(snapshot), probes)
    ensures IsNewer(stored, snapshot) && snapshot.changedAt <= snapshot.observedAt
  {
    hide StatusOf, IsOfflineSince, BeganAt;
    var i :| 0 <= i < |probes| && probes[i].at == snapshot.changedAt && BeganAt(probes, i);
    var m :| 0 <= m < |past| && past[m].at == stored.changedAt && BeganAt(past, m);
    var all := past + probes;
    assert all[|past| + i] == probes[i] && all[|all| - 1] == probes[|probes| - 1];
    assert all[m] == past[m] && all[|past| - 1] == past[|past| - 1];
  }

  lemma {:induction false} ClockForwardParts(a: seq<Probe>, b: seq<Probe>)
    requires ClockForward(a + b)
    ensures ClockForward(a) && ClockForward(b)
  {
    assert forall i :: 0 <= i < |a| ==> (a + b)[i] == a[i];
    forall i, j | 0 <= i < j < |b|
      ensures b[i].at < b[j].at
    {
      assert (a + b)[|a| + i] == b[i] && (a + b)[|a| + j] == b[j];
    }
  }

  /** The snapshot of the latest probe may replace the stored one, which describes `past` if the session has not stored
      anything yet, and otherwise the probes `remembered` and those of the session up to then. */
  lemma {:induction false} MayBeStored(past: seq<Probe>, remembered: seq<Probe>, probes: seq<Probe>, stored: nat,
                                       row: Option<Snapshot>, snapshot: Snapshot)
    requires ClockForward(past + probes) && (remembered == past || remembered == [])
    requires probes != [] && stored < |probes|
    requires Describes(row, if stored == 0 then past else remembered + probes[..stored])
    requires Describes(Some(snapshot), remembered + probes)
    ensures row.Some? ==> IsNewer(row.value, snapshot)
    ensures snapshot.changedAt <= snapshot.observedAt
  {
    hide Describes, IsNewer, ClockForward;
    var seen := remembered + probes;
    ClockForwardParts(past, probes);
    assert remembered == [] ==> seen == probes;
    assert seen[..|seen|] == seen;
    LaterIsNewer(seen, |seen|, snapshot, snapshot);
    SomethingSeen(row, if stored == 0 then past else remembered + probes[..stored]);
    if row.Some? {
      if stored > 0 {
        assert seen[..|remembered| + stored] == remembered + probes[..stored];
        LaterIsNewer(seen, |remembered| + stored, row.value, snapshot);
      } else if remembered == past {
        assert seen[..|past|] == past;
        LaterIsNewer(seen, |past|, row.value, snapshot);
      } else {
        RestartIsNewer(past, probes, row.value, snapshot);
      }
    }
  }

  lemma {:induction false} SomethingSeen(row: Option<Snapshot>, probes: seq<Probe>)
    requires Describes(row, probes)
    ensures row == None <==> probes == []
  {
  }

  /** One session of the monitor: probes, tracks and stores. It goes on from the stored snapshot, which describes
      `past`, or from nothing if that cannot be loaded. A snapshot that cannot be stored is lost; the next one is
      stored against whatever was stored last. */
  method Monitor(ghost past: seq<Probe>, loads: bool, probes: seq<Probe>, stores: seq<bool>,
                 repository: RuntimeStatusRepository)
    returns (tracker: NapCatStatusTracker)
    requires |stores| == |probes| && ClockForward(past + probes)
    requires repository.Valid() && Describes(repository.row, past)
    modifies repository
    ensures repository.Valid() && tracker.Valid() && tracker.probes == (if loads then past else []) + probes
    ensures || (repository.row == old(repository.row) && repository.log == old(repository.log)
                && forall j :: 0 <= j < |probes| ==> !stores[j])
            || (exists k :: 1 <= k <= |probes| && stores[k - 1]
                  && Describes(repository.row, (if loads then past else []) + probes[..k])
                  && forall j :: k <= j < |probes| ==> !stores[j])
  {
    hide Describes, IsNewer, RuntimeStatusRepository.Valid, NapCatStatusTracker.Valid, ClockForward, StoredUpTo;
    NoProbesYet();
    ghost var remembered := if loads then past else [];
    tracker := new NapCatStatusTracker(if loads then repository.row else None, remembered);
    ghost var stored := 0;
    assert remembered + probes[..0] == remembered;
    NothingStored(past, remembered, probes, stores, repository.row, repository.log);
    for k := 0 to |probes|
      invariant fresh(tracker) && repository.Valid() && tracker.Valid()
      invariant tracker.probes == remembered + probes[..k]
      invariant StoredUpTo(past, remembered, probes, stores, k, stored, old(repository.row), old(repository.log),
                           repository.row, repository.log)
    {
      var snapshot := tracker.Observe(probes[k].outcome, probes[k].at);
      assert remembered + probes[..k + 1] == remembered + probes[..k] + [probes[k]];
      OneMoreProbe(past, remembered, probes, stores, k, stored, old(repository.row), old(repository.log),
                   repository.row, repository.log, snapshot);
      if stores[k] {
        var _ := repository.Record(snapshot);
        SnapshotStored(past, remembered, probes, stores, k, old(repository.row), old(repository.log), snapshot,
                       repository.log);
        stored := k + 1;
      }
    }
    assert probes[..|probes|] == probes;
    StoredMeans(past, remembered, probes, stores, stored, old(repository.row), old(repository.log),
                repository.row, repository.log);
  }

  /** After `k` probes of a session, `stored` says after how many the row was stored last, or that it has not been. */
  ghost predicate StoredUpTo(past: seq<Probe>, remembered: seq<Probe>, probes: seq<Probe>, stores: seq<bool>, k: nat,
                             stored: nat, firstRow: Option<Snapshot>, firstLog: seq<StatusEvent>,
                             row: Option<Snapshot>, log: seq<StatusEvent>)
    requires k <= |probes| == |stores|
  {
    && stored <= k && (forall j :: stored <= j < k ==> !stores[j])
    && Describes(row, if stored == 0 then past else remembered + probes[..stored])
    && if stored == 0 then row == firstRow && log == firstLog else stores[stored - 1]
  }

  lemma {:induction false} NothingStored(past: seq<Probe>, remembered: seq<Probe>, probes: seq<Probe>,
                                         stores: seq<bool>, row: Option<Snapshot>, log: seq<StatusEvent>)
    requires |stores| == |probes| && Describes(row, past)
    ensures StoredUpTo(past, remembered, probes, stores, 0, 0, row, log, row, log)
  {
  }

  /** The next snapshot may be stored, and if it is not the row stays that of the last one stored. */
  lemma {:induction false} OneMoreProbe(past: seq<Probe>, remembered: seq<Probe>, probes: seq<Probe>, stores: seq<bool>,
                                        k: nat, stored: nat, firstRow: Option<Snapshot>, firstLog: seq<StatusEvent>,
                                        row: Option<Snapshot>, log: seq<StatusEvent>, snapshot: Snapshot)
    requires k < |probes| == |stores| && ClockForward(past + probes) && (remembered == past || remembered == [])
    requires StoredUpTo(past, remembered, probes, stores, k, stored, firstRow, firstLog, row, log)
    requires Describes(Some(snapshot), remembered + probes[..k + 1])
    ensures row.Some? ==> IsNewer(row.value, snapshot)
    ensures snapshot.changedAt <= snapshot.observedAt
    ensures !stores[k] ==> StoredUpTo(past, remembered, probes, stores, k + 1, stored, firstRow, firstLog, row, log)
  {
    hide Describes, IsNewer, ClockForward;
    var sofar := probes[..k + 1];
    assert past + probes == past + sofar + probes[k + 1..];
    ClockForwardParts(past + sofar, probes[k + 1..]);
    assert sofar[..stored] == probes[..stored];
    MayBeStored(past, remembered, sofar, stored, row, snapshot);
  }

  lemma {:induction false} SnapshotStored(past: seq<Probe>, remembered: seq<Probe>, probes: seq<Probe>,
                                          stores: seq<bool>, k: nat, firstRow: Option<Snapshot>,
                                          firstLog: seq<StatusEvent>, snapshot: Snapshot, log: seq<StatusEvent>)
    requires k < |probes| == |stores| && stores[k] && Describes(Some(snapshot), remembered + probes[..k + 1])
    ensures StoredUpTo(past, remembered, probes, stores, k + 1, k + 1, firstRow, firstLog, Some(snapshot), log)
  {
    hide Describes;
  }

  lemma {:induction false} StoredMeans(past: seq<Probe>, remembered: seq<Probe>, probes: seq<Probe>, stores: seq<bool>,
                                       stored: nat, firstRow: Option<Snapshot>, firstLog: seq<StatusEvent>,
                                       row: Option<Snapshot>, log: seq<StatusEvent>)
    requires |probes| == |stores|
    requires StoredUpTo(past, remembered, probes, stores, |probes|, stored, firstRow, firstLog, row, log)
    ensures || (row == firstRow && log == firstLog && forall j :: 0 <= j < |probes| ==> !stores[j])
            || (exists k :: 1 <= k <= |probes| && stores[k - 1] && Describes(row, remembered + probes[..k])
                  && forall j :: k <= j < |probes| ==> !stores[j])
  {
    hide Describes;
  }

  lemma {:induction false} NoProbesYet()
    ensures Describes(None, [])
  {
  }
}
