/** One pass of link discovery: many rows share one budget of search requests, and a cursor over row ids lets the next
    pass go on where this one stopped.

    What the two search services answer, and whether a confirmation works, is a `World`; any call may raise. */
module Discovery {
  import opened Options
  import opened Identifiers
  import opened Sequences

  /** A catalogue row and the titles to search for; a row without title or air date has no metadata. */
  datatype Row = Row(id: Id, hasMetadata: bool, titles: seq<string>)

  datatype Verdict = MissingMetadata | Confirmed | SyncFailed | Ambiguous | NoCandidate | SourceError | Rejected

  /** A bridge search is refused for rate reasons, fails otherwise, or answers. */
  datatype BridgeReply = RateLimited | Failed | Answered

  /** What comes of the candidates a row's bridge searches have collected. */
  datatype BridgeVerdict = BridgeRaises | Concludes(verdict: Verdict)

  datatype Confirmation = ConfirmRaises | Succeeds | Fails

  /** An AniList search raises, or finds so many acceptable candidates. */
  datatype SearchReply = SearchRaises | Found(candidates: nat, confirmation: Confirmation)

  datatype World = World(
    bridgeReply: (Id, nat) -> BridgeReply,
    bridgeVerdict: Id -> BridgeVerdict,
    searchReply: (Id, nat) -> SearchReply,
    recordRaises: Id -> bool)

  datatype Result = Result(processed: nat, confirmed: nat, searchesUsed: nat, deferred: nat)

  function Budget(remaining: int): nat {
    if remaining < 0 then 0 else remaining
  }

  predicate After(cursor: Option<Id>, id: Id) {
    cursor == None || id > cursor.value
  }

  predicate HasId(rows: seq<Row>, id: Id) {
    exists i :: 0 <= i < |rows| && rows[i].id == id
  }

  /** What the background query answers: the first rows in id order that are eligible, beyond the cursor and not among
      the priority rows, and no more than the limit. */
  ghost predicate IsFallback(eligible: set<Id>, cursor: Option<Id>, priority: seq<Row>, limit: int, rows: seq<Row>) {
    && |rows| <= Budget(limit)
    && (forall i :: 0 <= i < |rows| ==>
          rows[i].id in eligible && After(cursor, rows[i].id) && !HasId(priority, rows[i].id))
    && (forall i, j :: 0 <= i < j < |rows| ==> rows[i].id < rows[j].id)
    && (forall id :: id in eligible && After(cursor, id) && !HasId(priority, id) && !HasId(rows, id) ==>
          |rows| == Budget(limit) && forall i :: 0 <= i < |rows| ==> rows[i].id < id)
  }

  /** The rows up to `count` have been assessed. */
  function Assessed(rows: seq<Row>, count: nat): set<Id>
    requires count <= |rows|
  {
    set i | 0 <= i < count :: rows[i].id
  }

  // ---------------------------------------------------------------- what one row's searches come to

  /** The search for this title found no acceptable candidate. */
  predicate FoundNone(world: World, id: Id, k: nat) {
    var reply := world.searchReply(id, k);
    reply.Found? && reply.candidates == 0
  }

  predicate Settles(reply: SearchReply, verdict: Verdict) {
    reply.Found? &&
    match verdict
    case Confirmed => reply.candidates == 1 && reply.confirmation == Succeeds
    case SyncFailed => reply.candidates == 1 && reply.confirmation == Fails
    case Ambiguous => reply.candidates > 1
    case _ => false
  }

  /** AniList's answer after `used` searches: the first title that found something settles it; otherwise the titles, or
      the budget, are used up. */
  ghost predicate AniListAnswers(world: World, row: Row, remaining: int, verdict: Option<Verdict>, used: int) {
    && 0 <= used <= |row.titles| && used <= Budget(remaining)
    && (forall k :: 0 <= k < used - 1 ==> FoundNone(world, row.id, k))
    && if verdict == None || verdict == Some(NoCandidate)
       then && (used > 0 ==> FoundNone(world, row.id, used - 1))
            && (if verdict == None then used == Budget(remaining) < |row.titles| else used == |row.titles|)
       else used > 0 && Settles(world.searchReply(row.id, used - 1), verdict.value)
  }

  ghost predicate AniListRaises(world: World, row: Row, remaining: int) {
    exists n :: 0 <= n < |row.titles| && n < Budget(remaining) && Raising(world.searchReply(row.id, n))
                && forall k :: 0 <= k < n ==> FoundNone(world, row.id, k)
  }

  predicate Raising(reply: SearchReply) {
    reply.SearchRaises? || (reply.candidates == 1 && reply.confirmation.ConfirmRaises?)
  }

  ghost predicate SomeAnswer(world: World, row: Row) {
    exists k :: 0 <= k < |row.titles| && world.bridgeReply(row.id, k).Answered?
  }

  /** AnimeSchedule's answer: every title is searched for, whatever the searches find, as far as the budget goes; only
      if all of them failed is the source at fault. */
  ghost predicate BridgeAnswers(world: World, row: Row, remaining: int, verdict: Option<Verdict>, used: int) {
    && 0 <= used <= |row.titles| && used <= Budget(remaining)
    && (forall k :: 0 <= k < used ==> !world.bridgeReply(row.id, k).RateLimited?)
    && match verdict
       case None => used == Budget(remaining) < |row.titles|
       case Some(v) =>
         && used == |row.titles|
         && if SomeAnswer(world, row) then world.bridgeVerdict(row.id) == Concludes(v) else v == SourceError
  }

  ghost predicate BridgeFails(world: World, row: Row, remaining: int) {
    || (exists n :: 0 <= n < |row.titles| && n < Budget(remaining) && world.bridgeReply(row.id, n).RateLimited?)
    || world.bridgeVerdict(row.id).BridgeRaises?
  }

  /** The bridge's answer stands unless AniList, with what is left of the budget, confirms. */
  ghost predicate FallsBack(world: World, row: Row, left: int, bridge: Option<Verdict>,
                            verdict: Option<Verdict>, used: int) {
    exists own :: AniListAnswers(world, row, left, own, used)
                  && verdict == if own == Some(Confirmed) then own else bridge
  }

  /** Both services together. */
  ghost predicate Answers(world: World, bridged: bool, row: Row, remaining: int, verdict: Option<Verdict>, used: int) {
    if !row.hasMetadata then verdict == Some(MissingMetadata) && used == 0
    else if !bridged then AniListAnswers(world, row, remaining, verdict, used)
    else exists bridge, spent :: BridgeAnswers(world, row, remaining, bridge, spent)
           && if bridge == None || bridge == Some(Confirmed) then verdict == bridge && used == spent
              else FallsBack(world, row, remaining - spent, bridge, verdict, used - spent)
  }

  ghost predicate Raises(world: World, bridged: bool, row: Row, remaining: int) {
    row.hasMetadata &&
    if bridged
    then || BridgeFails(world, row, remaining)
         || (exists verdict, spent :: BridgeAnswers(world, row, remaining, verdict, spent)
               && verdict.Some? && verdict != Some(Confirmed) && AniListRaises(world, row, remaining - spent))
    else AniListRaises(world, row, remaining)
  }

  lemma {:induction false} NotLonger(world: World, row: Row, remaining: int,
                                     v: Option<Verdict>, n: int, w: Option<Verdict>, m: int)
    requires AniListAnswers(world, row, remaining, v, n) && AniListAnswers(world, row, remaining, w, m)
    ensures m <= n
  {
    assert 0 < n < m ==> FoundNone(world, row.id, n - 1);
    assert n > 0 && v.Some? && Settles(world.searchReply(row.id, n - 1), v.value) ==> !FoundNone(world, row.id, n - 1);
  }

  lemma {:induction false} AniListIsDetermined(world: World, row: Row, remaining: int,
                                               v: Option<Verdict>, n: int, w: Option<Verdict>, m: int)
    requires AniListAnswers(world, row, remaining, v, n) && AniListAnswers(world, row, remaining, w, m)
    ensures v == w && n == m
  {
    NotLonger(world, row, remaining, v, n, w, m);
    NotLonger(world, row, remaining, w, m, v, n);
    assert n > 0 && v.Some? && Settles(world.searchReply(row.id, n - 1), v.value) ==> !FoundNone(world, row.id, n - 1);
    assert n > 0 && w.Some? && Settles(world.searchReply(row.id, n - 1), w.value) ==> !FoundNone(world, row.id, n - 1);
  }

  lemma {:induction false} BridgeIsDetermined(world: World, row: Row, remaining: int,
                                              v: Option<Verdict>, n: int, w: Option<Verdict>, m: int)
    requires BridgeAnswers(world, row, remaining, v, n) && BridgeAnswers(world, row, remaining, w, m)
    ensures v == w && n == m
  {
    hide SomeAnswer;
  }

  lemma {:induction false} FallbackIsDetermined(world: World, row: Row, left: int, bridge: Option<Verdict>,
                                                v: Option<Verdict>, n: int, w: Option<Verdict>, m: int)
    requires FallsBack(world, row, left, bridge, v, n) && FallsBack(world, row, left, bridge, w, m)
    ensures v == w && n == m
  {
    hide AniListAnswers;
    var a :| AniListAnswers(world, row, left, a, n) && v == if a == Some(Confirmed) then a else bridge;
    var b :| AniListAnswers(world, row, left, b, m) && w == if b == Some(Confirmed) then b else bridge;
    AniListIsDetermined(world, row, left, a, n, b, m);
  }

  /** What the services answer determines the verdict on a row and what it costs. */
  lemma {:induction false} AnswerIsDetermined(world: World, bridged: bool, row: Row, remaining: int,
                                              v: Option<Verdict>, n: int, w: Option<Verdict>, m: int)
    requires Answers(world, bridged, row, remaining, v, n) && Answers(world, bridged, row, remaining, w, m)
    ensures v == w && n == m
  {
    hide AniListAnswers, BridgeAnswers, FallsBack;
    if row.hasMetadata && !bridged {
      AniListIsDetermined(world, row, remaining, v, n, w, m);
    } else if row.hasMetadata {
      var a, k :| BridgeAnswers(world, row, remaining, a, k)
        && if a == None || a == Some(Confirmed) then v == a && n == k
           else FallsBack(world, row, remaining - k, a, v, n - k);
      var b, l :| BridgeAnswers(world, row, remaining, b, l)
        && if b == None || b == Some(Confirmed) then w == b && m == l
           else FallsBack(world, row, remaining - l, b, w, m - l);
      BridgeIsDetermined(world, row, remaining, a, k, b, l);
      if a.Some? && a != Some(Confirmed) {
        FallbackIsDetermined(world, row, remaining - k, a, v, n - k, w, m - k);
      }
    }
  }

  /** No verdict means that the budget is gone. */
  lemma {:induction false} NoVerdictNoBudget(world: World, bridged: bool, row: Row, remaining: int, used: nat)
    requires Answers(world, bridged, row, remaining, None, used)
    ensures used == Budget(remaining)
  {
  }

  /** A budget of as many searches as a row has titles is enough for a verdict on it. */
  lemma {:induction false} EnoughBudgetDecides(world: World, bridged: bool, row: Row, remaining: int,
                                               verdict: Option<Verdict>, used: int)
    requires Answers(world, bridged, row, remaining, verdict, used) && remaining >= |row.titles|
    ensures verdict.Some?
  {
  }

  /** Without the bridge, a row for which nothing is found is decided exactly with that budget; with less it is put off,
      however often it is tried. */
  lemma {:induction false} NothingFoundDecidedIff(world: World, row: Row, remaining: int,
                                                  verdict: Option<Verdict>, used: int)
    requires row.hasMetadata && row.titles != [] && forall k :: 0 <= k < |row.titles| ==> FoundNone(world, row.id, k)
    requires Answers(world, false, row, remaining, verdict, used)
    ensures verdict == None <==> remaining < |row.titles|
  {
    assert used > 0 ==> FoundNone(world, row.id, used - 1);
  }

  lemma {:induction false} TooLittleIsAnAnswer(world: World, row: Row, remaining: int)
    requires row.hasMetadata && row.titles != [] && remaining < |row.titles|
    requires forall k :: 0 <= k < |row.titles| ==> FoundNone(world, row.id, k)
    ensures Answers(world, false, row, remaining, None, Budget(remaining))
  {
  }

  /** The verdicts of a pass, in order, with the searches each took. */
  datatype Turn = Turn(verdict: Verdict, used: nat)

  function SearchesOf(turns: seq<Turn>): nat {
    if turns == [] then 0 else SearchesOf(turns[..|turns| - 1]) + turns[|turns| - 1].used
  }

  function ConfirmedOf(turns: seq<Turn>): nat {
    if turns == [] then 0 else
      ConfirmedOf(turns[..|turns| - 1]) + if turns[|turns| - 1].verdict == Confirmed then 1 else 0
  }

  /** Every row had what the rows before it left of the budget. */
  ghost predicate Transcribes(world: World, bridged: bool, rows: seq<Row>, limit: int, turns: seq<Turn>) {
    && |turns| <= |rows|
    && forall i :: 0 <= i < |turns| ==>
         Answers(world, bridged, rows[i], limit - SearchesOf(turns[..i]), Some(turns[i].verdict), turns[i].used)
  }

  lemma {:induction false} SumsGrow(turns: seq<Turn>, turn: Turn)
    ensures SearchesOf(turns + [turn]) == SearchesOf(turns) + turn.used
    ensures ConfirmedOf(turns + [turn]) == ConfirmedOf(turns) + if turn.verdict == Confirmed then 1 else 0
  {
    assert (turns + [turn])[..|turns|] == turns;
  }

  lemma {:induction false} TurnAdds(world: World, bridged: bool, rows: seq<Row>, limit: int, turns: seq<Turn>,
                                    turn: Turn)
    requires Transcribes(world, bridged, rows, limit, turns) && |turns| < |rows|
    requires Answers(world, bridged, rows[|turns|], limit - SearchesOf(turns), Some(turn.verdict), turn.used)
    ensures Transcribes(world, bridged, rows, limit, turns + [turn])
  {
    hide Answers, SearchesOf;
    var more := turns + [turn];
    forall i | 0 <= i < |more|
      ensures more[..i] == turns[..i]
    {
    }
    assert turns[..|turns|] == turns;
  }

  /** The books of a pass over some rows, of which it has spent so many searches. They are never overspent, and what the
      services answer determines the verdicts and their costs, whether or not the pass is aborted. On a normal return
      exactly what was spent is reported, and every row is either processed or, once the budget is gone, deferred. */
  ghost predicate Accounts(world: World, bridged: bool, rows: seq<Row>, limit: int, spent: int, result: Result,
                           raised: bool, turns: seq<Turn>)
  {
    && 0 <= spent <= Budget(limit) && result.processed <= |rows|
    && Transcribes(world, bridged, rows, limit, turns)
    && |turns| == result.processed && result.confirmed == ConfirmedOf(turns)
    && (!raised ==>
          && spent == result.searchesUsed && result.processed + result.deferred == |rows|
          && (result.deferred == 0 ==> result.searchesUsed == SearchesOf(turns))
          && (result.deferred > 0 ==>
                && result.searchesUsed == Budget(limit)
                && Answers(world, bridged, rows[|turns|], limit - SearchesOf(turns), None,
                           result.searchesUsed - SearchesOf(turns))))
  }

  /** The row after those decided raised, or its assessment could not be recorded. */
  ghost predicate AbortedAt(world: World, bridged: bool, rows: seq<Row>, limit: int, turns: seq<Turn>) {
    && |turns| < |rows|
    && (world.recordRaises(rows[|turns|].id) || Raises(world, bridged, rows[|turns|], limit - SearchesOf(turns)))
  }

  /** The books while the first `k` rows have been decided. */
  ghost predicate Books(world: World, bridged: bool, rows: seq<Row>, limit: int, turns: seq<Turn>, k: nat, spent: int,
                        confirmed: nat)
  {
    && Transcribes(world, bridged, rows, limit, turns) && |turns| == k
    && spent == SearchesOf(turns) && spent <= Budget(limit) && confirmed == ConfirmedOf(turns)
  }

  lemma {:induction false} NoBooksYet(world: World, bridged: bool, rows: seq<Row>, limit: int)
    ensures Books(world, bridged, rows, limit, [], 0, 0, 0)
  {
    NoTurnsYet(world, bridged, rows, limit);
  }

  lemma {:induction false} BooksGrow(world: World, bridged: bool, rows: seq<Row>, limit: int, turns: seq<Turn>, k: nat,
                                     spent: int, confirmed: nat, verdict: Verdict, used: nat)
    requires k < |rows| && Books(world, bridged, rows, limit, turns, k, spent, confirmed)
    requires Answers(world, bridged, rows[k], limit - spent, Some(verdict), used) && spent + used <= Budget(limit)
    ensures Books(world, bridged, rows, limit, turns + [Turn(verdict, used)], k + 1, spent + used,
                  confirmed + if verdict == Confirmed then 1 else 0)
  {
    hide Answers, Transcribes, SearchesOf, ConfirmedOf;
    TurnAdds(world, bridged, rows, limit, turns, Turn(verdict, used));
    SumsGrow(turns, Turn(verdict, used));
  }

  /** The books when a row raised: its searches have been spent, but it is not decided. */
  lemma {:induction false} BooksAbort(world: World, bridged: bool, rows: seq<Row>, limit: int, turns: seq<Turn>, k: nat,
                                      spent: int, confirmed: nat, total: int, reported: nat)
    requires k < |rows| && Books(world, bridged, rows, limit, turns, k, spent, confirmed)
    requires spent <= total <= Budget(limit)
    requires world.recordRaises(rows[k].id) || Raises(world, bridged, rows[k], limit - spent)
    ensures Accounts(world, bridged, rows, limit, total, Result(k, confirmed, reported, 0), true, turns)
    ensures AbortedAt(world, bridged, rows, limit, turns)
  {
    hide Answers, Raises, Transcribes, SearchesOf, ConfirmedOf;
  }

  /** The books when all rows have been decided. */
  lemma {:induction false} BooksClose(world: World, bridged: bool, rows: seq<Row>, limit: int, turns: seq<Turn>,
                                      spent: nat, confirmed: nat)
    requires Books(world, bridged, rows, limit, turns, |rows|, spent, confirmed)
    ensures Accounts(world, bridged, rows, limit, spent, Result(|rows|, confirmed, spent, 0), false, turns)
  {
    hide Transcribes, SearchesOf, ConfirmedOf;
  }

  /** The books when the budget is gone: the other rows are deferred. */
  lemma {:induction false} BooksDefer(world: World, bridged: bool, rows: seq<Row>, limit: int, turns: seq<Turn>, k: nat,
                                      spent: nat, confirmed: nat, used: nat)
    requires k < |rows| && Books(world, bridged, rows, limit, turns, k, spent, confirmed)
    requires Answers(world, bridged, rows[k], limit - spent, None, used) && spent + used <= Budget(limit)
    ensures Accounts(world, bridged, rows, limit, spent + used, Result(k, confirmed, spent + used, |rows| - k), false,
                     turns)
  {
    hide Answers, Transcribes, SearchesOf, ConfirmedOf;
    NoVerdictNoBudget(world, bridged, rows[k], limit - spent, used);
  }

  lemma {:induction false} NothingAccounted(world: World, bridged: bool, rows: seq<Row>, limit: int)
    ensures Accounts(world, bridged, rows, limit, 0, Result(0, 0, 0, 0), true, [])
    ensures rows == [] ==> Accounts(world, bridged, rows, limit, 0, Result(0, 0, 0, 0), false, [])
  {
  }

  lemma {:induction false} AccountsStand(world: World, bridged: bool, rows: seq<Row>, limit: int, spent: int,
                                         result: Result, turns: seq<Turn>)
    requires Accounts(world, bridged, rows, limit, spent, result, false, turns)
    ensures Accounts(world, bridged, rows, limit, spent, result, true, turns)
    ensures result.processed <= |rows|
  {
  }

  lemma {:induction false} NoTurnsYet(world: World, bridged: bool, rows: seq<Row>, limit: int)
    ensures Transcribes(world, bridged, rows, limit, []) && SearchesOf([]) == 0 == ConfirmedOf([])
  {
  }

  /** Two transcripts of one pass agree as far as both go. */
  lemma {:induction false} TranscriptsAgree(world: World, bridged: bool, rows: seq<Row>, limit: int,
                                            a: seq<Turn>, b: seq<Turn>)
    requires Transcribes(world, bridged, rows, limit, a) && Transcribes(world, bridged, rows, limit, b)
    requires |a| <= |b|
    ensures a <= b
  {
    hide Answers, SearchesOf;
    if a != [] {
      var k := |a| - 1;
      forall i | 0 <= i <= k
        ensures a[..k][..i] == a[..i]
      {
      }
      TranscriptsAgree(world, bridged, rows, limit, a[..k], b);
      assert a[..k] == b[..k];
      AnswerIsDetermined(world, bridged, rows[k], limit - SearchesOf(a[..k]),
                         Some(a[k].verdict), a[k].used, Some(b[k].verdict), b[k].used);
    }
  }

  // ---------------------------------------------------------------- passes

  /** One pass: the rows eligible for it, the cursor before and after, and all rows assessed by its end. */
  datatype Pass = Pass(eligible: set<Id>, before: Option<Id>, after: Option<Id>, assessed: set<Id>)

  ghost predicate SkipsNothing(pass: Pass) {
    pass.after.Some? ==>
      forall id :: id in pass.eligible && After(pass.before, id) && id <= pass.after.value ==> id in pass.assessed
  }

  ghost predicate StartsOverAtTheEnd(pass: Pass) {
    pass.before.Some? && pass.after == None ==> forall id :: id in pass.eligible ==> !After(pass.before, id)
  }

  /** Where the cursor goes: to the last background row assessed, and back to the start if there was no row at all. */
  function NextCursor(before: Option<Id>, priority: seq<Row>, fallback: seq<Row>, processed: nat): Option<Id>
    requires processed <= |priority| + |fallback|
  {
    if priority == [] && fallback == [] then None
    else if processed <= |priority| then before else Some(fallback[processed - |priority| - 1].id)
  }

  /** A pass as `RunOnce` makes it. */
  ghost predicate MadeOf(pass: Pass, priority: seq<Row>, fallback: seq<Row>, limit: int, processed: nat) {
    && |priority| <= Budget(limit) && processed <= |priority| + |fallback|
    && IsFallback(pass.eligible, pass.before, priority, limit - |priority|, fallback)
    && pass.after == NextCursor(pass.before, priority, fallback, processed)
    && Assessed(priority + fallback, processed) <= pass.assessed
  }

  /** A pass that has come to its end keeps what passes promise. */
  lemma {:induction false} MadePassesKeep(pass: Pass, priority: seq<Row>, fallback: seq<Row>, limit: int,
                                          processed: nat)
    requires MadeOf(pass, priority, fallback, limit, processed)
    ensures SkipsNothing(pass)
    ensures limit >= 1 ==> StartsOverAtTheEnd(pass)
  {
    hide IsFallback, SkipsNothing, StartsOverAtTheEnd;
    if priority == [] && fallback == [] {
      NothingLeft(pass.eligible, pass.before, limit, pass.assessed);
    } else {
      CursorSkipsNothing(pass.eligible, pass.before, priority, fallback, limit, processed, pass.assessed);
    }
  }

  /** No eligible row between the old and the new cursor was passed over, and starting over means the end was
      reached. */
  ghost predicate Keeps(pass: Pass, limit: int) {
    SkipsNothing(pass) && (limit >= 1 ==> StartsOverAtTheEnd(pass))
  }

  lemma {:induction false} PassEnds(pass: Pass, priority: seq<Row>, fallback: seq<Row>, limit: int, processed: nat,
                                    before: set<Id>)
    requires |priority| <= Budget(limit) && processed <= |priority| + |fallback|
    requires IsFallback(pass.eligible, pass.before, priority, limit - |priority|, fallback)
    requires pass.after == NextCursor(pass.before, priority, fallback, processed)
    requires pass.assessed == before + Assessed(priority + fallback, processed)
    ensures MadeOf(pass, priority, fallback, limit, processed) && Keeps(pass, limit)
  {
    hide IsFallback, SkipsNothing, StartsOverAtTheEnd, Assessed, NextCursor;
    MadePassesKeep(pass, priority, fallback, limit, processed);
  }

  lemma {:induction false} NothingAssessed(rows: seq<Row>)
    ensures Assessed(rows, 0) == {}
  {
  }

  lemma {:induction false} OneMoreAssessed(rows: seq<Row>, k: nat)
    requires k < |rows|
    ensures Assessed(rows, k + 1) == Assessed(rows, k) + {rows[k].id}
  {
  }

  /** A pass starts over exactly when there is neither a priority row nor an eligible row beyond the cursor. */
  lemma {:induction false} StartsOverIff(pass: Pass, priority: seq<Row>, fallback: seq<Row>, limit: int, processed: nat)
    requires MadeOf(pass, priority, fallback, limit, processed) && pass.before.Some? && limit >= 1
    ensures pass.after == None <==> priority == [] && forall id :: id in pass.eligible ==> !After(pass.before, id)
  {
    if priority == [] && fallback == [] {
      assert forall id :: !HasId([], id);
    } else if priority == [] {
      assert fallback[0].id in pass.eligible && After(pass.before, fallback[0].id);
    }
  }

  /** The pass has moved the cursor forward, to an eligible row. */
  predicate MovesOn(pass: Pass) {
    pass.after.Some? && After(pass.before, pass.after.value) && pass.after.value in pass.eligible
  }

  /** Without priority rows, and with a limit that is enough for the first row, a pass moves the cursor forward. */
  lemma {:induction false} FirstRowMovesOn(world: World, bridged: bool, pass: Pass, priority: seq<Row>,
                                           fallback: seq<Row>, limit: int, spent: int, result: Result, turns: seq<Turn>)
    requires MadeOf(pass, priority, fallback, limit, result.processed)
    requires Accounts(world, bridged, priority + fallback, limit, spent, result, false, turns)
    ensures priority == [] && fallback != [] && limit >= |fallback[0].titles| ==> MovesOn(pass)
  {
    hide Answers;
    if priority == [] && fallback != [] && limit >= |fallback[0].titles| && turns == [] {
      assert (priority + fallback)[0] == fallback[0];
      EnoughBudgetDecides(world, bridged, fallback[0], limit, None, result.searchesUsed);
    }
  }

  /** The eligible rows up to the cursor. */
  function Behind(eligible: set<Id>, cursor: Option<Id>): set<Id> {
    set id | id in eligible && !After(cursor, id)
  }

  /** Passes over the same rows that move on, one after the other, have one more row behind them each time. */
  lemma {:induction false} MovingLeavesRowsBehind(passes: seq<Pass>, eligible: set<Id>)
    requires forall i :: 0 <= i < |passes| ==> MovesOn(passes[i]) && passes[i].eligible <= eligible
    requires forall i :: 0 < i < |passes| ==> passes[i].before == passes[i - 1].after
    ensures passes != [] ==> |Behind(eligible, passes[|passes| - 1].after)| >= |passes|
  {
    if |passes| > 0 {
      var k := |passes| - 1;
      var last := passes[k];
      MovingLeavesRowsBehind(passes[..k], eligible);
      var now := Behind(eligible, last.after);
      assert last.after.value in now;
      if k > 0 {
        assert passes[..k][k - 1].after == last.before;
        var earlier := Behind(eligible, last.before);
        assert earlier + {last.after.value} <= now;
        SubsetIsSmaller(earlier + {last.after.value}, now);
      } else {
        SubsetIsSmaller({last.after.value}, now);
      }
    }
  }

  /** A sweep ends: over a fixed set of rows, no more passes in a row can move on than there are rows. A pass that does
      not, with no priority row and a limit that is enough for the first row, starts over. */
  lemma {:induction false} SweepsEnd(passes: seq<Pass>, eligible: set<Id>)
    requires forall i :: 0 <= i < |passes| ==> MovesOn(passes[i]) && passes[i].eligible <= eligible
    requires forall i :: 0 < i < |passes| ==> passes[i].before == passes[i - 1].after
    ensures |passes| <= |eligible|
  {
    if passes != [] {
      MovingLeavesRowsBehind(passes, eligible);
      SubsetIsSmaller(Behind(eligible, passes[|passes| - 1].after), eligible);
    }
  }

  /** The passes that each find one new priority row, and nothing beyond the cursor. */
  function PuttingOff(n: nat, cursor: Id, behind: Id): seq<Pass> {
    if n == 0 then [] else
      PuttingOff(n - 1, cursor, behind)
      + [Pass({behind, cursor + n}, Some(cursor), Some(cursor), UpTo(n, cursor))]
  }

  function UpTo(n: nat, cursor: Id): (ids: set<Id>)
    ensures n > 0 ==> cursor + n in ids
    ensures forall id :: id in ids ==> id > cursor
  {
    if n == 0 then {} else UpTo(n - 1, cursor) + {cursor + n}
  }

  function PriorityRow(cursor: Id, n: nat): Row {
    Row(cursor + n, true, ["a title"])
  }

  /** As long as every pass finds a priority row, the cursor never starts over, and a row behind it is overlooked
      throughout: for any number of passes, any limit and any such row. */
  lemma {:induction false} StartCanBePutOff(n: nat, cursor: Id, behind: Id, limit: int)
    requires behind <= cursor && limit >= 1
    ensures var passes := PuttingOff(n, cursor, behind);
            && |passes| == n && Chained(passes) && Overlooked(passes, behind)
            && forall i :: 0 <= i < n ==>
                 && passes[i].before == Some(cursor) == passes[i].after
                 && MadeOf(passes[i], [PriorityRow(cursor, i + 1)], [], limit, 1)
  {
    hide Chained, Overlooked, MadeOf;
    if n > 0 {
      StartCanBePutOff(n - 1, cursor, behind, limit);
      OnePassMore(n, cursor, behind, limit);
    } else {
      NoPassYet(behind);
    }
  }

  lemma {:induction false} NoPassYet(id: Id)
    ensures Chained([]) && Overlooked([], id)
  {
  }

  lemma {:induction false} OnePassMore(n: nat, cursor: Id, behind: Id, limit: int)
    requires n > 0 && behind <= cursor && limit >= 1
    requires var passes := PuttingOff(n - 1, cursor, behind);
             && |passes| == n - 1 && Chained(passes) && Overlooked(passes, behind)
             && forall i :: 0 <= i < n - 1 ==> passes[i].before == Some(cursor) == passes[i].after
    ensures var passes := PuttingOff(n, cursor, behind);
            Chained(passes) && Overlooked(passes, behind)
            && MadeOf(passes[n - 1], [PriorityRow(cursor, n)], [], limit, 1)
  {
    var pass := PuttingOff(n, cursor, behind)[n - 1];
    var row := PriorityRow(cursor, n);
    assert [row][0].id == cursor + n;
    forall id | id in pass.eligible && After(pass.before, id)
      ensures HasId([row], id)
    {
    }
    assert [row] + [] == [row];
    assert forall id :: id in Assessed([row], 1) ==> id == cursor + n;
  }

  lemma {:induction false} CursorSkipsNothing(eligible: set<Id>, before: Option<Id>, priority: seq<Row>,
                                              fallback: seq<Row>, limit: int, processed: nat, assessed: set<Id>)
    requires IsFallback(eligible, before, priority, limit - |priority|, fallback)
    requires processed <= |priority| + |fallback| && Assessed(priority + fallback, processed) <= assessed
    ensures var after := if processed <= |priority| then before else Some(fallback[processed - |priority| - 1].id);
            SkipsNothing(Pass(eligible, before, after, assessed))
            && StartsOverAtTheEnd(Pass(eligible, before, after, assessed))
  {
    if processed > |priority| {
      var rows := priority + fallback;
      var last := fallback[processed - |priority| - 1].id;
      forall id | id in eligible && After(before, id) && id <= last
        ensures id in assessed
      {
        if i :| 0 <= i < |priority| && priority[i].id == id {
          assert rows[i].id == id && id in Assessed(rows, processed);
        } else {
          assert !HasId(priority, id) && HasId(fallback, id);
          var i :| 0 <= i < |fallback| && fallback[i].id == id;
          assert rows[|priority| + i].id == id && id in Assessed(rows, processed);
        }
      }
    }
  }

  lemma {:induction false} NothingLeft(eligible: set<Id>, before: Option<Id>, limit: int, assessed: set<Id>)
    requires IsFallback(eligible, before, [], limit, [])
    ensures SkipsNothing(Pass(eligible, before, None, assessed))
    ensures limit >= 1 ==> StartsOverAtTheEnd(Pass(eligible, before, None, assessed))
  {
    forall id | id in eligible && limit >= 1
      ensures !After(before, id)
    {
      assert !HasId([], id);
    }
  }

  /** Passes that follow one another, each going on from the cursor the one before it left. */
  ghost predicate Chained(passes: seq<Pass>) {
    && (forall i :: 0 <= i < |passes| ==> SkipsNothing(passes[i]) && StartsOverAtTheEnd(passes[i]))
    && (forall i :: 0 < i < |passes| ==> passes[i].before == passes[i - 1].after)
  }

  /** The row is eligible for every one of the passes and assessed by the end of none. */
  ghost predicate Overlooked(passes: seq<Pass>, id: Id) {
    forall i :: 0 <= i < |passes| ==> id in passes[i].eligible && id !in passes[i].assessed
  }

  lemma {:induction false} OverlookedIsAhead(passes: seq<Pass>, id: Id)
    requires passes != [] && Chained(passes) && Overlooked(passes, id)
    requires passes[0].before == None
    requires forall i :: 0 <= i < |passes| - 1 ==> passes[i].before.Some? ==> passes[i].after.Some?
    ensures After(passes[|passes| - 1].before, id)
  {
    var k := |passes| - 1;
    if k > 0 {
      OverlookedIsAhead(passes[..k], id);
      var last := passes[k - 1];
      assert SkipsNothing(last) && id in last.eligible && id !in last.assessed;
      assert passes[..k][k - 1] == last;
    }
  }

  /** Over a whole sweep, from a fresh cursor to the pass that starts over, no row that is eligible throughout is
      overlooked, however small the budget and whatever the priority rows were. */
  lemma {:induction false} SweepsOverlookNothing(passes: seq<Pass>, id: Id)
    requires passes != [] && Chained(passes) && passes[0].before == None
    requires forall i :: 0 <= i < |passes| - 1 ==> passes[i].before.Some? ==> passes[i].after.Some?
    requires passes[|passes| - 1].before.Some? && passes[|passes| - 1].after == None
    ensures !Overlooked(passes, id)
  {
    var last := passes[|passes| - 1];
    if Overlooked(passes, id) {
      OverlookedIsAhead(passes, id);
      assert false;
    }
  }

  class LinkDiscovery {
    const world: World
    const bridgeEnabled: bool
    /** How many search requests have been sent to either service. */
    var calls: nat
    var cursor: Option<Id>
    /** The rows with a recorded assessment. */
    var assessed: set<Id>

    constructor (world: World, bridgeEnabled: bool, cursor: Option<Id>)
      ensures calls == 0 && assessed == {} && this.cursor == cursor
      ensures this.world == world && this.bridgeEnabled == bridgeEnabled
    {
      this.world, this.bridgeEnabled, this.cursor := world, bridgeEnabled, cursor;
      calls, assessed := 0, {};
    }

    /** The calls sent since then are those reported, or the pass is aborted; either way the budget is respected. */
    twostate predicate Spent(remaining: int, used: nat, raised: bool)
      reads this
    {
      && old(calls) <= calls <= old(calls) + Budget(remaining)
      && (!raised ==> calls == old(calls) + used)
    }

    method DiscoverViaAniList(row: Row, remaining: int) returns (verdict: Option<Verdict>, used: nat, raised: bool)
      modifies this`calls
      ensures Spent(remaining, used, raised)
      ensures if raised then AniListRaises(world, row, remaining)
              else AniListAnswers(world, row, remaining, verdict, used)
    {
      used := 0;
      for k := 0 to |row.titles|
        invariant used == k && calls == old(calls) + used && used <= Budget(remaining)
        invariant forall j :: 0 <= j < k ==> FoundNone(world, row.id, j)
      {
        if used >= remaining {
          return None, used, false;
        }
        calls := calls + 1;
        match world.searchReply(row.id, k) {
          case SearchRaises =>
            return None, used, true;
          case Found(candidates, confirmation) =>
            used := used + 1;
            if candidates == 1 {
              match confirmation {
                case ConfirmRaises => return None, used, true;
                case Succeeds => return Some(Confirmed), used, false;
                case Fails => return Some(SyncFailed), used, false;
              }
            }
            if candidates > 1 {
              return Some(Ambiguous), used, false;
            }
        }
      }
      return Some(NoCandidate), used, false;
    }

    method DiscoverViaAnimeSchedule(row: Row, remaining: int)
      returns (verdict: Option<Verdict>, used: nat, raised: bool)
      modifies this`calls
      ensures Spent(remaining, used, raised)
      ensures if raised then BridgeFails(world, row, remaining)
              else BridgeAnswers(world, row, remaining, verdict, used)
    {
      used := 0;
      var successful: nat := 0;
      for k := 0 to |row.titles|
        invariant used == k && calls == old(calls) + used && used <= Budget(remaining)
        invariant forall j :: 0 <= j < k ==> !world.bridgeReply(row.id, j).RateLimited?
        invariant successful > 0 <==> exists j :: 0 <= j < k && world.bridgeReply(row.id, j).Answered?
      {
        if used >= remaining {
          return None, used, false;
        }
        calls := calls + 1;
        match world.bridgeReply(row.id, k) {
          case RateLimited =>
            return None, used, true;
          case Failed =>
            used := used + 1;
          case Answered =>
            used := used + 1;
            successful := successful + 1;
        }
      }
      if successful == 0 {
        return Some(SourceError), used, false;
      }
      match world.bridgeVerdict(row.id) {
        case BridgeRaises => return None, used, true;
        case Concludes(v) => return Some(v), used, false;
      }
    }

    method Discover(row: Row, remaining: int) returns (verdict: Option<Verdict>, used: nat, raised: bool)
      modifies this`calls
      ensures Spent(remaining, used, raised)
      ensures if raised then Raises(world, bridgeEnabled, row, remaining)
              else Answers(world, bridgeEnabled, row, remaining, verdict, used)
    {
      hide AniListAnswers, BridgeAnswers, AniListRaises, BridgeFails;
      if !row.hasMetadata {
        return Some(MissingMetadata), 0, false;
      }
      var bridged := 0;
      var bridge: Option<Verdict> := None;
      if bridgeEnabled {
        bridge, bridged, raised := DiscoverViaAnimeSchedule(row, remaining);
        if raised || bridge == None || bridge == Some(Confirmed) {
          return bridge, bridged, raised;
        }
      }
      verdict, used, raised := DiscoverViaAniList(row, remaining - bridged);
      if raised {
        return;
      }
      used := used + bridged;
      if bridgeEnabled && verdict != Some(Confirmed) {
        verdict := bridge;
      }
    }

    /** One pass over the priority rows and then the background rows. */
    method RunOnce(limit: int, ghost eligible: set<Id>, priority: seq<Row>, fallback: seq<Row>,
                   queryRaises: bool, writeRaises: bool)
      returns (result: Result, raised: bool, ghost turns: seq<Turn>)
      requires |priority| <= Budget(limit)
      requires IsFallback(eligible, cursor, priority, limit - |priority|, fallback)
      modifies this
      ensures Accounts(world, bridgeEnabled, priority + fallback, limit, calls - old(calls), result, raised, turns)
      ensures assessed == old(assessed) + Assessed(priority + fallback, result.processed)
      ensures queryRaises ==> raised && calls == old(calls)
      ensures writeRaises ==> raised
      ensures raised && !queryRaises && !writeRaises ==>
                AbortedAt(world, bridgeEnabled, priority + fallback, limit, turns)
      ensures raised ==> cursor == old(cursor)
      // The cursor goes where it should.
      ensures var pass := Pass(eligible, old(cursor), cursor, assessed);
              !raised ==>
                && MadeOf(pass, priority, fallback, limit, result.processed)
                && Keeps(pass, limit)
                && (priority == [] && fallback != [] && limit >= |fallback[0].titles| ==> MovesOn(pass))
    {
      hide IsFallback, Keeps, HasId, Accounts, AbortedAt, MovesOn, Assessed;
      var rows := priority + fallback;
      ghost var start := cursor;
      NothingAccounted(world, bridgeEnabled, rows, limit);
      NothingAssessed(rows);
      if queryRaises {
        return Result(0, 0, 0, 0), true, [];
      }
      if rows == [] && cursor.Some? {
        assert priority == [] && fallback == [];
        if writeRaises {
          return Result(0, 0, 0, 0), true, [];
        }
        cursor := None;
        PassEnds(Pass(eligible, start, None, assessed), priority, fallback, limit, 0, old(assessed));
        return Result(0, 0, 0, 0), false, [];
      }
      var lastFallback;
      result, raised, lastFallback, turns := Assess(rows, |priority|, limit);
      if raised {
        return;
      }
      AccountsStand(world, bridgeEnabled, rows, limit, calls - old(calls), result, turns);
      if writeRaises {
        raised := true;
        return;
      }
      if lastFallback.Some? {
        cursor := lastFallback;
      }
      ghost var pass := Pass(eligible, start, cursor, assessed);
      PassEnds(pass, priority, fallback, limit, result.processed, old(assessed));
      FirstRowMovesOn(world, bridgeEnabled, pass, priority, fallback, limit, calls - old(calls), result, turns);
    }

    /** Decides one row after the other, as far as the budget goes. */
    method Assess(rows: seq<Row>, priorityCount: nat, limit: int)
      returns (result: Result, raised: bool, lastFallback: Option<Id>, ghost turns: seq<Turn>)
      modifies this`calls, this`assessed
      ensures Accounts(world, bridgeEnabled, rows, limit, calls - old(calls), result, raised, turns)
      ensures result.processed <= |rows| && assessed == old(assessed) + Assessed(rows, result.processed)
      ensures lastFallback == if result.processed <= priorityCount then None else Some(rows[result.processed - 1].id)
      ensures raised ==> AbortedAt(world, bridgeEnabled, rows, limit, turns)
    {
      hide Answers, Raises, Books, Accounts, AbortedAt, Assessed;
      var confirmed: nat, processed: nat, searchesUsed: nat := 0, 0, 0;
      lastFallback, turns := None, [];
      NoBooksYet(world, bridgeEnabled, rows, limit);
      NothingAssessed(rows);
      for index := 0 to |rows|
        invariant processed == index && calls == old(calls) + searchesUsed && searchesUsed <= Budget(limit)
        invariant Books(world, bridgeEnabled, rows, limit, turns, index, searchesUsed, confirmed)
        invariant assessed == old(assessed) + Assessed(rows, index)
        invariant lastFallback == if index <= priorityCount then None else Some(rows[index - 1].id)
      {
        var row := rows[index];
        ghost var spent := searchesUsed;
        var verdict, used, aborted := Discover(row, limit - searchesUsed);
        if aborted {
          BooksAbort(world, bridgeEnabled, rows, limit, turns, index, spent, confirmed, calls - old(calls),
                     searchesUsed);
          return Result(processed, confirmed, searchesUsed, 0), true, lastFallback, turns;
        }
        searchesUsed := searchesUsed + used;
        if verdict == None {
          BooksDefer(world, bridgeEnabled, rows, limit, turns, index, spent, confirmed, used);
          return Result(processed, confirmed, searchesUsed, |rows| - index), false, lastFallback, turns;
        }
        if world.recordRaises(row.id) {
          BooksAbort(world, bridgeEnabled, rows, limit, turns, index, spent, confirmed, calls - old(calls),
                     searchesUsed);
          return Result(processed, confirmed, searchesUsed, 0), true, lastFallback, turns;
        }
        BooksGrow(world, bridgeEnabled, rows, limit, turns, index, spent, confirmed, verdict.value, used);
        turns := turns + [Turn(verdict.value, used)];
        assessed := assessed + {row.id};
        OneMoreAssessed(rows, index);
        processed := processed + 1;
        if verdict == Some(Confirmed) {
          confirmed := confirmed + 1;
        }
        if index >= priorityCount {
          lastFallback := Some(row.id);
        }
      }
      BooksClose(world, bridgeEnabled, rows, limit, turns, searchesUsed, confirmed);
      return Result(processed, confirmed, searchesUsed, 0), false, lastFallback, turns;
    }
  }
}
