/** The broadcast calendar: from many sources' rows to one card per title and day, and the choice of a source for one
    episode. Days are numbered, times are in microseconds, and the time zone is a fixed offset. */
module ScheduleBoard {
  import opened Options
  import opened Sequences
  import opened Sorting
  import opened Durations
  import opened Identifiers

  datatype Provider = AnimeSchedule | AniList | Bangumi | OtherProvider(name: Id)

  /** An occurrence with its anime and source. `episode` is the number its label stands for, `normalTitle` the
      normalized display title unless that is blank, `titleText` the place of the display title in string order. */
  datatype Row = Row(
    animeId: Id,
    episodeLabel: string,
    episode: Option<nat>,
    provider: Provider,
    airAt: Option<int>,
    airDay: int,
    normalTitle: Option<string>,
    titleText: int)

  // ---------------------------------------------------------------- the source's comparisons

  function SourcePriority(provider: Provider): nat {
    match provider case AnimeSchedule => 0 case AniList => 1 case Bangumi => 2 case OtherProvider(_) => 99
  }

  predicate PreferScheduleRow(candidate: Row, current: Row) {
    if candidate.airAt.Some? != current.airAt.Some? then candidate.airAt.Some?
    else SourcePriority(candidate.provider) < SourcePriority(current.provider)
  }

  /** Episode zero ranks like an episode without a number. */
  function RankNumber(row: Row): int {
    if row.episode == None || row.episode.value == 0 then -1 else row.episode.value
  }

  /** The rank tuples compare greater: newer episode first, then an exact time, then the later time. */
  predicate RanksAbove(a: Row, b: Row) {
    || RankNumber(a) > RankNumber(b)
    || (RankNumber(a) == RankNumber(b) &&
          ((a.airAt.Some? && b.airAt == None) || (a.airAt.Some? && b.airAt.Some? && a.airAt.value > b.airAt.value)))
  }

  function LocalDay(row: Row, offset: int): int {
    if row.airAt.Some? then (row.airAt.value + offset) / DAY else row.airDay
  }

  /** Two rows of one anime are about the same episode if their labels agree. */
  datatype EpisodeKey = EpisodeKey(animeId: Id, episodeLabel: string)

  function EpisodeOf(row: Row): EpisodeKey {
    EpisodeKey(row.animeId, row.episodeLabel)
  }

  lemma {:induction false} OneEpisodeIff(a: Row, b: Row)
    ensures EpisodeOf(a) == EpisodeOf(b) <==> a.animeId == b.animeId && a.episodeLabel == b.episodeLabel
  {
  }

  datatype TitleKey = Titled(text: string) | Untitled(animeId: Id)

  datatype CardKey = CardKey(day: int, title: TitleKey)

  function CardOf(row: Row, offset: int): CardKey {
    CardKey(LocalDay(row, offset),
            if row.normalTitle.Some? then Titled(row.normalTitle.value) else Untitled(row.animeId))
  }

  /** What the query lets through. */
  predicate InRange(row: Row, startDay: int, endDay: int, offset: int) {
    match row.airAt
    case None => startDay <= row.airDay < endDay
    case Some(t) => startDay * DAY - offset <= t < endDay * DAY - offset
  }

  lemma {:induction false} RangeIsLocal(row: Row, startDay: int, endDay: int, offset: int)
    requires InRange(row, startDay, endDay, offset)
    ensures startDay <= LocalDay(row, offset) < endDay
  {
  }

  // ---------------------------------------------------------------- stage one: one row per episode

  /** A row of this episode that no other row of it is preferred to. */
  ghost predicate IsWinner(rows: seq<Row>, key: EpisodeKey, winner: Row) {
    && winner in rows && EpisodeOf(winner) == key
    && forall r :: r in rows && EpisodeOf(r) == key ==> !PreferScheduleRow(r, winner)
  }

  ghost predicate WinnersOf(rows: seq<Row>, selected: map<EpisodeKey, Row>) {
    && (forall r :: r in rows ==> EpisodeOf(r) in selected)
    && (forall key :: key in selected ==> IsWinner(rows, key, selected[key]))
  }

  ghost predicate Lists<K(!new)>(order: seq<K>, keys: set<K>) {
    Distinct(order) && forall k :: k in order <==> k in keys
  }

  lemma {:induction false} WinnersGrow(rows: seq<Row>, row: Row, selected: map<EpisodeKey, Row>)
    requires WinnersOf(rows, selected)
    ensures var key := EpisodeOf(row);
            var replaced := key !in selected || PreferScheduleRow(row, selected[key]);
            WinnersOf(rows + [row], if replaced then selected[key := row] else selected)
  {
    var key := EpisodeOf(row);
    var replaced := key !in selected || PreferScheduleRow(row, selected[key]);
    var now := if replaced then selected[key := row] else selected;
    forall k | k in now
      ensures IsWinner(rows + [row], k, now[k])
    {
      if k in selected {
        assert IsWinner(rows, k, selected[k]);
      }
      forall r | r in rows + [row] && EpisodeOf(r) == k
        ensures !PreferScheduleRow(r, now[k])
      {
        if r in rows {
          assert k in selected && !PreferScheduleRow(r, selected[k]);
        }
      }
    }
  }

  /** The first fold: rows arrive in any order, and a row replaces the one kept for its episode if it is preferred. */
  method SelectPerEpisode(rows: seq<Row>) returns (order: seq<EpisodeKey>, selected: map<EpisodeKey, Row>)
    ensures WinnersOf(rows, selected) && Lists(order, selected.Keys)
  {
    order, selected := [], map[];
    for k := 0 to |rows|
      invariant WinnersOf(rows[..k], selected) && Lists(order, selected.Keys)
    {
      hide WinnersOf;
      var row := rows[k];
      var key := EpisodeOf(row);
      WinnersGrow(rows[..k], row, selected);
      assert rows[..k + 1] == rows[..k] + [row];
      if key !in selected {
        order := order + [key];
        selected := selected[key := row];
      } else if PreferScheduleRow(row, selected[key]) {
        selected := selected[key := row];
      }
    }
    assert rows[..|rows|] == rows;
  }

  /** Sources in order of trust. */
  predicate MoreTrusted(a: Provider, b: Provider) {
    match a
    case AnimeSchedule => b != AnimeSchedule
    case AniList => b != AnimeSchedule && b != AniList
    case Bangumi => b.OtherProvider?
    case OtherProvider(_) => false
  }

  /** A winner has an exact time if any row of its episode has, and among the rows that do or do not as it does, none is
      of a source more trusted: AnimeSchedule before AniList before Bangumi before all others. */
  lemma {:induction false} WinnersAreTrusted(rows: seq<Row>, key: EpisodeKey, winner: Row, other: Row)
    requires IsWinner(rows, key, winner) && other in rows
    requires other.animeId == key.animeId && other.episodeLabel == key.episodeLabel
    ensures other.airAt.Some? ==> winner.airAt.Some?
    ensures other.airAt.Some? == winner.airAt.Some? ==> !MoreTrusted(other.provider, winner.provider)
  {
  }

  // ---------------------------------------------------------------- stage two: one card per title and day

  /** One of the winners of this card, and none of them ranks above it. */
  ghost predicate IsCard(winners: seq<Row>, offset: int, key: CardKey, card: Row) {
    && card in winners && CardOf(card, offset) == key
    && forall w :: w in winners && CardOf(w, offset) == key ==> !RanksAbove(w, card)
  }

  ghost predicate CardsOf(winners: seq<Row>, offset: int, cards: map<CardKey, Row>) {
    && (forall w :: w in winners ==> CardOf(w, offset) in cards)
    && (forall key :: key in cards ==> IsCard(winners, offset, key, cards[key]))
  }

  lemma {:induction false} CardsGrow(winners: seq<Row>, offset: int, row: Row, cards: map<CardKey, Row>)
    requires CardsOf(winners, offset, cards)
    ensures var key := CardOf(row, offset);
            var replaced := key !in cards || RanksAbove(row, cards[key]);
            CardsOf(winners + [row], offset, if replaced then cards[key := row] else cards)
  {
    hide CardOf;
    var key := CardOf(row, offset);
    var replaced := key !in cards || RanksAbove(row, cards[key]);
    var now := if replaced then cards[key := row] else cards;
    forall k | k in now
      ensures IsCard(winners + [row], offset, k, now[k])
    {
      if k in cards {
        assert IsCard(winners, offset, k, cards[k]);
      }
      forall w | w in winners + [row] && CardOf(w, offset) == k
        ensures !RanksAbove(w, now[k])
      {
        if w in winners {
          assert k in cards && !RanksAbove(w, cards[k]);
        }
      }
    }
  }

  /** The number an episode ranks by; none, and zero, rank below all others. */
  predicate NewerEpisode(a: Row, b: Row) {
    a.episode.Some? && a.episode.value > 0 && (b.episode.Some? ==> a.episode.value > b.episode.value)
  }

  /** Two rows are for one card if they fall on one local day and have one title, or no title and one anime. */
  lemma {:induction false} OneCardIff(a: Row, b: Row, offset: int)
    ensures CardOf(a, offset) == CardOf(b, offset) <==>
              && LocalDay(a, offset) == LocalDay(b, offset)
              && a.normalTitle == b.normalTitle && (a.normalTitle == None ==> a.animeId == b.animeId)
  {
  }

  /** The local day of an exact time, and the stored day without one. */
  lemma {:induction false} LocalDayIs(row: Row, offset: int)
    ensures row.airAt == None ==> LocalDay(row, offset) == row.airDay
    ensures row.airAt.Some? ==>
              var day := LocalDay(row, offset);
              day * (86_400 * SECOND) <= row.airAt.value + offset < (day + 1) * (86_400 * SECOND)
  {
  }

  /** A card shows the newest episode of its day and title; of rows equally new one with an exact time if there is one,
      and then the latest. */
  lemma {:induction false} CardsAreNewest(winners: seq<Row>, offset: int, key: CardKey, card: Row, other: Row)
    requires IsCard(winners, offset, key, card) && other in winners && CardOf(other, offset) == key
    ensures !NewerEpisode(other, card)
    ensures !NewerEpisode(card, other) && other.airAt.Some? ==>
              card.airAt.Some? && other.airAt.value <= card.airAt.value
  {
    hide CardOf;
  }

  /** The second fold. */
  method SelectPerTitle(winners: seq<Row>, offset: int) returns (order: seq<CardKey>, cards: map<CardKey, Row>)
    ensures CardsOf(winners, offset, cards) && Lists(order, cards.Keys)
  {
    order, cards := [], map[];
    for k := 0 to |winners|
      invariant CardsOf(winners[..k], offset, cards) && Lists(order, cards.Keys)
    {
      hide CardsOf;
      var row := winners[k];
      var key := CardOf(row, offset);
      CardsGrow(winners[..k], offset, row, cards);
      assert winners[..k + 1] == winners[..k] + [row];
      if key !in cards {
        order := order + [key];
        cards := cards[key := row];
      } else if RanksAbove(row, cards[key]) {
        cards := cards[key := row];
      }
    }
    assert winners[..|winners|] == winners;
  }

  // ---------------------------------------------------------------- the sorted board

  /** The sort key: the day, then exact times before inexact ones, then the time, then the title. */
  predicate SortsBefore(a: Row, b: Row, offset: int, startAt: int) {
    var dayA, dayB := LocalDay(a, offset), LocalDay(b, offset);
    var timeA := if a.airAt.Some? then a.airAt.value else startAt;
    var timeB := if b.airAt.Some? then b.airAt.value else startAt;
    || dayA < dayB
    || (dayA == dayB && a.airAt.Some? && b.airAt == None)
    || (dayA == dayB && a.airAt.Some? == b.airAt.Some? &&
          (timeA < timeB || (timeA == timeB && a.titleText <= b.titleText)))
  }

  function BoardOrder(offset: int, startAt: int): (Row, Row) -> bool {
    (a, b) => SortsBefore(a, b, offset, startAt)
  }

  /** The sort key orders any two rows. */
  lemma {:induction false} BoardOrderIsTotal(offset: int, startAt: int)
    ensures TotalPreorder(BoardOrder(offset, startAt))
  {
    hide LocalDay;
  }

  /** On a sorted board days come in order; within a day exact times come first and in order, and among equal times
      titles are in order. */
  lemma {:induction false} BoardIsInOrder(board: seq<Row>, offset: int, startAt: int, i: nat, j: nat)
    requires Sorted(board, BoardOrder(offset, startAt)) && i < j < |board|
    ensures LocalDay(board[i], offset) <= LocalDay(board[j], offset)
    ensures LocalDay(board[i], offset) == LocalDay(board[j], offset) ==>
              var a, b := board[i], board[j];
              && (b.airAt.Some? ==> a.airAt.Some? && a.airAt.value <= b.airAt.value)
              && (a.airAt == b.airAt ==> a.titleText <= b.titleText)
  {
    hide LocalDay;
    assert BoardOrder(offset, startAt)(board[i], board[j]);
  }

  /** The board of the episodes' winners: sorted, one card per day and title, every card is a winner, and every winner
      has a card for its day and title that it does not rank above. */
  ghost predicate IsBoard(selected: map<EpisodeKey, Row>, offset: int, startAt: int, board: seq<Row>) {
    Sorted(board, BoardOrder(offset, startAt)) && OneCardEach(selected, offset, board)
  }

  ghost predicate OneCardEach(selected: map<EpisodeKey, Row>, offset: int, cards: seq<Row>) {
    CardsDistinct(cards, offset) && AllWinners(selected, cards) && AllCovered(selected, cards, offset)
  }

  ghost predicate CardsDistinct(cards: seq<Row>, offset: int) {
    forall i, j :: 0 <= i < j < |cards| ==> CardOf(cards[i], offset) != CardOf(cards[j], offset)
  }

  ghost predicate AllWinners(selected: map<EpisodeKey, Row>, cards: seq<Row>) {
    forall c :: c in cards ==> EpisodeOf(c) in selected && selected[EpisodeOf(c)] == c
  }

  ghost predicate AllCovered(selected: map<EpisodeKey, Row>, cards: seq<Row>, offset: int) {
    forall key :: key in selected ==> exists c :: c in cards && Covers(selected[key], c, offset)
  }

  /** The card stands for the winner's day and title and is ranked at least as high. */
  ghost predicate Covers(winner: Row, card: Row, offset: int) {
    CardOf(card, offset) == CardOf(winner, offset) && !RanksAbove(winner, card)
  }

  function Values<K, V>(order: seq<K>, m: map<K, V>): seq<V>
    requires forall i :: 0 <= i < |order| ==> order[i] in m
  {
    seq(|order|, i requires 0 <= i < |order| => m[order[i]])
  }

  lemma {:induction false} DistinctCardsStayDistinct(a: seq<Row>, b: seq<Row>, offset: int)
    requires multiset(a) == multiset(b) && CardsDistinct(a, offset)
    ensures CardsDistinct(b, offset)
  {
    hide CardOf;
    DistinctStaysDistinct(a, b);
    SameMembers(a, b);
    forall i, j | 0 <= i < j < |b|
      ensures CardOf(b[i], offset) != CardOf(b[j], offset)
    {
      assert b[i] in a && b[j] in a;
    }
  }

  /** The calendar between two days, from the rows the query found there in whatever order. */
  method AiringRowsBetween(rows: seq<Row>, startDay: int, endDay: int, offset: int)
    returns (board: seq<Row>, ghost selected: map<EpisodeKey, Row>)
    requires forall i :: 0 <= i < |rows| ==> InRange(rows[i], startDay, endDay, offset)
    ensures WinnersOf(rows, selected)
    ensures IsBoard(selected, offset, startDay * DAY - offset, board)
    ensures forall c :: c in board ==> startDay <= LocalDay(c, offset) < endDay
  {
    hide WinnersOf, CardsOf, InRange, LocalDay, Lists, Sort, Values, IsBoard, OneCardEach;
    var startAt := startDay * DAY - offset;
    var order, winners := SelectPerEpisode(rows);
    selected := winners;
    ListedKeys(order, winners);
    var values := Values(order, winners);
    var titles, cards := SelectPerTitle(values, offset);
    ListedKeys(titles, cards);
    var chosen := Values(titles, cards);
    CardsMakeBoard(rows, order, winners, titles, cards, offset);
    board := Sort(chosen, BoardOrder(offset, startAt));
    SortingMakesBoard(winners, chosen, offset, startAt);
    DaysAreInRange(rows, winners, board, startDay, endDay, offset, startAt);
  }

  lemma {:induction false} SortingMakesBoard(selected: map<EpisodeKey, Row>, chosen: seq<Row>, offset: int,
                                             startAt: int)
    requires OneCardEach(selected, offset, chosen)
    ensures IsBoard(selected, offset, startAt, Sort(chosen, BoardOrder(offset, startAt)))
  {
    hide Sort, Sorted, OneCardEach, BoardOrder, TotalPreorder;
    BoardOrderIsTotal(offset, startAt);
    SortSorts(chosen, BoardOrder(offset, startAt));
    PermutedCards(selected, offset, chosen, Sort(chosen, BoardOrder(offset, startAt)));
  }

  lemma {:induction false} PermutedCards(selected: map<EpisodeKey, Row>, offset: int, a: seq<Row>, b: seq<Row>)
    requires multiset(a) == multiset(b) && OneCardEach(selected, offset, a)
    ensures OneCardEach(selected, offset, b)
  {
    hide CardsDistinct, Covers, EpisodeOf;
    DistinctCardsStayDistinct(a, b, offset);
    SameMembers(a, b);
  }

  lemma {:induction false} ListedKeys<K(!new), V>(order: seq<K>, m: map<K, V>)
    requires Lists(order, m.Keys)
    ensures forall i :: 0 <= i < |order| ==> order[i] in m
  {
    forall i | 0 <= i < |order|
      ensures order[i] in m
    {
      assert order[i] in order;
    }
  }

  lemma {:induction false} CardsMakeBoard(rows: seq<Row>, order: seq<EpisodeKey>, winners: map<EpisodeKey, Row>,
                                          titles: seq<CardKey>, cards: map<CardKey, Row>, offset: int)
    requires WinnersOf(rows, winners) && Lists(order, winners.Keys) && Lists(titles, cards.Keys)
    requires forall i :: 0 <= i < |order| ==> order[i] in winners
    requires forall i :: 0 <= i < |titles| ==> titles[i] in cards
    requires CardsOf(Values(order, winners), offset, cards)
    ensures OneCardEach(winners, offset, Values(titles, cards))
  {
    hide CardOf, RanksAbove, CardsDistinct, AllWinners, AllCovered;
    var values, chosen := Values(order, winners), Values(titles, cards);
    forall i | 0 <= i < |chosen|
      ensures CardOf(chosen[i], offset) == titles[i] && chosen[i] in values
    {
      assert IsCard(values, offset, titles[i], cards[titles[i]]);
    }
    KeysMakeCardsDistinct(chosen, titles, offset);
    ChosenAreWinners(rows, order, winners, chosen);
    WinnersAreCovered(order, winners, titles, cards, offset);
  }

  lemma {:induction false} KeysMakeCardsDistinct(chosen: seq<Row>, titles: seq<CardKey>, offset: int)
    requires |chosen| == |titles| && forall i :: 0 <= i < |chosen| ==> CardOf(chosen[i], offset) == titles[i]
    requires forall i, j :: 0 <= i < j < |titles| ==> titles[i] != titles[j]
    ensures CardsDistinct(chosen, offset)
  {
    hide CardOf;
  }

  lemma {:induction false} ChosenAreWinners(rows: seq<Row>, order: seq<EpisodeKey>, winners: map<EpisodeKey, Row>,
                                            chosen: seq<Row>)
    requires WinnersOf(rows, winners) && forall i :: 0 <= i < |order| ==> order[i] in winners
    requires forall i :: 0 <= i < |chosen| ==> chosen[i] in Values(order, winners)
    ensures AllWinners(winners, chosen)
  {
    var values := Values(order, winners);
    forall c | c in chosen
      ensures EpisodeOf(c) in winners && winners[EpisodeOf(c)] == c
    {
      var k :| 0 <= k < |chosen| && chosen[k] == c;
      var i :| 0 <= i < |values| && values[i] == c;
      assert IsWinner(rows, order[i], winners[order[i]]);
    }
  }

  lemma {:induction false} WinnersAreCovered(order: seq<EpisodeKey>, winners: map<EpisodeKey, Row>,
                                             titles: seq<CardKey>, cards: map<CardKey, Row>, offset: int)
    requires Lists(order, winners.Keys) && Lists(titles, cards.Keys)
    requires forall i :: 0 <= i < |order| ==> order[i] in winners
    requires forall i :: 0 <= i < |titles| ==> titles[i] in cards
    requires CardsOf(Values(order, winners), offset, cards)
    ensures AllCovered(winners, Values(titles, cards), offset)
  {
    hide CardOf, RanksAbove;
    var values, chosen := Values(order, winners), Values(titles, cards);
    forall key | key in winners
      ensures exists c :: c in chosen && Covers(winners[key], c, offset)
    {
      assert key in order;
      var i :| 0 <= i < |order| && order[i] == key;
      var w := values[i];
      var cardKey := CardOf(w, offset);
      assert w in values;
      assert cardKey in titles;
      var j :| 0 <= j < |titles| && titles[j] == cardKey;
      assert IsCard(values, offset, cardKey, cards[cardKey]);
      assert chosen[j] in chosen && Covers(winners[key], chosen[j], offset);
    }
  }

  lemma {:induction false} DaysAreInRange(rows: seq<Row>, winners: map<EpisodeKey, Row>, board: seq<Row>,
                                          startDay: int, endDay: int, offset: int, startAt: int)
    requires WinnersOf(rows, winners) && IsBoard(winners, offset, startAt, board)
    requires forall i :: 0 <= i < |rows| ==> InRange(rows[i], startDay, endDay, offset)
    ensures forall c :: c in board ==> startDay <= LocalDay(c, offset) < endDay
  {
    hide Sorted, CardsDistinct, AllCovered, LocalDay, InRange;
    forall c | c in board
      ensures startDay <= LocalDay(c, offset) < endDay
    {
      assert IsWinner(rows, EpisodeOf(c), c);
      RangeIsLocal(c, startDay, endDay, offset);
    }
  }

  // ---------------------------------------------------------------- the source of one episode

  /** The sort key of the resolver compares less or equal. Among rows of one exactness the times are comparable. */
  predicate ResolvesBefore(a: Row, b: Row) {
    var exact := a.airAt.Some? == b.airAt.Some?;
    var same := SourcePriority(a.provider) == SourcePriority(b.provider);
    || (a.airAt.Some? && b.airAt == None)
    || (exact && SourcePriority(a.provider) < SourcePriority(b.provider))
    || (exact && same && a.airAt.Some? && b.airAt.Some? && a.airAt.value <= b.airAt.value)
    || (exact && same && a.airAt == None && b.airAt == None && a.airDay <= b.airDay)
  }

  /** The first row of the resolver's stable sort. */
  function Resolve(candidates: seq<Row>): Option<Row> {
    if candidates == [] then None else
      var k := |candidates| - 1;
      var best := Resolve(candidates[..k]);
      if best == None || !ResolvesBefore(best.value, candidates[k]) then Some(candidates[k]) else best
  }

  lemma {:induction false} ResolvePicksTheFirst(candidates: seq<Row>)
    requires candidates != []
    ensures Resolve(candidates).Some? && Resolve(candidates).value in candidates
    ensures forall c :: c in candidates ==> ResolvesBefore(Resolve(candidates).value, c)
  {
    hide ResolvesBefore;
    var k := |candidates| - 1;
    var last := candidates[k];
    assert candidates == candidates[..k] + [last];
    ResolverOrder(last, last, last);
    if k > 0 {
      ResolvePicksTheFirst(candidates[..k]);
      var best := Resolve(candidates[..k]).value;
      ResolverOrder(best, last, last);
      forall c | c in candidates[..k]
        ensures ResolvesBefore(last, best) ==> ResolvesBefore(last, c)
      {
        ResolverOrder(last, best, c);
      }
    }
  }

  /** The resolver's choice has an exact time if any candidate has; of those that do or do not as it does none is of a
      more trusted source, and of those of its own source none is earlier. */
  lemma {:induction false} ResolverTrusts(candidates: seq<Row>, other: Row)
    requires other in candidates
    ensures Resolve(candidates).Some?
    ensures var chosen := Resolve(candidates).value;
            && chosen in candidates
            && (other.airAt.Some? ==> chosen.airAt.Some?)
            && (other.airAt.Some? == chosen.airAt.Some? ==> !MoreTrusted(other.provider, chosen.provider))
            && (other.airAt.Some? && other.provider == chosen.provider ==> chosen.airAt.value <= other.airAt.value)
            && (chosen.airAt == None && other.provider == chosen.provider ==> chosen.airDay <= other.airDay)
  {
    hide Resolve;
    ResolvePicksTheFirst(candidates);
    assert ResolvesBefore(Resolve(candidates).value, other);
  }

  /** The resolver's sort key orders any two rows, and transitively so. */
  lemma {:induction false} ResolverOrder(a: Row, b: Row, c: Row)
    ensures ResolvesBefore(a, b) || ResolvesBefore(b, a)
    ensures ResolvesBefore(a, b) && ResolvesBefore(b, c) ==> ResolvesBefore(a, c)
  {
  }

  /** On the candidates of one episode, the calendar's first fold and the resolver settle on the same exactness and the
      same source priority, in whatever orders they see the candidates. */
  lemma {:induction false} CalendarAgreesWithResolver(candidates: seq<Row>, others: seq<Row>, key: EpisodeKey,
                                                      winner: Row)
    requires candidates != [] && forall c :: c in candidates <==> c in others
    requires forall c :: c in candidates ==> EpisodeOf(c) == key
    requires IsWinner(candidates, key, winner)
    ensures Resolve(others).Some?
    ensures winner.airAt.Some? == Resolve(others).value.airAt.Some?
    ensures SourcePriority(winner.provider) == SourcePriority(Resolve(others).value.provider)
    ensures !MoreTrusted(winner.provider, Resolve(others).value.provider)
    ensures !MoreTrusted(Resolve(others).value.provider, winner.provider)
  {
    assert candidates[0] in others;
    ResolvePicksTheFirst(others);
    var chosen := Resolve(others).value;
    assert !PreferScheduleRow(chosen, winner) && ResolvesBefore(chosen, winner);
  }
}
