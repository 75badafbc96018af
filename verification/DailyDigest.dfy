/** The daily digest: the clock that cuts time into periods and says when a digest is due, and the planner that turns a
    period's releases into one outbox job. Times are in microseconds; the time zone is a fixed offset. */
module DailyDigest {
  import opened Options
  import opened Durations
  import opened Identifiers
  import opened Sequences
  import opened Sorting
  import O = Outbox

  // ---------------------------------------------------------------- the clock

  datatype Schedule = Schedule(anchorMinute: int, quietMinutes: int, cutoffMinute: int) {
    predicate Valid() {
      0 <= anchorMinute < cutoffMinute <= 1439 && 1 <= quietMinutes <= cutoffMinute - anchorMinute
    }

    function LocalAt(day: int, minute: int, offset: int): int {
      day * DAY + minute * MINUTE - offset
    }

    function PeriodStart(day: int, offset: int): int {
      LocalAt(day - 1, cutoffMinute, offset)
    }

    function PeriodEnd(day: int, offset: int): int {
      LocalAt(day, cutoffMinute, offset)
    }

    /** The day whose period an instant is counted to: the next one once the cutoff minute is over. */
    function PeriodDay(now: int, offset: int): int {
      var day, minute := (now + offset) / DAY, (now + offset) % DAY / MINUTE;
      if minute > cutoffMinute then day + 1 else day
    }

    /** When a digest whose newest release is `latest` is sent: at the anchor or once releases have been quiet for a
        while, and in any case at the end of the period. */
    function SendAt(day: int, latest: int, offset: int): int {
      var anchor, quietAt := LocalAt(day, anchorMinute, offset), latest + quietMinutes * MINUTE;
      var wanted := if anchor < quietAt then quietAt else anchor;
      if wanted < PeriodEnd(day, offset) then wanted else PeriodEnd(day, offset)
    }

    function Decide(now: int, offset: int, latest: Option<int>, hasReleases: bool): Decision {
      var day := PeriodDay(now, offset);
      var start, end := PeriodStart(day, offset), PeriodEnd(day, offset);
      if !hasReleases || latest == None then Decision(day, start, end, None, false)
      else
        var sendAt := SendAt(day, latest.value, offset);
        Decision(day, start, end, Some(sendAt), sendAt <= now <= end)
    }
  }

  datatype Decision = Decision(periodDay: int, periodStart: int, periodEnd: int, sendAt: Option<int>, due: bool)

  lemma {:induction false} SplitsIntoDays(x: int)
    ensures x == x / DAY * DAY + x % DAY && 0 <= x % DAY < DAY
    ensures x % DAY / MINUTE * MINUTE <= x % DAY < (x % DAY / MINUTE + 1) * MINUTE
  {
  }

  /** Every instant lies after the start of its period and less than a minute after its end. */
  lemma {:induction false} InstantsFitTheirPeriod(s: Schedule, now: int, offset: int)
    requires s.Valid()
    ensures var day := s.PeriodDay(now, offset);
            s.PeriodStart(day, offset) < now < s.PeriodEnd(day, offset) + MINUTE
  {
    SplitsIntoDays(now + offset);
  }

  /** The periods (start, end] of all days partition time: each instant is in exactly one of them. */
  lemma {:induction false} PeriodsPartitionTime(s: Schedule, t: int, offset: int)
    requires s.Valid()
    ensures exists day :: InPeriod(s, day, t, offset)
    ensures forall a, b :: InPeriod(s, a, t, offset) && InPeriod(s, b, t, offset) ==> a == b
  {
    var day := s.PeriodDay(t, offset);
    InstantsFitTheirPeriod(s, t, offset);
    if t <= s.PeriodEnd(day, offset) {
      assert InPeriod(s, day, t, offset);
    } else {
      assert s.PeriodStart(day + 1, offset) == s.PeriodEnd(day, offset);
      assert InPeriod(s, day + 1, t, offset);
    }
    forall a, b | InPeriod(s, a, t, offset) && InPeriod(s, b, t, offset)
      ensures a == b
    {
      if a < b {
        DaysAreOrdered(a, b - 1);
      } else if b < a {
        DaysAreOrdered(b, a - 1);
      }
    }
  }

  lemma {:induction false} DaysAreOrdered(a: int, b: int)
    requires a <= b
    ensures a * DAY <= b * DAY
  {
  }

  predicate InPeriod(s: Schedule, day: int, t: int, offset: int) {
    s.PeriodStart(day, offset) < t <= s.PeriodEnd(day, offset)
  }

  /** For a newest release within a day's period, the instants of that day at which the digest is due are exactly those
      from `SendAt` to the end of the period. They are never none, and only one exactly when the quiet time after the
      release runs past the end. */
  lemma {:induction false} DueFromSendAtToTheEnd(s: Schedule, day: int, latest: int, now: int, offset: int)
    requires s.Valid() && InPeriod(s, day, latest, offset)
    ensures var sendAt, end := s.SendAt(day, latest, offset), s.PeriodEnd(day, offset);
            && latest <= sendAt <= end
            && (sendAt <= now <= end <==>
                  s.PeriodDay(now, offset) == day && s.Decide(now, offset, Some(latest), true).due)
            && (sendAt == end <==> latest + s.quietMinutes * MINUTE >= end)
  {
    hide Schedule.PeriodDay;
    if s.SendAt(day, latest, offset) <= now <= s.PeriodEnd(day, offset) {
      FirstMinuteBelongsToTheDayBefore(s, day, now, offset);
    }
  }

  /** A schedule can be constructed exactly if the quiet time after the anchor is over by the cutoff, on the same day.
      */
  lemma {:induction false} ValidIff(s: Schedule)
    ensures s.Valid() <==>
            0 <= s.anchorMinute && 1 <= s.quietMinutes
            && s.anchorMinute + s.quietMinutes <= s.cutoffMinute < 24 * 60
  {
  }

  /** The local instants a day's digest goes by, written out: the anchor and the cutoff of the day, and the cutoff of
      the day before. */
  predicate IsDueAt(s: Schedule, day: int, latest: int, t: int, offset: int) {
    var anchor, end := day * DAY + s.anchorMinute * MINUTE - offset, day * DAY + s.cutoffMinute * MINUTE - offset;
    anchor <= t <= end && (t >= latest + s.quietMinutes * MINUTE || t == end)
  }

  predicate IsOfDay(s: Schedule, day: int, t: int, offset: int) {
    (day - 1) * DAY + s.cutoffMinute * MINUTE - offset < t <= day * DAY + s.cutoffMinute * MINUTE - offset
  }

  lemma {:induction false} OfDayIff(s: Schedule, day: int, t: int, offset: int)
    ensures IsOfDay(s, day, t, offset) <==> InPeriod(s, day, t, offset)
  {
  }

  /** A digest is due from the anchor to the cutoff, once its newest release has been out for the quiet time, or at the
      cutoff itself. */
  lemma {:induction false} DueIff(s: Schedule, day: int, latest: int, now: int, offset: int)
    requires s.Valid() && IsOfDay(s, day, latest, offset)
    ensures s.PeriodDay(now, offset) == day && s.Decide(now, offset, Some(latest), true).due <==>
            IsDueAt(s, day, latest, now, offset)
  {
    hide Schedule.PeriodDay;
    OfDayIff(s, day, latest, offset);
    DueFromSendAtToTheEnd(s, day, latest, now, offset);
  }

  /** The digest is sent at the first instant at which it is due. */
  lemma {:induction false} SentWhenFirstDue(s: Schedule, day: int, latest: int, offset: int)
    requires s.Valid() && IsOfDay(s, day, latest, offset)
    ensures IsDueAt(s, day, latest, s.SendAt(day, latest, offset), offset)
    ensures forall t :: IsDueAt(s, day, latest, t, offset) ==> s.SendAt(day, latest, offset) <= t
  {
  }

  /** The clock looks at whole minutes, so the first minute of a period is still counted to the day before; every
      other instant of a period is counted to its own day. */
  lemma {:induction false} FirstMinuteBelongsToTheDayBefore(s: Schedule, day: int, now: int, offset: int)
    requires s.Valid() && InPeriod(s, day, now, offset)
    ensures s.PeriodDay(now, offset) == day <==> now >= s.PeriodStart(day, offset) + MINUTE
    ensures s.PeriodDay(now, offset) in {day - 1, day}
  {
    var other := s.PeriodDay(now, offset);
    InstantsFitTheirPeriod(s, now, offset);
    SplitsIntoDays(now + offset);
    if other < day - 1 {
      DaysAreOrdered(other, day - 2);
    } else if day < other {
      DaysAreOrdered(day, other - 1);
    }
  }

  /** A later release postpones the digest or leaves it where it was. */
  lemma {:induction false} LaterReleasesPostpone(s: Schedule, day: int, earlier: int, later: int, offset: int)
    requires earlier <= later
    ensures s.SendAt(day, earlier, offset) <= s.SendAt(day, later, offset)
  {
  }

  /** When the cutoff is moved between two days, the periods on either side of the move share instants exactly when it
      was moved to an earlier minute. */
  lemma {:induction false} MovedCutoffOverlapsIff(s: Schedule, t: Schedule, day: int, offset: int)
    requires s.Valid() && t.Valid()
    ensures (exists x :: InPeriod(s, day, x, offset) && InPeriod(t, day + 1, x, offset))
       <==> t.cutoffMinute < s.cutoffMinute
  {
    if t.cutoffMinute < s.cutoffMinute {
      var x := s.PeriodEnd(day, offset);
      assert InPeriod(s, day, x, offset) && InPeriod(t, day + 1, x, offset);
    }
  }

  /** When the cutoff is moved between two days, some instants fall between the periods on either side of the move
      exactly when it was moved to a later minute. */
  lemma {:induction false} MovedCutoffLeavesGapIff(s: Schedule, t: Schedule, day: int, offset: int)
    requires s.Valid() && t.Valid()
    ensures (exists x :: InGap(s, t, day, x, offset)) <==> t.cutoffMinute > s.cutoffMinute
  {
    if t.cutoffMinute > s.cutoffMinute {
      assert InGap(s, t, day, t.PeriodStart(day + 1, offset), offset);
    }
  }

  /** After the period of `day` under the old schedule, and before the next day's under the new one. */
  predicate InGap(s: Schedule, t: Schedule, day: int, x: int, offset: int) {
    s.PeriodEnd(day, offset) < x <= t.PeriodStart(day + 1, offset)
  }

  /** The instants in the gap are in no period of the old schedule up to that day, and in none of the new one after
      it. */
  lemma {:induction false} GapIsLost(s: Schedule, t: Schedule, day: int, x: int, offset: int)
    requires s.Valid() && t.Valid() && InGap(s, t, day, x, offset)
    ensures forall d :: d <= day ==> !InPeriod(s, d, x, offset)
    ensures forall d :: d > day ==> !InPeriod(t, d, x, offset)
  {
    forall d | d <= day
      ensures !InPeriod(s, d, x, offset)
    {
      DaysAreOrdered(d, day);
    }
    forall d | d > day
      ensures !InPeriod(t, d, x, offset)
    {
      DaysAreOrdered(day + 1, d);
    }
  }

  /** Periods fit together across a change of schedule, with every instant in exactly one of them, exactly when the
      cutoff stays where it is. */
  lemma {:induction false} PeriodsFitIffCutoffStays(s: Schedule, t: Schedule, day: int, offset: int)
    requires s.Valid() && t.Valid()
    ensures (forall x :: InOnePeriod(s, t, day, x, offset)) <==> s.cutoffMinute == t.cutoffMinute
  {
    hide InOnePeriod, InPeriod, Around, Schedule.PeriodStart, Schedule.PeriodEnd;
    if s.cutoffMinute == t.cutoffMinute {
      forall x
        ensures InOnePeriod(s, t, day, x, offset)
      {
        SameCutoffFits(s, t, day, x, offset);
      }
    } else if t.cutoffMinute < s.cutoffMinute {
      EarlierCutoffOverlaps(s, t, day, offset);
    } else {
      LaterCutoffLeavesGap(s, t, day, offset);
    }
  }

  lemma {:induction false} SameCutoffFits(s: Schedule, t: Schedule, day: int, x: int, offset: int)
    requires s.Valid() && s.cutoffMinute == t.cutoffMinute
    ensures InOnePeriod(s, t, day, x, offset)
  {
    hide Schedule.Valid;
    PeriodsPartitionTime(s, x, offset);
    forall d
      ensures Around(s, t, day, d, x, offset) <==> InPeriod(s, d, x, offset)
    {
    }
  }

  lemma {:induction false} EarlierCutoffOverlaps(s: Schedule, t: Schedule, day: int, offset: int)
    requires s.Valid() && t.cutoffMinute < s.cutoffMinute && t.Valid()
    ensures !InOnePeriod(s, t, day, s.PeriodEnd(day, offset), offset)
  {
    var x := s.PeriodEnd(day, offset);
    assert Around(s, t, day, day, x, offset) && Around(s, t, day, day + 1, x, offset);
  }

  lemma {:induction false} LaterCutoffLeavesGap(s: Schedule, t: Schedule, day: int, offset: int)
    requires s.Valid() && t.Valid() && s.cutoffMinute < t.cutoffMinute
    ensures !InOnePeriod(s, t, day, t.PeriodStart(day + 1, offset), offset)
  {
    var x := t.PeriodStart(day + 1, offset);
    assert InGap(s, t, day, x, offset);
    GapIsLost(s, t, day, x, offset);
  }

  /** The instant is in the period of `d`, which the old schedule decides up to `day` and the new one after it. */
  predicate Around(s: Schedule, t: Schedule, day: int, d: int, x: int, offset: int) {
    if d <= day then InPeriod(s, d, x, offset) else InPeriod(t, d, x, offset)
  }

  ghost predicate InOnePeriod(s: Schedule, t: Schedule, day: int, x: int, offset: int) {
    && (exists d :: Around(s, t, day, d, x, offset))
    && (forall a, b :: Around(s, t, day, a, x, offset) && Around(s, t, day, b, x, offset) ==> a == b)
  }

  // ---------------------------------------------------------------- the planner

  /** A release of an anime the group follows. */
  datatype FollowedRelease = FollowedRelease(animeId: Id, episodeLabel: string, pubDate: int)

  /** What the release query answers: the releases after `start` and up to `until`. */
  function Between(releases: seq<FollowedRelease>, start: int, until: int): (rows: seq<FollowedRelease>)
    ensures forall r :: r in rows <==> r in releases && start < r.pubDate <= until
  {
    if releases == [] then [] else
      var last := releases[|releases| - 1];
      Between(releases[..|releases| - 1], start, until) + if start < last.pubDate <= until then [last] else []
  }

  function Latest(rows: seq<FollowedRelease>): (latest: Option<int>)
    ensures rows == [] ==> latest == None
    ensures rows != [] ==> latest.Some? && (exists r :: r in rows && r.pubDate == latest.value)
                           && (forall r :: r in rows ==> r.pubDate <= latest.value)
  {
    if rows == [] then None else
      var last := rows[|rows| - 1];
      var before := Latest(rows[..|rows| - 1]);
      assert rows == rows[..|rows| - 1] + [last];
      if before.Some? && last.pubDate <= before.value then before else Some(last.pubDate)
  }

  function ItemOf(r: FollowedRelease): O.DigestItem {
    O.DigestItem(r.animeId, if r.episodeLabel == "" then None else Some(r.episodeLabel))
  }

  function CountOf(rows: seq<FollowedRelease>, item: O.DigestItem): nat {
    if rows == [] then 0 else
      CountOf(rows[..|rows| - 1], item) + if ItemOf(rows[|rows| - 1]) == item then 1 else 0
  }

  /** The releases counted for an item: those of its anime and its episode, or without an episode. */
  function Counted(rows: seq<FollowedRelease>, item: O.DigestItem): set<int> {
    set i | 0 <= i < |rows| && rows[i].animeId == item.animeId
            && (if rows[i].episodeLabel == "" then item.episodeLabel == None
                else item.episodeLabel == Some(rows[i].episodeLabel))
  }

  lemma {:induction false} CountIs(rows: seq<FollowedRelease>, item: O.DigestItem)
    ensures CountOf(rows, item) == |Counted(rows, item)|
  {
    if rows != [] {
      var k := |rows| - 1;
      CountIs(rows[..k], item);
      assert Counted(rows, item) == Counted(rows[..k], item) + if ItemOf(rows[k]) == item then {k} else {};
    }
  }

  /** Every item with the number of its releases, and no other. */
  ghost predicate Tallies(rows: seq<FollowedRelease>, items: map<O.DigestItem, nat>) {
    && (forall item :: item in items <==> CountOf(rows, item) > 0)
    && (forall item :: item in items ==> items[item] == CountOf(rows, item))
  }

  /** The releases the digest planned at `now` reports. */
  function Reported(s: Schedule, releases: seq<FollowedRelease>, now: int, offset: int): seq<FollowedRelease> {
    var day := s.PeriodDay(now, offset);
    Between(releases, s.PeriodStart(day, offset),
            if now < s.PeriodEnd(day, offset) then now else s.PeriodEnd(day, offset))
  }

  /** With a fixed schedule, digests of different days report different releases. */
  lemma {:induction false} ReportedInOneDigest(s: Schedule, releases: seq<FollowedRelease>, more: seq<FollowedRelease>,
                                               now: int, later: int, offset: int, r: FollowedRelease)
    requires s.Valid() && s.PeriodDay(now, offset) != s.PeriodDay(later, offset)
    requires r in Reported(s, releases, now, offset)
    ensures r !in Reported(s, more, later, offset)
  {
    PeriodsPartitionTime(s, r.pubDate, offset);
    assert InPeriod(s, s.PeriodDay(now, offset), r.pubDate, offset);
    if r in Reported(s, more, later, offset) {
      assert InPeriod(s, s.PeriodDay(later, offset), r.pubDate, offset);
      assert false;
    }
  }

  /** The planner's rule: there is something to report, and the newest of it is due. */
  predicate DigestDue(s: Schedule, releases: seq<FollowedRelease>, now: int, offset: int) {
    var rows := Reported(s, releases, now, offset);
    rows != [] && s.SendAt(s.PeriodDay(now, offset), Latest(rows).value, offset) <= now
      <= s.PeriodEnd(s.PeriodDay(now, offset), offset)
  }

  /** Once due, a digest stays due until its period ends, unless a newer release comes out in between. */
  lemma {:induction false} DueStaysDue(s: Schedule, releases: seq<FollowedRelease>, now: int, later: int, offset: int)
    requires s.Valid() && DigestDue(s, releases, now, offset)
    requires now <= later <= s.PeriodEnd(s.PeriodDay(now, offset), offset)
    requires forall r :: r in releases ==> !(now < r.pubDate <= later)
    ensures s.PeriodDay(later, offset) == s.PeriodDay(now, offset)
    ensures DigestDue(s, releases, later, offset)
  {
    hide Schedule.SendAt, Between, Latest;
    var day := s.PeriodDay(now, offset);
    var rows, rowsLater := Reported(s, releases, now, offset), Reported(s, releases, later, offset);
    InstantsFitTheirPeriod(s, now, offset);
    FirstMinuteBelongsToTheDayBefore(s, day, now, offset);
    FirstMinuteBelongsToTheDayBefore(s, day, later, offset);
    forall r
      ensures r in rows <==> r in rowsLater
    {
    }
    assert rows[0] in rowsLater;
    var r :| r in rows && r.pubDate == Latest(rows).value;
    var t :| t in rowsLater && t.pubDate == Latest(rowsLater).value;
    assert r in rowsLater && t in rows;
  }

  /** A release of a day's period is reported exactly by what is planned for that day, and not before the release. */
  lemma {:induction false} ReportedIff(s: Schedule, releases: seq<FollowedRelease>, r: FollowedRelease, day: int,
                                       now: int, offset: int)
    requires s.Valid() && InPeriod(s, day, r.pubDate, offset)
    ensures r in Reported(s, releases, now, offset) <==>
            r in releases && s.PeriodDay(now, offset) == day && r.pubDate <= now
  {
    hide Schedule.PeriodDay, Schedule.PeriodStart, Schedule.PeriodEnd, InPeriod;
    ReportedMeans(s, releases, r, now, offset);
    PeriodsPartitionTime(s, r.pubDate, offset);
  }

  lemma {:induction false} ReportedMeans(s: Schedule, releases: seq<FollowedRelease>, r: FollowedRelease, now: int,
                                         offset: int)
    ensures r in Reported(s, releases, now, offset) <==>
            r in releases && InPeriod(s, s.PeriodDay(now, offset), r.pubDate, offset) && r.pubDate <= now
  {
    hide Schedule.PeriodDay, Schedule.PeriodStart, Schedule.PeriodEnd;
  }

  /** Under every schedule, every day a digest can be due while a release of its period is still to come, and no digest
      that is planned by then, nor any of another day, reports that release. */
  lemma {:induction false} LateReleasesCanBeLost(s: Schedule, day: int, offset: int)
    returns (r: FollowedRelease, late: FollowedRelease, now: int)
    requires s.Valid()
    ensures InPeriod(s, day, r.pubDate, offset) && InPeriod(s, day, late.pubDate, offset)
    ensures s.PeriodDay(now, offset) == day && DigestDue(s, [r], now, offset) && now < late.pubDate
    ensures forall releases, t :: t <= now || s.PeriodDay(t, offset) != day ==>
              late !in Reported(s, releases, t, offset)
  {
    var start, end := s.PeriodStart(day, offset), s.PeriodEnd(day, offset);
    r, late := FollowedRelease(0, "", start + 1), FollowedRelease(1, "", end);
    now := s.SendAt(day, r.pubDate, offset);
    assert start + DAY == end && now < end;
    DueFromSendAtToTheEnd(s, day, r.pubDate, now, offset);
    hide Schedule.PeriodDay, Schedule.PeriodStart, Schedule.PeriodEnd, Schedule.SendAt, InPeriod, Reported;
    ReportedIff(s, [r], r, day, now, offset);
    OnlyOneRow(s, r, now, offset);
    forall releases, t | t <= now || s.PeriodDay(t, offset) != day
      ensures late !in Reported(s, releases, t, offset)
    {
      ReportedIff(s, releases, late, day, t, offset);
    }
  }

  lemma {:induction false} OnlyOneRow(s: Schedule, r: FollowedRelease, now: int, offset: int)
    requires r in Reported(s, [r], now, offset)
    ensures Reported(s, [r], now, offset) != [] && Latest(Reported(s, [r], now, offset)) == Some(r.pubDate)
  {
    hide Schedule.PeriodDay, Schedule.PeriodStart, Schedule.PeriodEnd;
  }

  /** A release of the last instant of `day`'s period that the digests of two days report: due on `day` under the old
      schedule, and on the day after under the new one. */
  ghost predicate ReportedTwice(s: Schedule, t: Schedule, day: int, offset: int, releases: seq<FollowedRelease>,
                                r: FollowedRelease, now: int, later: int) {
    && s.PeriodDay(now, offset) == day && DigestDue(s, releases, now, offset) && r in Reported(s, releases, now, offset)
    && t.PeriodDay(later, offset) == day + 1 && DigestDue(t, releases, later, offset)
    && r in Reported(t, releases, later, offset)
  }

  /** When the cutoff is moved between two days, a release can be reported by the digests of both exactly when it was
      moved to an earlier minute. */
  lemma {:induction false} ReportedTwiceIff(s: Schedule, t: Schedule, day: int, offset: int)
    requires s.Valid() && t.Valid()
    ensures (exists releases, r, now, later :: ReportedTwice(s, t, day, offset, releases, r, now, later))
       <==> t.cutoffMinute < s.cutoffMinute
  {
    hide DigestDue, Schedule.SendAt, Schedule.PeriodDay, Reported;
    TwiceIsInBoth(s, t, day, offset);
    if t.cutoffMinute < s.cutoffMinute {
      var now, later := s.PeriodEnd(day, offset), t.PeriodEnd(day + 1, offset);
      var r := FollowedRelease(0, "", now);
      DueAtTheEnd(s, day, r, offset);
      DueAtTheEnd(t, day + 1, r, offset);
      assert ReportedTwice(s, t, day, offset, [r], r, now, later);
    }
  }

  lemma {:induction false} TwiceIsInBoth(s: Schedule, t: Schedule, day: int, offset: int)
    ensures forall releases, r, now, later :: ReportedTwice(s, t, day, offset, releases, r, now, later) ==>
              InPeriod(s, day, r.pubDate, offset) && InPeriod(t, day + 1, r.pubDate, offset)
  {
    hide DigestDue, Schedule.SendAt, Schedule.PeriodDay, Reported, InPeriod;
    forall releases, r, now, later | ReportedTwice(s, t, day, offset, releases, r, now, later)
      ensures InPeriod(s, day, r.pubDate, offset) && InPeriod(t, day + 1, r.pubDate, offset)
    {
      ReportedIsInPeriod(s, releases, r, now, offset);
      ReportedIsInPeriod(t, releases, r, later, offset);
    }
  }

  /** At the end of a period, a digest of a single release of that period is due. */
  lemma {:induction false} DueAtTheEnd(s: Schedule, day: int, r: FollowedRelease, offset: int)
    requires s.Valid() && InPeriod(s, day, r.pubDate, offset)
    ensures var end := s.PeriodEnd(day, offset);
            s.PeriodDay(end, offset) == day && r in Reported(s, [r], end, offset) && DigestDue(s, [r], end, offset)
  {
    hide Schedule.SendAt;
    var end := s.PeriodEnd(day, offset);
    FirstMinuteBelongsToTheDayBefore(s, day, end, offset);
    var rows := Reported(s, [r], end, offset);
    assert r in [r] && r in rows;
    assert Latest(rows) == Some(r.pubDate);
    EndIsLatest(s, day, r.pubDate, offset);
  }

  lemma {:induction false} EndIsLatest(s: Schedule, day: int, latest: int, offset: int)
    ensures s.SendAt(day, latest, offset) <= s.PeriodEnd(day, offset)
  {
  }

  /** A release in the gap that a later cutoff leaves is reported neither by any digest up to that day under the old
      schedule nor by any after it under the new one. */
  lemma {:induction false} GapIsNeverReported(s: Schedule, t: Schedule, day: int, offset: int,
                                              releases: seq<FollowedRelease>, r: FollowedRelease, now: int)
    requires s.Valid() && t.Valid() && InGap(s, t, day, r.pubDate, offset)
    ensures s.PeriodDay(now, offset) <= day ==> r !in Reported(s, releases, now, offset)
    ensures t.PeriodDay(now, offset) > day ==> r !in Reported(t, releases, now, offset)
  {
    GapIsLost(s, t, day, r.pubDate, offset);
    ReportedIsInPeriod(s, releases, r, now, offset);
    ReportedIsInPeriod(t, releases, r, now, offset);
  }

  lemma {:induction false} ReportedIsInPeriod(s: Schedule, releases: seq<FollowedRelease>, r: FollowedRelease, now: int,
                                              offset: int)
    ensures r in Reported(s, releases, now, offset) ==> InPeriod(s, s.PeriodDay(now, offset), r.pubDate, offset)
  {
  }

  /** In every table the outbox can reach, a group has at most one digest per period day. */
  lemma {:induction false} OneDigestPerDay(events: seq<O.Event>, a: Id, b: Id)
    requires a in O.Run(events).jobs && b in O.Run(events).jobs
    requires O.Run(events).jobs[a].kind == O.DailyDigest == O.Run(events).jobs[b].kind
    requires O.Run(events).jobs[a].group == O.Run(events).jobs[b].group
    requires O.Run(events).jobs[a].key.DailyKey? && O.Run(events).jobs[a].key == O.Run(events).jobs[b].key
    ensures a == b
  {
    hide O.Run;
    O.ReachableTablesAreConsistent(events);
  }

  // ---------------------------------------------------------------- the lines of a digest

  function TitleOrder(): (O.DigestLine, O.DigestLine) -> bool {
    (a: O.DigestLine, b: O.DigestLine) => a.title <= b.title
  }

  function LineOf(item: O.DigestItem, counts: map<O.DigestItem, nat>, titles: Id -> int): O.DigestLine {
    O.DigestLine(item, titles(item.animeId), if item in counts then counts[item] else 0)
  }

  function LinesOf(order: seq<O.DigestItem>, counts: map<O.DigestItem, nat>, titles: Id -> int)
    : (lines: seq<O.DigestLine>)
    ensures |lines| == |order|
    ensures forall i :: 0 <= i < |order| ==> lines[i] == LineOf(order[i], counts, titles)
  {
    if order == [] then [] else
      var k := |order| - 1;
      LinesOf(order[..k], counts, titles) + [LineOf(order[k], counts, titles)]
  }

  /** Every item counted, once. */
  ghost predicate Orders(order: seq<O.DigestItem>, counts: map<O.DigestItem, nat>) {
    Distinct(order) && forall item :: item in order <==> item in counts
  }

  /** The digest's list: every item of the releases in one line, with the number of its releases and its anime's title,
      in the order of titles. */
  ghost predicate IsDigestList(rows: seq<FollowedRelease>, titles: Id -> int, lines: seq<O.DigestLine>) {
    Sorted(lines, TitleOrder()) && ListsItems(rows, titles, lines)
  }

  ghost predicate ListsItems(rows: seq<FollowedRelease>, titles: Id -> int, lines: seq<O.DigestLine>) {
    && (forall i, j :: 0 <= i < j < |lines| ==> lines[i].item != lines[j].item)
    && (forall line :: line in lines ==>
          && line.releaseCount == CountOf(rows, line.item) > 0
          && line.title == titles(line.item.animeId))
    && (forall item :: CountOf(rows, item) > 0 ==> exists line :: line in lines && line.item == item)
  }

  /** The lines of a digest come in the order of their titles. */
  lemma {:induction false} LinesGoByTitle(rows: seq<FollowedRelease>, titles: Id -> int, lines: seq<O.DigestLine>,
                                          i: nat, j: nat)
    requires IsDigestList(rows, titles, lines) && i < j < |lines|
    ensures titles(lines[i].item.animeId) <= titles(lines[j].item.animeId)
  {
    hide ListsItems;
    TitlesAreRight(rows, titles, lines, i);
    TitlesAreRight(rows, titles, lines, j);
    assert TitleOrder()(lines[i], lines[j]);
  }

  lemma {:induction false} TitlesAreRight(rows: seq<FollowedRelease>, titles: Id -> int, lines: seq<O.DigestLine>,
                                          i: nat)
    requires ListsItems(rows, titles, lines) && i < |lines|
    ensures lines[i].title == titles(lines[i].item.animeId)
  {
    hide CountOf;
    assert lines[i] in lines;
  }

  lemma {:induction false} TitlesAreOrdered()
    ensures TotalPreorder(TitleOrder())
  {
  }

  lemma {:induction false} LinesListItems(rows: seq<FollowedRelease>, titles: Id -> int, order: seq<O.DigestItem>,
                                          counts: map<O.DigestItem, nat>)
    requires Tallies(rows, counts) && Orders(order, counts)
    ensures ListsItems(rows, titles, LinesOf(order, counts, titles))
  {
    hide CountOf, Tallies, LinesOf;
    LinesAreCounted(rows, titles, order, counts);
    LinesCoverItems(rows, titles, order, counts);
  }

  lemma {:induction false} LinesAreCounted(rows: seq<FollowedRelease>, titles: Id -> int, order: seq<O.DigestItem>,
                                           counts: map<O.DigestItem, nat>)
    requires Tallies(rows, counts) && Orders(order, counts)
    ensures forall line :: line in LinesOf(order, counts, titles) ==>
              line.releaseCount == CountOf(rows, line.item) > 0 && line.title == titles(line.item.animeId)
  {
    hide CountOf, Tallies, LinesOf;
    var lines := LinesOf(order, counts, titles);
    forall line | line in lines
      ensures line.releaseCount == CountOf(rows, line.item) > 0 && line.title == titles(line.item.animeId)
    {
      var i :| 0 <= i < |lines| && lines[i] == line;
      var item := order[i];
      assert item in order && item in counts;
      TalliedItem(rows, counts, item);
    }
  }

  lemma {:induction false} LinesCoverItems(rows: seq<FollowedRelease>, titles: Id -> int, order: seq<O.DigestItem>,
                                           counts: map<O.DigestItem, nat>)
    requires Tallies(rows, counts) && Orders(order, counts)
    ensures forall item :: CountOf(rows, item) > 0 ==>
              exists line :: line in LinesOf(order, counts, titles) && line.item == item
  {
    hide CountOf, Tallies, LinesOf;
    var lines := LinesOf(order, counts, titles);
    forall item | CountOf(rows, item) > 0
      ensures exists line :: line in lines && line.item == item
    {
      TalliedItem(rows, counts, item);
      assert item in order;
      var i :| 0 <= i < |order| && order[i] == item;
      assert lines[i] in lines && lines[i].item == item;
    }
  }

  lemma {:induction false} TalliedItem(rows: seq<FollowedRelease>, counts: map<O.DigestItem, nat>, item: O.DigestItem)
    requires Tallies(rows, counts)
    ensures item in counts <==> CountOf(rows, item) > 0
    ensures item in counts ==> counts[item] == CountOf(rows, item)
  {
    hide CountOf;
  }

  lemma {:induction false} PermutedItems(rows: seq<FollowedRelease>, titles: Id -> int, a: seq<O.DigestLine>,
                                         b: seq<O.DigestLine>)
    requires multiset(a) == multiset(b) && ListsItems(rows, titles, a)
    ensures ListsItems(rows, titles, b)
  {
    hide CountOf;
    DistinctStaysDistinct(a, b);
    SameMembers(a, b);
    forall i, j | 0 <= i < j < |b|
      ensures b[i].item != b[j].item
    {
      assert b[i] in a && b[j] in a;
    }
  }

  lemma {:induction false} LinesMakeList(rows: seq<FollowedRelease>, titles: Id -> int, order: seq<O.DigestItem>,
                                         counts: map<O.DigestItem, nat>)
    requires Tallies(rows, counts) && Orders(order, counts)
    ensures IsDigestList(rows, titles, Sort(LinesOf(order, counts, titles), TitleOrder()))
  {
    hide Sort, Sorted, TotalPreorder, ListsItems, Tallies, Orders;
    var lines := LinesOf(order, counts, titles);
    TitlesAreOrdered();
    SortSorts(lines, TitleOrder());
    LinesListItems(rows, titles, order, counts);
    PermutedItems(rows, titles, lines, Sort(lines, TitleOrder()));
  }

  // ---------------------------------------------------------------- the planner's calls

  /** What a group's policy says about its digest; the time zone is an offset. */
  datatype GroupPolicy = GroupPolicy(group: Id, enabled: bool, schedule: Schedule, offset: int, atAll: bool)

  /** What the planner looks up: the followed releases of each group, and the place of each anime's title. */
  datatype Catalog = Catalog(releases: Id -> seq<FollowedRelease>, titles: Id -> int)

  /** Which of the planner's calls raise: the release query, the enqueue, and the publication record after it. */
  datatype Faults = Faults(queryRaises: bool, enqueueRaises: bool, recordRaises: bool)

  datatype Call = Call(policy: GroupPolicy, catalog: Catalog, now: int, faults: Faults) {
    function Day(): int {
      policy.schedule.PeriodDay(now, policy.offset)
    }

    function Key(): (Id, int) {
      (policy.group, Day())
    }

    /** What the digest reports. */
    function Rows(): seq<FollowedRelease> {
      Reported(policy.schedule, catalog.releases(policy.group), now, policy.offset)
    }

    /** There is something to report, and it is due. */
    predicate Plans() {
      policy.schedule.Valid() && DigestDue(policy.schedule, catalog.releases(policy.group), now, policy.offset)
    }

    /** The planning gets as far as storing the job. */
    predicate Enqueues() {
      Plans() && !faults.queryRaises && !faults.enqueueRaises
    }

    /** The planning gets as far as the publication record. */
    predicate Records() {
      Enqueues() && !faults.recordRaises
    }

    predicate Raises() {
      || !policy.schedule.Valid() || faults.queryRaises
      || (Plans() && (faults.enqueueRaises || faults.recordRaises))
    }
  }

  /** The newest release that the call finds in its group's period so far. */
  ghost predicate IsNewest(call: Call, r: FollowedRelease) {
    IsListed(call, r) && forall other :: IsListed(call, other) ==> other.pubDate <= r.pubDate
  }

  predicate IsListed(call: Call, r: FollowedRelease) {
    && r in call.catalog.releases(call.policy.group)
    && IsOfDay(call.policy.schedule, call.Day(), r.pubDate, call.policy.offset) && r.pubDate <= call.now
  }

  lemma {:induction false} RowsAreListed(call: Call, r: FollowedRelease)
    ensures r in call.Rows() <==> IsListed(call, r)
  {
    hide Schedule.PeriodDay, Reported, IsOfDay, InPeriod;
    ReportedMeans(call.policy.schedule, call.catalog.releases(call.policy.group), r, call.now, call.policy.offset);
    OfDayIff(call.policy.schedule, call.Day(), r.pubDate, call.policy.offset);
  }

  lemma {:induction false} NewestIff(call: Call, r: FollowedRelease)
    requires IsNewest(call, r)
    ensures call.Rows() != [] && Latest(call.Rows()) == Some(r.pubDate)
  {
    hide Call.Rows, Call.Day, IsListed, Latest;
    RowsAreListed(call, r);
    LatestIs(call.Rows());
    var t :| t in call.Rows() && t.pubDate == Latest(call.Rows()).value;
    RowsAreListed(call, t);
  }

  lemma {:induction false} LatestIs(rows: seq<FollowedRelease>)
    ensures rows != [] ==> Latest(rows).Some? && (exists r :: r in rows && r.pubDate == Latest(rows).value)
    ensures forall r :: r in rows ==> rows != [] && r.pubDate <= Latest(rows).value
  {
    hide Latest;
  }

  lemma {:induction false} SomethingIsNewest(call: Call) returns (r: FollowedRelease)
    requires call.Rows() != []
    ensures IsNewest(call, r)
  {
    hide Call.Rows, Call.Day, IsListed, Latest;
    LatestIs(call.Rows());
    r :| r in call.Rows() && r.pubDate == Latest(call.Rows()).value;
    RowsAreListed(call, r);
    forall other | IsListed(call, other)
      ensures other.pubDate <= r.pubDate
    {
      RowsAreListed(call, other);
    }
  }

  /** A digest is planned exactly if the schedule can be constructed, something has come out, and it is at least the
      anchor, and either the quiet time after the newest release or the cutoff itself. */
  lemma {:induction false} PlannedIff(call: Call)
    ensures call.Plans() <==>
              call.policy.schedule.Valid()
              && exists r :: IsNewest(call, r)
                   && IsDueAt(call.policy.schedule, call.Day(), r.pubDate, call.now, call.policy.offset)
  {
    hide IsNewest, Schedule.Valid, Call.Rows, Call.Day, IsDueAt;
    if call.policy.schedule.Valid() {
      if r :| IsNewest(call, r)
              && IsDueAt(call.policy.schedule, call.Day(), r.pubDate, call.now, call.policy.offset) {
        PlansWithNewest(call, r);
      }
      if call.Plans() {
        PlansHasRows(call);
        var r := SomethingIsNewest(call);
        PlansWithNewest(call, r);
      }
    }
  }

  lemma {:induction false} PlansHasRows(call: Call)
    requires call.Plans()
    ensures call.Rows() != []
  {
    hide Schedule.PeriodDay, Schedule.SendAt, Latest;
  }

  lemma {:induction false} PlansWithNewest(call: Call, r: FollowedRelease)
    requires call.policy.schedule.Valid() && IsNewest(call, r)
    ensures call.Plans() <==>
            IsDueAt(call.policy.schedule, call.Day(), r.pubDate, call.now, call.policy.offset)
  {
    hide Reported, Schedule.PeriodDay, Schedule.Valid, Latest, IsDueAt, IsOfDay;
    NewestIff(call, r);
    SentWhenFirstDue(call.policy.schedule, call.Day(), r.pubDate, call.policy.offset);
    DueIff(call.policy.schedule, call.Day(), r.pubDate, call.now, call.policy.offset);
  }

  /** A stored digest may be sent from the first instant at which it was due. */
  lemma {:induction false} StoredForWhenFirstDue(job: O.Job, call: Call, r: FollowedRelease)
    requires IsDigest(job, call) && call.policy.schedule.Valid() && IsNewest(call, r)
    ensures IsDueAt(call.policy.schedule, call.Day(), r.pubDate, job.availableAt, call.policy.offset)
    ensures forall t :: IsDueAt(call.policy.schedule, call.Day(), r.pubDate, t, call.policy.offset) ==>
              job.availableAt <= t
    ensures job.expiresAt
         == call.Day() * DAY + (call.policy.schedule.cutoffMinute + 5) * MINUTE - call.policy.offset
  {
    hide Reported, Schedule.PeriodDay, Schedule.Valid, Schedule.SendAt, Latest, IsDueAt, IsOfDay, IsDigestList;
    NewestIff(call, r);
    SentWhenFirstDue(call.policy.schedule, call.Day(), r.pubDate, call.policy.offset);
  }

  /** The groups and days recorded by some calls. */
  function RecordedBy(calls: seq<Call>): set<(Id, int)> {
    set i | 0 <= i < |calls| && calls[i].Records() :: calls[i].Key()
  }

  lemma {:induction false} RecordedByOneMore(calls: seq<Call>, k: nat)
    requires k < |calls|
    ensures RecordedBy(calls[..k + 1]) == RecordedBy(calls[..k]) + if calls[k].Records() then {calls[k].Key()} else {}
  {
    hide Call.Records, Call.Key;
    var more := calls[..k + 1];
    assert forall i :: 0 <= i < k ==> more[i] == calls[..k][i];
    forall key | key in RecordedBy(calls[..k])
      ensures key in RecordedBy(more)
    {
      var i :| 0 <= i < k && calls[..k][i].Records() && calls[..k][i].Key() == key;
      assert more[i].Records() && more[i].Key() == key;
    }
  }

  lemma {:induction false} RecordedIsInSet(calls: seq<Call>, i: nat)
    requires i < |calls| && calls[i].Records()
    ensures calls[i].Key() in RecordedBy(calls)
  {
  }

  /** The call whose releases the stored digest of its group and day reports: the first that stores one. */
  ghost predicate FirstFor(calls: seq<Call>, i: int) {
    && 0 <= i < |calls| && calls[i].Enqueues()
    && forall j :: 0 <= j < i && calls[j].Enqueues() ==> calls[j].Key() != calls[i].Key()
  }

  /** Over every sequence of plannings of a group under one schedule, a release that is listed from its publication on
      is in the group's digests exactly if its day's digest was first planned no earlier than the release. */
  lemma {:induction false} ReleaseIsReportedIff(calls: seq<Call>, group: Id, s: Schedule, offset: int,
                                                r: FollowedRelease, day: int)
    requires s.Valid() && InPeriod(s, day, r.pubDate, offset)
    requires forall i :: 0 <= i < |calls| && calls[i].policy.group == group ==>
               && calls[i].policy.schedule == s && calls[i].policy.offset == offset
               && (r.pubDate <= calls[i].now ==> r in calls[i].catalog.releases(group))
    ensures (exists i :: FirstFor(calls, i) && calls[i].policy.group == group && r in calls[i].Rows())
       <==> (exists i :: FirstFor(calls, i) && calls[i].Key() == (group, day) && r.pubDate <= calls[i].now)
  {
    hide FirstFor, InPeriod, Reported, Schedule.PeriodDay;
    forall i | 0 <= i < |calls| && calls[i].policy.group == group
      ensures r in calls[i].Rows() <==> calls[i].Key() == (group, day) && r.pubDate <= calls[i].now
    {
      ReportedIff(s, calls[i].catalog.releases(group), r, day, calls[i].now, offset);
    }
    FirstIsACall(calls);
  }

  lemma {:induction false} FirstIsACall(calls: seq<Call>)
    ensures forall i :: FirstFor(calls, i) ==> 0 <= i < |calls|
  {
  }

  /** No job has the digest key of this group and day. */
  ghost predicate Free(jobs: map<Id, O.Job>, key: (Id, int)) {
    forall j :: j in jobs ==> !O.SameKey(jobs[j], key.0, O.DailyDigest, O.DailyKey(key.1))
  }

  ghost predicate HasKey(jobs: map<Id, O.Job>, key: (Id, int)) {
    exists j :: j in jobs && O.SameKey(jobs[j], key.0, O.DailyDigest, O.DailyKey(key.1))
  }

  /** Stored jobs are as they were, and every new one is the digest of one of the first `k` calls. */
  ghost predicate AddsDigests(before: map<Id, O.Job>, after: map<Id, O.Job>, calls: seq<Call>, k: nat) {
    && (forall j :: j in before ==> j in after && after[j] == before[j])
    && (forall j :: j in after && j !in before ==> DigestOfOne(after[j], calls, k))
  }

  ghost predicate DigestOfOne(job: O.Job, calls: seq<Call>, k: nat) {
    exists i :: FirstFor(calls, i) && i < k && IsDigest(job, calls[i])
  }

  /** Each of the first `k` calls that is the first for a group and day without a digest has stored its own. */
  ghost predicate StoresFirst(before: map<Id, O.Job>, after: map<Id, O.Job>, calls: seq<Call>, k: nat) {
    forall i :: FirstFor(calls, i) && i < k && Free(before, calls[i].Key()) ==> HasDigest(after, calls[i])
  }

  ghost predicate HasDigest(jobs: map<Id, O.Job>, call: Call) {
    exists j :: j in jobs && IsDigest(jobs[j], call)
  }

  /** What one call does to the outbox. */
  ghost predicate StoresDigest(before: map<Id, O.Job>, after: map<Id, O.Job>, call: Call) {
    && (!call.Enqueues() || !Free(before, call.Key()) ==> after == before)
    && (call.Enqueues() && Free(before, call.Key()) ==>
          exists j :: j !in before && j in after && after == before[j := after[j]] && IsDigest(after[j], call))
  }

  /** A digest is the first of its group and day exactly where the key is free. */
  lemma {:induction false} DigestHasKey(job: O.Job, call: Call)
    requires IsDigest(job, call)
    ensures O.SameKey(job, call.Key().0, O.DailyDigest, O.DailyKey(call.Key().1))
  {
  }

  class ContentPlanner {
    const table: O.NotificationTable
    /** The publication records: group and period day. */
    var published: set<(Id, int)>

    constructor (table: O.NotificationTable)
      ensures this.table == table && published == {}
    {
      this.table, published := table, {};
    }

    /** Counts the releases of every item; `order` is the order in which the items first came. */
    method Tally(rows: seq<FollowedRelease>) returns (order: seq<O.DigestItem>, items: map<O.DigestItem, nat>)
      ensures Tallies(rows, items) && Orders(order, items)
    {
      order, items := [], map[];
      for k := 0 to |rows|
        invariant Tallies(rows[..k], items) && Orders(order, items)
      {
        var item := ItemOf(rows[k]);
        assert rows[..k + 1][..k] == rows[..k];
        if item !in items {
          order := order + [item];
        }
        items := items[item := if item in items then items[item] + 1 else 1];
      }
      assert rows[..|rows|] == rows;
    }

    /** Plans the digest of a group's current period if it is due. A schedule that cannot be constructed raises, and so
        may the query and either of the two transactions. */
    method PlanDaily(call: Call) returns (created: bool, raised: bool)
      modifies this, table
      ensures raised <==> call.Raises()
      ensures StoresDigest(old(table.jobs), table.jobs, call)
      ensures call.Enqueues() ==> HasKey(table.jobs, call.Key())
      ensures published == old(published) + if call.Records() then {call.Key()} else {}
      ensures created <==> call.Records() && call.Key() !in old(published)
    {
      hide *;
      CallMeans(call, table.jobs);
      assert old(published) + {} == old(published);
      if !call.policy.schedule.Valid() || call.faults.queryRaises {
        return false, true;
      }
      var s, offset := call.policy.schedule, call.policy.offset;
      var rows, decision := DecideDigest(s, offset, call.catalog.releases(call.policy.group), call.now);
      if !decision.due {
        return false, false;
      }
      if call.faults.enqueueRaises {
        return false, true;
      }
      var order, items := Tally(rows);
      var lines := MakeLines(rows, call.catalog.titles, order, items);
      EnqueueDigest(call, lines, decision.periodDay, decision.sendAt.value, decision.periodEnd);
      if call.faults.recordRaises {
        return false, true;
      }
      created := call.Key() !in published;
      published := published + {call.Key()};
      raised := false;
    }

    /** The counted items as lines, in the order of their titles. */
    method MakeLines(rows: seq<FollowedRelease>, titles: Id -> int, order: seq<O.DigestItem>,
                     items: map<O.DigestItem, nat>) returns (lines: seq<O.DigestLine>)
      requires Tallies(rows, items) && Orders(order, items)
      ensures IsDigestList(rows, titles, lines)
    {
      hide Tallies, Orders, IsDigestList, LinesOf, Sort;
      LinesMakeList(rows, titles, order, items);
      lines := Sort(LinesOf(order, items, titles), TitleOrder());
    }

    /** The decision the planner acts on, in terms of what is to be reported. */
    method DecideDigest(s: Schedule, offset: int, releases: seq<FollowedRelease>, now: int)
      returns (rows: seq<FollowedRelease>, decision: Decision)
      ensures rows == Reported(s, releases, now, offset)
      ensures decision.due <==> DigestDue(s, releases, now, offset)
      ensures decision.periodDay == s.PeriodDay(now, offset)
      ensures decision.periodEnd == s.PeriodEnd(decision.periodDay, offset)
      ensures decision.due ==>
                && rows != [] && Latest(rows).Some?
                && decision.sendAt == Some(s.SendAt(decision.periodDay, Latest(rows).value, offset))
    {
      var empty := s.Decide(now, offset, None, false);
      var until := if now < empty.periodEnd then now else empty.periodEnd;
      rows := Between(releases, empty.periodStart, until);
      decision := s.Decide(now, offset, Latest(rows), rows != []);
    }

    method EnqueueDigest(call: Call, lines: seq<O.DigestLine>, day: int, sendAt: int, end: int)
      requires call.Enqueues() && IsDigestList(call.Rows(), call.catalog.titles, lines)
      requires day == call.Day() && end == call.policy.schedule.PeriodEnd(day, call.policy.offset)
      requires call.Rows() != [] && Latest(call.Rows()).Some?
      requires sendAt == call.policy.schedule.SendAt(day, Latest(call.Rows()).value, call.policy.offset)
      modifies table
      ensures StoresDigest(old(table.jobs), table.jobs, call) && HasKey(table.jobs, call.Key())
    {
      hide O.Step, IsDigestList, Call.Rows, Call.Day, Call.Enqueues, Latest, Schedule.PeriodEnd, Schedule.SendAt;
      var group := call.policy.group;
      var payload := O.Payload(None, "", {}, 0, [], call.policy.atAll, lines);
      var job := FreshId(table.jobs.Keys);
      var expiresAt := end + 5 * MINUTE;
      ghost var event := O.Enqueue(job, group, O.DailyDigest, O.DailyKey(day), payload, sendAt, expiresAt, call.now);
      O.EnqueueEffect(table.Contents(), event);
      var _ := table.Enqueue(job, group, O.DailyDigest, O.DailyKey(day), payload, sendAt, expiresAt, call.now);
    }

    /** One pass over all policies. If a call raises, the groups after it are not planned in this pass: exactly the
        first `upto` policies have been dealt with. */
    method PlanDue(policies: seq<GroupPolicy>, catalog: Catalog, now: int, faults: seq<Faults>)
      returns (created: nat, raised: bool, ghost upto: nat)
      requires |faults| == |policies|
      modifies this, table
      ensures upto <= |policies| && (raised <==> upto < |policies|)
      ensures raised ==> Aborts(policies[upto], catalog, now, faults[upto])
      ensures forall i :: 0 <= i < upto ==> !Aborts(policies[i], catalog, now, faults[i])
      ensures published == old(published) + RecordedBy(CallsOf(policies, faults, upto, catalog, now))
      ensures |published| == |old(published)| + created
      ensures JobsStay(old(table.jobs), table.jobs)
    {
      hide PassedOver, Aborts, Call.Raises, Call.Records, Call.Key, StoresDigest, HasKey, Call.Enqueues, JobsStay;
      created := 0;
      NothingPassed(published, table.jobs, policies, faults, catalog, now);
      for k := 0 to |policies|
        invariant PassedOver(old(published), published, created, policies, faults, k, catalog, now)
        invariant JobsStay(old(table.jobs), table.jobs)
      {
        ghost var before, jobs := published, table.jobs;
        var call := Call(policies[k], catalog, now, faults[k]);
        AbortMeans(policies[k], catalog, now, faults[k]);
        if !Aborts(policies[k], catalog, now, faults[k]) {
          OneMorePassed(old(published), before, created, policies, faults, k, catalog, now);
        }
        if !policies[k].enabled {
          continue;
        }
        var isNew, failed := PlanDaily(call);
        StoringExtends(jobs, table.jobs, call);
        JobsStayOn(old(table.jobs), jobs, table.jobs);
        if failed {
          assert before + {} == before && published == before;
          PassedMeans(old(published), published, created, policies, faults, k, catalog, now);
          return created, true, k;
        }
        created := created + if isNew then 1 else 0;
      }
      PassedMeans(old(published), published, created, policies, faults, |policies|, catalog, now);
      return created, false, |policies|;
    }

    /** Any sequence of plannings: a digest counts as created at most once per group and day, the first time it is
        recorded, and the stored digest is that of the first planning that stored one. */
    method PlanAll(calls: seq<Call>) returns (created: seq<bool>)
      modifies this, table
      ensures |created| == |calls|
      ensures forall i :: 0 <= i < |calls| ==>
                (created[i] <==> calls[i].Records() && calls[i].Key() !in old(published)
                                 && calls[i].Key() !in RecordedBy(calls[..i]))
      ensures forall i, j :: 0 <= i < j < |calls| && created[i] && created[j] ==> calls[i].Key() != calls[j].Key()
      ensures published == old(published) + RecordedBy(calls)
      ensures AddsDigests(old(table.jobs), table.jobs, calls, |calls|)
      ensures StoresFirst(old(table.jobs), table.jobs, calls, |calls|)
    {
      hide RecordedBy, Call.Records, Call.Key, Call.Enqueues, Call.Raises, StoresDigest, HasKey, AddsDigests,
           StoresFirst, AllHaveKeys;
      created := [];
      NothingRecorded(calls);
      NothingStored(table.jobs, calls);
      for k := 0 to |calls|
        invariant |created| == k && published == old(published) + RecordedBy(calls[..k])
        invariant forall i :: 0 <= i < k ==>
                    (created[i] <==> calls[i].Records() && calls[i].Key() !in old(published)
                                     && calls[i].Key() !in RecordedBy(calls[..i]))
        invariant AddsDigests(old(table.jobs), table.jobs, calls, k)
        invariant StoresFirst(old(table.jobs), table.jobs, calls, k) && AllHaveKeys(table.jobs, calls, k)
      {
        ghost var jobs := table.jobs;
        var isNew, _ := PlanDaily(calls[k]);
        RecordedByOneMore(calls, k);
        OneMoreStored(old(table.jobs), jobs, table.jobs, calls, k);
        created := created + [isNew];
      }
      assert calls[..|calls|] == calls;
      CreatedOnce(calls, created, old(published));
    }
  }

  lemma {:induction false} CreatedOnce(calls: seq<Call>, created: seq<bool>, before: set<(Id, int)>)
    requires |created| == |calls|
    requires forall i :: 0 <= i < |calls| ==>
               (created[i] <==> calls[i].Records() && calls[i].Key() !in before
                                && calls[i].Key() !in RecordedBy(calls[..i]))
    ensures forall i, j :: 0 <= i < j < |calls| && created[i] && created[j] ==> calls[i].Key() != calls[j].Key()
  {
    hide RecordedBy, Call.Records, Call.Key;
    forall i, j | 0 <= i < j < |calls| && created[i] && created[j]
      ensures calls[i].Key() != calls[j].Key()
    {
      assert calls[..j][i] == calls[i];
      RecordedIsInSet(calls[..j], i);
    }
  }

  ghost predicate AllHaveKeys(jobs: map<Id, O.Job>, calls: seq<Call>, k: nat) {
    forall i :: 0 <= i < k && i < |calls| && calls[i].Enqueues() ==> HasKey(jobs, calls[i].Key())
  }

  lemma {:induction false} NothingStored(jobs: map<Id, O.Job>, calls: seq<Call>)
    ensures AddsDigests(jobs, jobs, calls, 0) && StoresFirst(jobs, jobs, calls, 0) && AllHaveKeys(jobs, calls, 0)
  {
    hide Call.Enqueues, Call.Key, IsDigest;
  }

  lemma {:induction false} OneMoreStored(before: map<Id, O.Job>, jobs: map<Id, O.Job>, more: map<Id, O.Job>,
                                         calls: seq<Call>, k: nat)
    requires k < |calls| && AddsDigests(before, jobs, calls, k) && StoresFirst(before, jobs, calls, k)
    requires AllHaveKeys(jobs, calls, k)
    requires StoresDigest(jobs, more, calls[k]) && (calls[k].Enqueues() ==> HasKey(more, calls[k].Key()))
    ensures AddsDigests(before, more, calls, k + 1) && StoresFirst(before, more, calls, k + 1)
    ensures AllHaveKeys(more, calls, k + 1)
  {
    hide AddsDigests, StoresFirst, AllHaveKeys, StoresDigest, HasKey, Call.Enqueues, Call.Key;
    StoringExtends(jobs, more, calls[k]);
    if calls[k].Enqueues() {
      FreeIffFirst(before, jobs, calls, k);
    }
    FirstEnqueues(calls, k);
    StillHaveKeys(jobs, more, calls, k);
    StillAddsDigests(before, jobs, more, calls, k);
    StillStoresFirst(before, jobs, more, calls, k);
  }

  ghost predicate JobsStay(jobs: map<Id, O.Job>, more: map<Id, O.Job>) {
    forall j :: j in jobs ==> j in more && more[j] == jobs[j]
  }

  lemma {:induction false} StoringExtends(jobs: map<Id, O.Job>, more: map<Id, O.Job>, call: Call)
    requires StoresDigest(jobs, more, call)
    ensures JobsStay(jobs, more)
  {
    hide IsDigest, Free, Call.Enqueues, Call.Key;
  }

  lemma {:induction false} FirstEnqueues(calls: seq<Call>, i: int)
    ensures FirstFor(calls, i) ==> 0 <= i < |calls| && calls[i].Enqueues()
  {
    hide Call.Enqueues, Call.Key;
  }

  lemma {:induction false} StillAddsDigests(before: map<Id, O.Job>, jobs: map<Id, O.Job>, more: map<Id, O.Job>,
                                            calls: seq<Call>, k: nat)
    requires k < |calls| && AddsDigests(before, jobs, calls, k) && StoresDigest(jobs, more, calls[k])
    requires calls[k].Enqueues() && Free(jobs, calls[k].Key()) ==> FirstFor(calls, k)
    ensures AddsDigests(before, more, calls, k + 1)
  {
    hide FirstFor, IsDigest, Free, Call.Enqueues, Call.Key;
    forall j | j in more && j !in before
      ensures DigestOfOne(more[j], calls, k + 1)
    {
      if j in jobs {
        assert more[j] == jobs[j] && DigestOfOne(jobs[j], calls, k);
      } else {
        assert FirstFor(calls, k) && IsDigest(more[j], calls[k]);
      }
    }
  }

  lemma {:induction false} StillStoresFirst(before: map<Id, O.Job>, jobs: map<Id, O.Job>, more: map<Id, O.Job>,
                                            calls: seq<Call>, k: nat)
    requires k < |calls| && StoresFirst(before, jobs, calls, k) && StoresDigest(jobs, more, calls[k])
    requires JobsStay(jobs, more)
    requires FirstFor(calls, k) && Free(before, calls[k].Key()) ==> calls[k].Enqueues() && Free(jobs, calls[k].Key())
    ensures StoresFirst(before, more, calls, k + 1)
  {
    hide FirstFor, IsDigest, Free, Call.Enqueues, Call.Key;
    FirstIsACall(calls);
    forall i | FirstFor(calls, i) && 0 <= i < k && Free(before, calls[i].Key())
      ensures HasDigest(more, calls[i])
    {
      assert HasDigest(jobs, calls[i]);
      var j :| j in jobs && IsDigest(jobs[j], calls[i]);
      assert j in more && more[j] == jobs[j];
    }
  }

  lemma {:induction false} StillHaveKeys(jobs: map<Id, O.Job>, more: map<Id, O.Job>, calls: seq<Call>, k: nat)
    requires k < |calls| && AllHaveKeys(jobs, calls, k) && JobsStay(jobs, more)
    requires calls[k].Enqueues() ==> HasKey(more, calls[k].Key())
    ensures AllHaveKeys(more, calls, k + 1)
  {
    hide Call.Enqueues, Call.Key;
    forall i | 0 <= i < k && calls[i].Enqueues()
      ensures HasKey(more, calls[i].Key())
    {
      var key := calls[i].Key();
      var j :| j in jobs && O.SameKey(jobs[j], key.0, O.DailyDigest, O.DailyKey(key.1));
      assert j in more;
    }
  }

  /** The key of the next call is free exactly if it was free at first and no call so far has stored a digest under
      it. */
  lemma {:induction false} FreeIffFirst(before: map<Id, O.Job>, jobs: map<Id, O.Job>, calls: seq<Call>, k: nat)
    requires k < |calls| && AddsDigests(before, jobs, calls, k) && AllHaveKeys(jobs, calls, k)
    requires calls[k].Enqueues()
    ensures Free(jobs, calls[k].Key()) <==> Free(before, calls[k].Key()) && FirstFor(calls, k)
  {
    hide Call.Enqueues, Call.Key, IsDigest;
    var key := calls[k].Key();
    if !Free(jobs, key) && Free(before, key) {
      var j :| j in jobs && O.SameKey(jobs[j], key.0, O.DailyDigest, O.DailyKey(key.1));
      var i :| FirstFor(calls, i) && i < k && IsDigest(jobs[j], calls[i]);
      DigestHasKey(jobs[j], calls[i]);
    }
  }

  /** The planning of this group raises, and with it the pass. */
  predicate Aborts(policy: GroupPolicy, catalog: Catalog, now: int, faults: Faults) {
    policy.enabled && Call(policy, catalog, now, faults).Raises()
  }

  /** The calls for the enabled ones of the first `k` policies, in order. */
  function CallsOf(policies: seq<GroupPolicy>, faults: seq<Faults>, k: nat, catalog: Catalog, now: int): seq<Call>
    requires k <= |policies| == |faults|
  {
    if k == 0 then [] else
      CallsOf(policies, faults, k - 1, catalog, now)
      + if policies[k - 1].enabled then [Call(policies[k - 1], catalog, now, faults[k - 1])] else []
  }

  lemma {:induction false} OneMoreKey(keys: set<(Id, int)>, key: (Id, int))
    ensures |keys + {key}| == |keys| + if key in keys then 0 else 1
    ensures keys + {} == keys
  {
    if key in keys {
      assert keys + {key} == keys;
    }
  }

  lemma {:induction false} NoCallsYet(policies: seq<GroupPolicy>, faults: seq<Faults>, catalog: Catalog, now: int)
    requires |policies| == |faults|
    ensures RecordedBy(CallsOf(policies, faults, 0, catalog, now)) == {}
  {
  }

  lemma {:induction false} OneMoreCall(policies: seq<GroupPolicy>, faults: seq<Faults>, k: nat, catalog: Catalog,
                                       now: int)
    requires k < |policies| == |faults|
    ensures var call := Call(policies[k], catalog, now, faults[k]);
            RecordedBy(CallsOf(policies, faults, k + 1, catalog, now))
            == RecordedBy(CallsOf(policies, faults, k, catalog, now))
               + if policies[k].enabled && call.Records() then {call.Key()} else {}
  {
    hide Call.Records, Call.Key, RecordedBy;
    var calls, call := CallsOf(policies, faults, k, catalog, now), Call(policies[k], catalog, now, faults[k]);
    OneMoreKey(RecordedBy(calls), call.Key());
    if policies[k].enabled {
      assert (calls + [call])[..|calls|] == calls && (calls + [call])[..|calls| + 1] == calls + [call];
      RecordedByOneMore(calls + [call], |calls|);
    } else {
      assert calls + [] == calls;
    }
  }

  /** The first `k` policies have been planned without an abort, and the new digests counted. */
  ghost predicate PassedOver(first: set<(Id, int)>, published: set<(Id, int)>, created: nat, policies: seq<GroupPolicy>,
                             faults: seq<Faults>, k: nat, catalog: Catalog, now: int)
    requires k <= |policies| == |faults|
  {
    && published == first + RecordedBy(CallsOf(policies, faults, k, catalog, now))
    && |published| == |first| + created
    && forall i :: 0 <= i < k ==> !Aborts(policies[i], catalog, now, faults[i])
  }

  lemma {:induction false} NothingPassed(first: set<(Id, int)>, jobs: map<Id, O.Job>, policies: seq<GroupPolicy>,
                                         faults: seq<Faults>, catalog: Catalog, now: int)
    requires |policies| == |faults|
    ensures PassedOver(first, first, 0, policies, faults, 0, catalog, now) && JobsStay(jobs, jobs)
  {
    NoCallsYet(policies, faults, catalog, now);
    assert first + {} == first;
  }

  lemma {:induction false} OneMorePassed(first: set<(Id, int)>, published: set<(Id, int)>, created: nat,
                                         policies: seq<GroupPolicy>, faults: seq<Faults>, k: nat, catalog: Catalog,
                                         now: int)
    requires k < |policies| == |faults| && PassedOver(first, published, created, policies, faults, k, catalog, now)
    requires !Aborts(policies[k], catalog, now, faults[k])
    ensures var call := Call(policies[k], catalog, now, faults[k]);
            var records := policies[k].enabled && call.Records();
            && PassedOver(first, published + (if records then {call.Key()} else {}),
                          created + (if records && call.Key() !in published then 1 else 0),
                          policies, faults, k + 1, catalog, now)
            && (!records ==> PassedOver(first, published, created, policies, faults, k + 1, catalog, now))
  {
    hide RecordedBy, CallsOf, Aborts, Call.Records, Call.Key;
    OneMoreCall(policies, faults, k, catalog, now);
    OneMoreKey(published, Call(policies[k], catalog, now, faults[k]).Key());
  }

  lemma {:induction false} PassedMeans(first: set<(Id, int)>, published: set<(Id, int)>, created: nat,
                                       policies: seq<GroupPolicy>, faults: seq<Faults>, k: nat, catalog: Catalog,
                                       now: int)
    requires k <= |policies| == |faults| && PassedOver(first, published, created, policies, faults, k, catalog, now)
    ensures published == first + RecordedBy(CallsOf(policies, faults, k, catalog, now))
    ensures |published| == |first| + created
    ensures forall i :: 0 <= i < k ==> !Aborts(policies[i], catalog, now, faults[i])
  {
    hide RecordedBy, CallsOf, Aborts;
  }

  lemma {:induction false} JobsStayOn(a: map<Id, O.Job>, b: map<Id, O.Job>, c: map<Id, O.Job>)
    requires JobsStay(a, b) && JobsStay(b, c)
    ensures JobsStay(a, c)
  {
  }

  lemma {:induction false} AbortMeans(policy: GroupPolicy, catalog: Catalog, now: int, faults: Faults)
    ensures var call := Call(policy, catalog, now, faults);
            && (Aborts(policy, catalog, now, faults) <==> policy.enabled && call.Raises())
            && (call.Raises() ==> !call.Records())
  {
    hide DigestDue, Schedule.Valid;
  }

  lemma {:induction false} NothingRecorded(calls: seq<Call>)
    ensures RecordedBy(calls[..0]) == {}
  {
  }

  /** What the predicates of a call come to, and that a call that stores nothing leaves the outbox as it is. */
  lemma {:induction false} CallMeans(call: Call, jobs: map<Id, O.Job>)
    ensures call.Raises() ==> !call.Records()
    ensures !call.policy.schedule.Valid() || call.faults.queryRaises ==> call.Raises() && !call.Enqueues()
    ensures call.policy.schedule.Valid() && !call.faults.queryRaises ==>
              var due := DigestDue(call.policy.schedule, call.catalog.releases(call.policy.group), call.now,
                                   call.policy.offset);
              && (call.Raises() <==> due && (call.faults.enqueueRaises || call.faults.recordRaises))
              && (call.Enqueues() <==> due && !call.faults.enqueueRaises)
    ensures call.Records() <==> call.Enqueues() && !call.faults.recordRaises
    ensures call.Day() == call.policy.schedule.PeriodDay(call.now, call.policy.offset)
    ensures call.Key() == (call.policy.group, call.Day())
    ensures call.Rows()
         == Reported(call.policy.schedule, call.catalog.releases(call.policy.group), call.now, call.policy.offset)
    ensures !call.Enqueues() ==> StoresDigest(jobs, jobs, call)
  {
    hide DigestDue, Reported, Schedule.PeriodDay, Schedule.Valid;
  }

  /** The digest of the period of `now`: what it reports, from when and until when it may be sent. */
  ghost predicate IsDigest(job: O.Job, call: Call) {
    && O.SameKey(job, call.policy.group, O.DailyDigest, O.DailyKey(call.Day())) && job.status == O.Pending
    && call.Rows() != [] && Latest(call.Rows()).Some?
    && IsDigestList(call.Rows(), call.catalog.titles, job.payload.digest) && job.payload.atAll == call.policy.atAll
    && job.availableAt == call.policy.schedule.SendAt(call.Day(), Latest(call.Rows()).value, call.policy.offset)
    && job.expiresAt == call.policy.schedule.PeriodEnd(call.Day(), call.policy.offset) + 5 * MINUTE
  }
}
