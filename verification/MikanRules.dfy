/** The pure rules of the Mikan release flow: episode numbers, freshness, subscriber filters, and which members of
    which groups are told about which releases. Times are in microseconds. */
module MikanRules {
  import opened Options
  import opened Durations
  import opened Identifiers
  import opened Sequences
  import opened Sorting

  /** Languages, subtitle groups and resolutions are compared case-insensitively; here they are folded already. */
  datatype Release = Release(
    guid: Id,
    fingerprint: Id,
    pubDate: int,
    animeId: Id,
    episodeLabel: Option<string>,
    language: Option<Id>,
    subtitleGroups: set<Id>,
    resolutions: set<Id>,
    status: ReleaseStatus)

  datatype ReleaseStatus = Unmatched | Batched | SuppressedRelease

  datatype Filter = Filter(language: Option<Id>, subtitleGroups: set<Id>, resolutions: set<Id>)

  /** A subscriber without a stored filter has the empty one. */
  datatype Subscriber = Subscriber(group: Id, user: Id, filter: Filter)

  datatype Occurrence = Occurrence(airAt: Option<int>, airDay: int, episodeLabel: string)

  // ---------------------------------------------------------------- episode numbers

  predicate IsSpace(c: char) {
    c in {' ', '\t', '\n', '\r'}
  }

  predicate IsDigit(c: char) {
    '0' <= c <= '9'
  }

  function Strip(s: string): string {
    if s == [] then s
    else if IsSpace(s[0]) then Strip(s[1..])
    else if IsSpace(s[|s| - 1]) then Strip(s[..|s| - 1])
    else s
  }

  function Digit(c: char): nat
    requires IsDigit(c)
  {
    c as int - '0' as int
  }

  function DigitsValue(s: string): nat
    requires forall i :: 0 <= i < |s| ==> IsDigit(s[i])
  {
    if s == [] then 0 else 10 * DigitsValue(s[..|s| - 1]) + Digit(s[|s| - 1])
  }

  /** The number an episode label stands for; "3", "03" and " 3 " stand for the same one. */
  function EpisodeNumber(text: string): Option<nat> {
    var stripped := Strip(text);
    if stripped != [] && forall i :: 0 <= i < |stripped| ==> IsDigit(stripped[i])
    then Some(DigitsValue(stripped)) else None
  }

  predicate Blank(s: string) {
    forall i :: 0 <= i < |s| ==> IsSpace(s[i])
  }

  predicate Digits(s: string) {
    s != [] && forall i :: 0 <= i < |s| ==> IsDigit(s[i])
  }

  /** The usual decimal notation of a number. */
  function Decimal(n: nat): (s: string)
    ensures Digits(s)
  {
    if n < 10 then [(n + '0' as int) as char] else Decimal(n / 10) + [(n % 10 + '0' as int) as char]
  }

  lemma {:induction false} StripKeepsTheMiddle(a: string, d: string, b: string)
    requires Blank(a) && Blank(b) && Digits(d)
    ensures Strip(a + d + b) == d
  {
    var s := a + d + b;
    if a != [] {
      assert s[1..] == a[1..] + d + b;
      StripKeepsTheMiddle(a[1..], d, b);
    } else if b != [] {
      assert s[0] == d[0] && s[..|s| - 1] == a + d + b[..|b| - 1];
      StripKeepsTheMiddle(a, d, b[..|b| - 1]);
    } else {
      assert s == d && s[0] == d[0] && s[|s| - 1] == d[|d| - 1];
    }
  }

  lemma {:induction false} StripLeavesBlanks(s: string) returns (a: string, b: string)
    ensures Blank(a) && Blank(b) && s == a + Strip(s) + b
  {
    hide IsSpace;
    a, b := [], [];
    if s == [] {
      assert a + Strip(s) + b == s;
    } else if IsSpace(s[0]) {
      var rest := s[1..];
      a, b := StripLeavesBlanks(rest);
      assert s == [s[0]] + rest;
      assert [s[0]] + (a + Strip(rest) + b) == [s[0]] + a + Strip(rest) + b;
      a := [s[0]] + a;
    } else if IsSpace(s[|s| - 1]) {
      var last, rest := s[|s| - 1], s[..|s| - 1];
      a, b := StripLeavesBlanks(rest);
      assert s == rest + [last];
      assert a + Strip(rest) + b + [last] == a + Strip(rest) + (b + [last]);
      b := b + [last];
    } else {
      assert a + Strip(s) + b == s;
    }
  }

  /** A label has a number exactly if it is a row of digits, with blanks around it or not; the blanks do not matter. */
  lemma {:induction false} NumberedIff(text: string)
    ensures EpisodeNumber(text).Some? <==> exists a, d, b :: Blank(a) && Digits(d) && Blank(b) && text == a + d + b
    ensures forall a, d, b :: Blank(a) && Digits(d) && Blank(b) && text == a + d + b ==>
              EpisodeNumber(text) == EpisodeNumber(d)
  {
    forall a, d, b | Blank(a) && Digits(d) && Blank(b) && text == a + d + b
      ensures EpisodeNumber(text).Some? && EpisodeNumber(text) == EpisodeNumber(d)
    {
      StripKeepsTheMiddle(a, d, b);
      StripKeepsTheMiddle([], d, []);
      assert [] + d + [] == d;
    }
    if EpisodeNumber(text).Some? {
      var a, b := StripLeavesBlanks(text);
      assert Digits(Strip(text));
    }
  }

  lemma {:induction false} DigitsAreStripped(s: string)
    requires Digits(s)
    ensures EpisodeNumber(s) == Some(DigitsValue(s))
  {
    StripKeepsTheMiddle([], s, []);
    assert [] + s + [] == s;
  }

  /** Leading zeros do not matter: "3" and "03" are one episode. */
  lemma {:induction false} LeadingZero(s: string)
    requires Digits(s)
    ensures EpisodeNumber("0" + s) == EpisodeNumber(s)
  {
    DigitsAreStripped(s);
    DigitsAreStripped("0" + s);
    ZeroAddsNothing(s);
  }

  lemma {:induction false} ZeroAddsNothing(s: string)
    requires forall i :: 0 <= i < |s| ==> IsDigit(s[i])
    ensures DigitsValue("0" + s) == DigitsValue(s)
  {
    var more := "0" + s;
    if s == [] {
      assert more[..0] == [];
    } else {
      assert more[..|more| - 1] == "0" + s[..|s| - 1];
      ZeroAddsNothing(s[..|s| - 1]);
    }
  }

  /** A label that is a number's decimal notation stands for that number. */
  lemma {:induction false} NumberOfDecimal(n: nat)
    ensures EpisodeNumber(Decimal(n)) == Some(n)
  {
    DigitsAreStripped(Decimal(n));
    ValueOfDecimal(n);
  }

  lemma {:induction false} ValueOfDecimal(n: nat)
    ensures DigitsValue(Decimal(n)) == n
  {
    var s := Decimal(n);
    if n < 10 {
      assert s[..0] == [];
    } else {
      ValueOfDecimal(n / 10);
      assert s[..|s| - 1] == Decimal(n / 10);
    }
  }

  predicate Aired(occurrence: Occurrence, now: int) {
    match occurrence.airAt
    case Some(t) => t <= now
    case None => occurrence.airDay <= now / DAY
  }

  /** With an exact time an episode has aired from then on, and without one from the start of its day. */
  lemma {:induction false} AiredSince(occurrence: Occurrence, now: int)
    ensures Aired(occurrence, now) <==>
            (if occurrence.airAt.Some? then occurrence.airAt.value else occurrence.airDay * (86_400 * SECOND)) <= now
  {
  }

  function Greater(a: Option<nat>, b: Option<nat>): Option<nat> {
    if a == None then b else if b == None then a else if b.value > a.value then b else a
  }

  function LatestAired(occurrences: seq<Occurrence>, now: int): Option<nat> {
    if occurrences == [] then None else
      var last := occurrences[|occurrences| - 1];
      Greater(LatestAired(occurrences[..|occurrences| - 1], now),
              if Aired(last, now) then EpisodeNumber(last.episodeLabel) else None)
  }

  function Capped(episode: Option<nat>, cap: Option<nat>): Option<nat> {
    if episode.Some? && cap.Some? && episode.value > cap.value then None else episode
  }

  function HighestOf(labels: seq<Option<string>>, cap: Option<nat>): Option<nat> {
    if labels == [] then None else
      var last := labels[|labels| - 1];
      Greater(HighestOf(labels[..|labels| - 1], cap),
              Capped(if last.Some? then EpisodeNumber(last.value) else None, cap))
  }

  function HighestAvailableEpisode(occurrences: seq<Occurrence>, labels: seq<Option<string>>, now: int): Option<nat> {
    HighestOf(labels, LatestAired(occurrences, now))
  }

  /** A label that names an episode no later than the cap. */
  ghost predicate Available(labels: seq<Option<string>>, cap: Option<nat>, episode: nat) {
    && (exists i :: 0 <= i < |labels| && labels[i].Some? && EpisodeNumber(labels[i].value) == Some(episode))
    && (cap.Some? ==> episode <= cap.value)
  }

  lemma {:induction false} HighestIsGreatestAvailable(labels: seq<Option<string>>, cap: Option<nat>)
    ensures HighestOf(labels, cap) == None ==> forall e: nat :: !Available(labels, cap, e)
    ensures HighestOf(labels, cap).Some? ==>
              && Available(labels, cap, HighestOf(labels, cap).value)
              && forall e: nat :: Available(labels, cap, e) ==> e <= HighestOf(labels, cap).value
  {
    hide EpisodeNumber;
    if labels != [] {
      var front := labels[..|labels| - 1];
      HighestIsGreatestAvailable(front, cap);
      forall e: nat
        ensures Available(labels, cap, e) <==>
                || Available(front, cap, e)
                || (labels[|front|].Some? && Capped(EpisodeNumber(labels[|front|].value), cap) == Some(e))
      {
        if Available(front, cap, e) {
          var i :| 0 <= i < |front| && front[i].Some? && EpisodeNumber(front[i].value) == Some(e);
          assert labels[i] == front[i];
        }
        if Available(labels, cap, e) {
          var i :| 0 <= i < |labels| && labels[i].Some? && EpisodeNumber(labels[i].value) == Some(e);
          if i < |front| {
            assert front[i] == labels[i];
          }
        }
      }
    }
  }

  /** An occurrence that has aired names this episode. */
  ghost predicate AiredEpisode(occurrences: seq<Occurrence>, now: int, episode: nat) {
    exists i :: 0 <= i < |occurrences| && Aired(occurrences[i], now)
                && EpisodeNumber(occurrences[i].episodeLabel) == Some(episode)
  }

  lemma {:induction false} LatestIsGreatestAired(occurrences: seq<Occurrence>, now: int)
    ensures LatestAired(occurrences, now) == None ==> forall e: nat :: !AiredEpisode(occurrences, now, e)
    ensures LatestAired(occurrences, now).Some? ==>
              && AiredEpisode(occurrences, now, LatestAired(occurrences, now).value)
              && forall e: nat :: AiredEpisode(occurrences, now, e) ==> e <= LatestAired(occurrences, now).value
  {
    hide EpisodeNumber, Aired;
    if occurrences != [] {
      var front, last := occurrences[..|occurrences| - 1], occurrences[|occurrences| - 1];
      LatestIsGreatestAired(front, now);
      forall e: nat
        ensures AiredEpisode(occurrences, now, e) <==>
                || AiredEpisode(front, now, e)
                || (Aired(last, now) && EpisodeNumber(last.episodeLabel) == Some(e))
      {
        if i :| 0 <= i < |front| && Aired(front[i], now) && EpisodeNumber(front[i].episodeLabel) == Some(e) {
          assert occurrences[i] == front[i];
        }
        if i :| 0 <= i < |front| && Aired(occurrences[i], now)
                && EpisodeNumber(occurrences[i].episodeLabel) == Some(e) {
          assert front[i] == occurrences[i];
        }
      }
    }
  }

  // ---------------------------------------------------------------- freshness and filters

  predicate IsFresh(pubDate: int, now: int) {
    now - DAY < pubDate <= now
  }

  /** A release is fresh from its publication on, for twenty-four hours. */
  lemma {:induction false} FreshForADay(pubDate: int, now: int)
    ensures IsFresh(pubDate, now) <==> pubDate <= now < pubDate + 86_400 * SECOND
  {
  }

  predicate Disjoint(a: set<Id>, b: set<Id>) {
    a * b == {}
  }

  predicate Matches(release: Release, filter: Filter) {
    && (filter.language.Some? ==> release.language == filter.language)
    && (filter.subtitleGroups != {} ==> !Disjoint(filter.subtitleGroups, release.subtitleGroups))
    && (filter.resolutions != {} ==> !Disjoint(filter.resolutions, release.resolutions))
  }

  /** A release passes a filter exactly if it has the language asked for, if one is, and one of the subtitle groups and
      one of the resolutions asked for, where any are. */
  lemma {:induction false} PassesIff(release: Release, filter: Filter)
    ensures Matches(release, filter) <==>
              && (filter.language == None || release.language == filter.language)
              && (filter.subtitleGroups == {} || exists g :: g in filter.subtitleGroups && g in release.subtitleGroups)
              && (filter.resolutions == {} || exists r :: r in filter.resolutions && r in release.resolutions)
  {
    hide Disjoint;
    SharesOne(filter.subtitleGroups, release.subtitleGroups);
    SharesOne(filter.resolutions, release.resolutions);
  }

  lemma {:induction false} SharesOne(a: set<Id>, b: set<Id>)
    ensures !Disjoint(a, b) <==> exists x :: x in a && x in b
  {
    if a * b != {} {
      var x := CommonElement(a, b);
      assert x in a && x in b;
    }
    if x :| x in a && x in b {
      assert x in a * b;
    }
  }

  /** The ids among `ids` of releases that pass a filter, in the same order. */
  function Matching(releases: map<Id, Release>, ids: seq<Id>, filter: Filter): (matched: seq<Id>)
    requires Usable(releases, ids)
    ensures forall id :: id in matched <==> id in ids && Matches(releases[id], filter)
  {
    if ids == [] then [] else
      var last := ids[|ids| - 1];
      Matching(releases, ids[..|ids| - 1], filter) + if Matches(releases[last], filter) then [last] else []
  }

  method FilterForUser(releases: map<Id, Release>, ids: seq<Id>, filter: Filter) returns (matched: seq<Id>)
    requires Usable(releases, ids)
    ensures matched == Matching(releases, ids, filter)
  {
    matched := [];
    for k := 0 to |ids|
      invariant matched == Matching(releases, ids[..k], filter)
    {
      assert ids[..k + 1][..k] == ids[..k];
      var release := releases[ids[k]];
      if filter.language.Some? && release.language != filter.language {
        continue;
      }
      if filter.subtitleGroups != {} && Disjoint(filter.subtitleGroups, release.subtitleGroups) {
        continue;
      }
      if filter.resolutions != {} && Disjoint(filter.resolutions, release.resolutions) {
        continue;
      }
      matched := matched + [ids[k]];
    }
    assert ids[..|ids|] == ids;
  }

  // ---------------------------------------------------------------- shares

  /** What one group is told: whom to mention and about which releases. */
  datatype Share = Share(users: set<Id>, releases: set<Id>)

  const NO_SHARE := Share({}, {})

  predicate Usable(releases: map<Id, Release>, ids: seq<Id>) {
    forall i :: 0 <= i < |ids| ==> ids[i] in releases
  }

  /** What one more subscriber adds to the share of a group. */
  function AddTo(share: Share, releases: map<Id, Release>, ids: seq<Id>, subscriber: Subscriber, group: Id): Share
    requires Usable(releases, ids)
  {
    var matched := Matching(releases, ids, subscriber.filter);
    if subscriber.group == group && matched != []
    then Share(share.users + {subscriber.user}, share.releases + set r | r in matched) else share
  }

  function ShareOf(releases: map<Id, Release>, ids: seq<Id>, subscribers: seq<Subscriber>, group: Id): Share
    requires Usable(releases, ids)
  {
    if subscribers == [] then NO_SHARE else
      var k := |subscribers| - 1;
      AddTo(ShareOf(releases, ids, subscribers[..k], group), releases, ids, subscribers[k], group)
  }

  /** One of the releases passes the filter. */
  ghost predicate Interested(releases: map<Id, Release>, ids: seq<Id>, filter: Filter)
    requires Usable(releases, ids)
  {
    exists i :: 0 <= i < |ids| && Matches(releases[ids[i]], filter)
  }

  lemma {:induction false} InterestedIffMatched(releases: map<Id, Release>, ids: seq<Id>, filter: Filter)
    requires Usable(releases, ids)
    ensures Interested(releases, ids, filter) <==> Matching(releases, ids, filter) != []
  {
    hide Matches;
    var matched := Matching(releases, ids, filter);
    if matched != [] {
      assert matched[0] in matched;
    }
    if i :| 0 <= i < |ids| && Matches(releases[ids[i]], filter) {
      assert ids[i] in matched;
    }
  }

  /** A member is mentioned exactly when one of their subscriptions in the group passes one of the releases. */
  lemma {:induction false} WhoIsMentioned(releases: map<Id, Release>, ids: seq<Id>, subscribers: seq<Subscriber>,
                                          group: Id, user: Id)
    requires Usable(releases, ids)
    ensures user in ShareOf(releases, ids, subscribers, group).users <==>
            exists s :: s in subscribers && s.group == group && s.user == user && Interested(releases, ids, s.filter)
  {
    hide Interested, Matching;
    if subscribers != [] {
      var k := |subscribers| - 1;
      WhoIsMentioned(releases, ids, subscribers[..k], group, user);
      assert subscribers == subscribers[..k] + [subscribers[k]];
      InterestedIffMatched(releases, ids, subscribers[k].filter);
    }
  }

  /** A release is announced exactly when it passes the filter of one of the group's subscribers. */
  lemma {:induction false} WhatIsAnnounced(releases: map<Id, Release>, ids: seq<Id>, subscribers: seq<Subscriber>,
                                           group: Id, release: Id)
    requires Usable(releases, ids)
    ensures release in ShareOf(releases, ids, subscribers, group).releases <==>
            release in ids && exists s :: s in subscribers && s.group == group && Matches(releases[release], s.filter)
  {
    hide Matches;
    if subscribers != [] {
      var k := |subscribers| - 1;
      WhatIsAnnounced(releases, ids, subscribers[..k], group, release);
      assert subscribers == subscribers[..k] + [subscribers[k]];
    }
  }

  /** A group has members to mention exactly when it has releases to announce. */
  lemma {:induction false} SharesAreWhole(releases: map<Id, Release>, ids: seq<Id>, subscribers: seq<Subscriber>,
                                          group: Id)
    requires Usable(releases, ids)
    ensures var share := ShareOf(releases, ids, subscribers, group); share.users == {} <==> share.releases == {}
    ensures ShareOf(releases, ids, subscribers, group).releases <= set r | r in ids
  {
    if subscribers != [] {
      var k := |subscribers| - 1;
      SharesAreWhole(releases, ids, subscribers[..k], group);
      var share := ShareOf(releases, ids, subscribers, group);
      var matched := Matching(releases, ids, subscribers[k].filter);
      if subscribers[k].group == group && matched != [] {
        assert matched[0] in matched && matched[0] in share.releases && subscribers[k].user in share.users;
      }
    }
  }

  function ShareAt(shares: map<Id, Share>, group: Id): Share {
    if group in shares then shares[group] else NO_SHARE
  }

  /** The groups that have a share, in order of their first match, and what it is. */
  ghost predicate SharedOut(releases: map<Id, Release>, ids: seq<Id>, subscribers: seq<Subscriber>, order: seq<Id>,
                            shares: map<Id, Share>)
    requires Usable(releases, ids)
  {
    && (forall g :: ShareAt(shares, g) == ShareOf(releases, ids, subscribers, g))
    && (forall g :: g in shares <==> ShareOf(releases, ids, subscribers, g).users != {})
    && Distinct(order) && forall g :: g in order <==> g in shares
  }

  lemma {:induction false} NothingSharedOut(releases: map<Id, Release>, ids: seq<Id>)
    requires Usable(releases, ids)
    ensures SharedOut(releases, ids, [], [], map[])
  {
  }

  lemma {:induction false} OneMoreSubscriber(releases: map<Id, Release>, ids: seq<Id>, subscribers: seq<Subscriber>,
                                             s: Subscriber, order: seq<Id>, shares: map<Id, Share>)
    requires Usable(releases, ids) && SharedOut(releases, ids, subscribers, order, shares)
    ensures var matched := Matching(releases, ids, s.filter);
            var share := ShareAt(shares, s.group);
            if matched == [] then SharedOut(releases, ids, subscribers + [s], order, shares)
            else SharedOut(releases, ids, subscribers + [s], if s.group in shares then order else order + [s.group],
                           shares[s.group := Share(share.users + {s.user}, share.releases + set r | r in matched)])
  {
    hide Matching;
    forall g
      ensures ShareOf(releases, ids, subscribers + [s], g)
           == AddTo(ShareOf(releases, ids, subscribers, g), releases, ids, s, g)
    {
      assert (subscribers + [s])[..|subscribers|] == subscribers;
    }
  }

  /** Sorts the subscribers into groups: a group appears, in order of its first match, exactly when it has a share. */
  method ShareOut(releases: map<Id, Release>, ids: seq<Id>, subscribers: seq<Subscriber>)
    returns (order: seq<Id>, shares: map<Id, Share>)
    requires Usable(releases, ids)
    ensures SharedOut(releases, ids, subscribers, order, shares)
  {
    hide SharedOut, Matches, Matching;
    order, shares := [], map[];
    NothingSharedOut(releases, ids);
    for k := 0 to |subscribers|
      invariant SharedOut(releases, ids, subscribers[..k], order, shares)
    {
      var s := subscribers[k];
      assert subscribers[..k + 1] == subscribers[..k] + [s];
      OneMoreSubscriber(releases, ids, subscribers[..k], s, order, shares);
      var matched := FilterForUser(releases, ids, s.filter);
      if matched == [] {
        continue;
      }
      if s.group !in shares {
        order := order + [s.group];
      }
      var share := ShareAt(shares, s.group);
      shares := shares[s.group := Share(share.users + {s.user}, share.releases + set r | r in matched)];
    }
    assert subscribers[..|subscribers|] == subscribers;
  }

  // ---------------------------------------------------------------- order of releases

  function DateOf(releases: map<Id, Release>, id: Id): int {
    if id in releases then releases[id].pubDate else 0
  }

  /** By publication date, and then by id. */
  predicate Earlier(releases: map<Id, Release>, a: Id, b: Id) {
    DateOf(releases, a) < DateOf(releases, b) || (DateOf(releases, a) == DateOf(releases, b) && a <= b)
  }

  function ListingOrder(releases: map<Id, Release>): (Id, Id) -> bool {
    (a, b) => Earlier(releases, a, b)
  }

  /** A listing of a set of releases by publication date and then id. */
  ghost predicate IsListing(releases: map<Id, Release>, ids: set<Id>, listing: seq<Id>) {
    && (forall id :: id in listing <==> id in ids)
    && (forall i :: 0 <= i < |listing| ==> listing[i] in releases)
    && (forall i, j :: 0 <= i < j < |listing| ==>
          listing[i] != listing[j] && Earlier(releases, listing[i], listing[j]))
  }

  method SortReleases(releases: map<Id, Release>, ids: set<Id>) returns (listing: seq<Id>)
    requires ids <= releases.Keys
    ensures IsListing(releases, ids, listing) && |listing| == |ids|
  {
    var found: seq<Id> := [];
    var rest := ids;
    while rest != {}
      invariant rest <= ids && Distinct(found) && |found| + |rest| == |ids|
      invariant forall id :: id in found <==> id in ids - rest
    {
      var id := Pick(rest);
      assert id !in found;
      found := found + [id];
      rest := rest - {id};
    }
    listing := Sort(found, ListingOrder(releases));
    SortedListing(releases, ids, found);
  }

  lemma {:induction false} SortedListing(releases: map<Id, Release>, ids: set<Id>, found: seq<Id>)
    requires ids <= releases.Keys && Distinct(found) && forall id :: id in found <==> id in ids
    ensures var listing := Sort(found, ListingOrder(releases));
            IsListing(releases, ids, listing) && |listing| == |found|
  {
    hide Sort;
    var listing := Sort(found, ListingOrder(releases));
    SortSorts(found, ListingOrder(releases));
    SameMembers(found, listing);
    DistinctStaysDistinct(found, listing);
    forall i | 0 <= i < |listing|
      ensures listing[i] in releases
    {
      var id := listing[i];
      assert id in listing && id in found && id in ids;
    }
    forall i, j | 0 <= i < j < |listing|
      ensures Earlier(releases, listing[i], listing[j])
    {
      assert ListingOrder(releases)(listing[i], listing[j]);
    }
  }
}
