/** Group polls: opening, voting, taking a vote back and closing, and what the tallies mean over a whole run. */
module Polls {
  import opened Options
  import opened Identifiers

  datatype Poll =
    Poll(group: Id, theme: string, periodKey: string, open: bool, opensAt: int, closesAt: int, candidates: seq<Id>)

  const THEMES := {"weekly_best", "next_week_anticipated", "season_favorite", "group_watch"}

  /** At most one vote per poll and user. */
  datatype Ballot = Ballot(poll: Id, user: Id)

  datatype Store = Store(polls: map<Id, Poll>, votes: map<Ballot, int>)

  const EMPTY_STORE := Store(map[], map[])

  datatype Event =
    | Open(id: Id, group: Id, groupKnown: bool, theme: string, animeIds: seq<Id>, available: set<Id>,
           periodKey: string, opensAt: int, closesAt: int)
    | Vote(group: Id, user: Id, position: int, now: int)
    | CancelVote(group: Id, user: Id, now: int)
    | Close(id: Id)

  /** Keeps the first occurrence of every id. */
  function Dedupe(ids: seq<Id>): (unique: seq<Id>)
    ensures forall id :: id in unique <==> id in ids
    ensures forall i, j :: 0 <= i < j < |unique| ==> unique[i] != unique[j]
  {
    if ids == [] then [] else
      var front := Dedupe(ids[..|ids| - 1]);
      assert ids == ids[..|ids| - 1] + [ids[|ids| - 1]];
      if ids[|ids| - 1] in front then front else front + [ids[|ids| - 1]]
  }

  /** Candidates keep the order in which they were named first, so that their numbers are as announced. */
  lemma {:induction false} CandidatesKeepOrder(ids: seq<Id>, i: nat, j: nat) returns (p: nat)
    requires i < j < |Dedupe(ids)|
    ensures p < |ids| && ids[p] == Dedupe(ids)[i]
    ensures forall q :: 0 <= q <= p ==> ids[q] != Dedupe(ids)[j]
  {
    var k := |ids| - 1;
    var front, unique := Dedupe(ids[..k]), Dedupe(ids);
    assert unique == front || unique == front + [ids[k]];
    if j < |front| {
      p := CandidatesKeepOrder(ids[..k], i, j);
      assert ids[..k][p] == ids[p];
      assert forall q :: 0 <= q <= p ==> ids[..k][q] == ids[q];
    } else {
      assert front[i] in ids[..k];
      p :| 0 <= p < k && ids[..k][p] == front[i];
      forall q | 0 <= q <= p
        ensures ids[q] != unique[j]
      {
        assert ids[..k][q] in ids[..k];
      }
    }
  }

  predicate RunsAt(poll: Poll, group: Id, now: int) {
    poll.group == group && poll.open && poll.opensAt <= now < poll.closesAt
  }

  predicate MayOpen(store: Store, e: Event)
    requires e.Open?
  {
    && e.groupKnown && e.theme in THEMES
    && 3 <= |Dedupe(e.animeIds)| <= 6 && e.opensAt < e.closesAt && 1 <= |e.periodKey| <= 128
    && (forall i :: 0 <= i < |e.animeIds| ==> e.animeIds[i] in e.available)
    && e.id !in store.polls
    && forall p :: p in store.polls && store.polls[p].group == e.group ==>
         !store.polls[p].open && store.polls[p].periodKey != e.periodKey
  }

  /** The vote of `user` in `group` at `now` goes to this poll. */
  predicate Receives(store: Store, id: Id, group: Id, now: int) {
    id in store.polls && RunsAt(store.polls[id], group, now)
  }

  predicate AcceptsVote(store: Store, id: Id, e: Event)
    requires e.Vote?
  {
    1 <= e.position <= 6 && Receives(store, id, e.group, e.now) && e.position <= |store.polls[id].candidates|
  }

  /** A vote goes to a poll exactly if that is open in the group, has begun and is not over, and has so many
      candidates. */
  lemma {:induction false} AcceptedIff(store: Store, id: Id, group: Id, user: Id, position: int, now: int)
    ensures AcceptsVote(store, id, Vote(group, user, position, now)) <==>
              && 1 <= position <= 6 && id in store.polls
              && store.polls[id].group == group && store.polls[id].open
              && now >= store.polls[id].opensAt && now < store.polls[id].closesAt
              && position <= |store.polls[id].candidates|
  {
  }

  /** One accepted or refused action. A refused one changes nothing. */
  ghost predicate Steps(s: Store, e: Event, t: Store) {
    match e
    case Open(id, group, _, theme, animeIds, _, periodKey, opensAt, closesAt) =>
      if MayOpen(s, e)
      then t == s.(polls := s.polls[id := Poll(group, theme, periodKey, true, opensAt, closesAt, Dedupe(animeIds))])
      else t == s
    case Vote(group, user, position, now) =>
      if exists id :: AcceptsVote(s, id, e)
      then exists id :: AcceptsVote(s, id, e) && t == s.(votes := s.votes[Ballot(id, user) := position])
      else t == s
    case CancelVote(group, user, now) =>
      if exists id :: Receives(s, id, group, now)
      then exists id :: Receives(s, id, group, now) && t == s.(votes := s.votes - {Ballot(id, user)})
      else t == s
    case Close(id) =>
      if id in s.polls && s.polls[id].open
      then t == s.(polls := s.polls[id := s.polls[id].(open := false)])
      else t == s
  }

  /** A run: the actions and the store before, between and after them. */
  ghost predicate IsRun(events: seq<Event>, stores: seq<Store>) {
    && |stores| == |events| + 1 && stores[0] == EMPTY_STORE
    && forall i :: 0 <= i < |events| ==> Steps(stores[i], events[i], stores[i + 1])
  }

  // ---------------------------------------------------------------- invariants

  /** A group has at most one open poll, so that the poll a vote goes to is never ambiguous. */
  ghost predicate OneOpenPoll(store: Store) {
    forall a, b :: (a in store.polls && b in store.polls && store.polls[a].open && store.polls[b].open
                    && store.polls[a].group == store.polls[b].group) ==> a == b
  }

  ghost predicate VotesFit(store: Store) {
    forall b :: b in store.votes ==>
      b.poll in store.polls && 1 <= store.votes[b] <= |store.polls[b.poll].candidates|
  }

  lemma {:induction false} StepKeepsInvariants(s: Store, e: Event, t: Store)
    requires OneOpenPoll(s) && VotesFit(s) && Steps(s, e, t)
    ensures OneOpenPoll(t) && VotesFit(t)
  {
  }

  lemma {:induction false} RunKeepsInvariants(events: seq<Event>, stores: seq<Store>, i: nat)
    requires IsRun(events, stores) && i < |stores|
    ensures OneOpenPoll(stores[i]) && VotesFit(stores[i])
  {
    hide Steps, OneOpenPoll, VotesFit;
    if i == 0 {
      EmptyFits();
    } else {
      RunKeepsInvariants(events, stores, i - 1);
      StepKeepsInvariants(stores[i - 1], events[i - 1], stores[i]);
    }
  }

  lemma {:induction false} EmptyFits()
    ensures OneOpenPoll(EMPTY_STORE) && VotesFit(EMPTY_STORE)
  {
  }

  /** In every reachable store the lookup for a vote finds at most one poll. */
  lemma {:induction false} LookupIsUnambiguous(events: seq<Event>, stores: seq<Store>, i: nat,
                                               a: Id, b: Id, group: Id, now: int)
    requires IsRun(events, stores) && i < |stores|
    requires Receives(stores[i], a, group, now) && Receives(stores[i], b, group, now)
    ensures a == b
  {
    RunKeepsInvariants(events, stores, i);
  }

  // ---------------------------------------------------------------- tallies

  /** The user's standing after the first `i` actions: the position of their last accepted action on the poll, if that
      was a vote. */
  ghost function Standing(events: seq<Event>, stores: seq<Store>, i: nat, b: Ballot): Option<int>
    requires i <= |events| <= |stores|
  {
    if i == 0 then None else
      var e, before := events[i - 1], Standing(events, stores, i - 1, b);
      if e.Vote? && e.user == b.user && AcceptsVote(stores[i - 1], b.poll, e) then Some(e.position)
      else if e.CancelVote? && e.user == b.user && Receives(stores[i - 1], b.poll, e.group, e.now) then None
      else before
  }

  function StoredVote(store: Store, b: Ballot): Option<int> {
    if b in store.votes then Some(store.votes[b]) else None
  }

  lemma {:induction false} StepMovesOneVote(s: Store, e: Event, t: Store, b: Ballot)
    requires OneOpenPoll(s) && Steps(s, e, t)
    ensures StoredVote(t, b) ==
            if e.Vote? && e.user == b.user && AcceptsVote(s, b.poll, e) then Some(e.position)
            else if e.CancelVote? && e.user == b.user && Receives(s, b.poll, e.group, e.now) then None
            else StoredVote(s, b)
  {
  }

  /** The stored vote of every user is their last accepted action. */
  lemma {:induction false} VotesAreLastActions(events: seq<Event>, stores: seq<Store>, i: nat, b: Ballot)
    requires IsRun(events, stores) && i <= |events|
    ensures StoredVote(stores[i], b) == Standing(events, stores, i, b)
  {
    hide Steps, OneOpenPoll, AcceptsVote, Receives;
    if i > 0 {
      VotesAreLastActions(events, stores, i - 1, b);
      RunKeepsInvariants(events, stores, i - 1);
      StepMovesOneVote(stores[i - 1], events[i - 1], stores[i], b);
    }
  }

  /** The ballots counted for a candidate. */
  function BallotsFor(store: Store, poll: Id, position: int): set<Ballot> {
    set b | b in store.votes && b.poll == poll && store.votes[b] == position
  }

  /** The count of a candidate, as the aggregate query computes it. */
  function Count(store: Store, poll: Id, position: int): nat {
    |BallotsFor(store, poll, position)|
  }

  /** A candidate's count is the number of users whose last accepted action on the poll was a vote for it. */
  lemma {:induction false} CountsAreStandings(events: seq<Event>, stores: seq<Store>, i: nat, poll: Id, position: int,
                                              supporters: set<Ballot>)
    requires IsRun(events, stores) && i <= |events|
    requires forall b :: b in supporters <==>
               b.poll == poll && Standing(events, stores, i, b) == Some(position)
    ensures Count(stores[i], poll, position) == |supporters|
  {
    hide Steps;
    forall b
      ensures b in BallotsFor(stores[i], poll, position) <==> b in supporters
    {
      VotesAreLastActions(events, stores, i, b);
    }
    assert BallotsFor(stores[i], poll, position) == supporters;
  }

  function Voters(store: Store, poll: Id): set<Ballot> {
    set b | b in store.votes && b.poll == poll
  }

  function VotersUpTo(store: Store, poll: Id, last: int): set<Ballot> {
    set b | b in store.votes && b.poll == poll && 1 <= store.votes[b] <= last
  }

  function SumOfCounts(store: Store, poll: Id, last: nat): nat {
    if last == 0 then 0 else SumOfCounts(store, poll, last - 1) + Count(store, poll, last)
  }

  lemma {:induction false} CountsAddUp(store: Store, poll: Id, last: nat)
    ensures SumOfCounts(store, poll, last) == |VotersUpTo(store, poll, last)|
  {
    if last > 0 {
      CountsAddUp(store, poll, last - 1);
      assert VotersUpTo(store, poll, last) == VotersUpTo(store, poll, last - 1) + BallotsFor(store, poll, last);
    } else {
      assert VotersUpTo(store, poll, 0) == {};
    }
  }

  /** In every reachable store the counts of a poll's candidates add up to the number of its voters. */
  lemma {:induction false} EveryVoterIsCounted(events: seq<Event>, stores: seq<Store>, i: nat, poll: Id)
    requires IsRun(events, stores) && i < |stores| && poll in stores[i].polls
    ensures SumOfCounts(stores[i], poll, |stores[i].polls[poll].candidates|) == |Voters(stores[i], poll)|
  {
    hide Steps, OneOpenPoll;
    RunKeepsInvariants(events, stores, i);
    CountsAddUp(stores[i], poll, |stores[i].polls[poll].candidates|);
    assert VotersUpTo(stores[i], poll, |stores[i].polls[poll].candidates|) == Voters(stores[i], poll);
  }

  lemma {:induction false} ClosedStaysClosed(s: Store, e: Event, t: Store, poll: Id)
    requires Steps(s, e, t) && poll in s.polls && !s.polls[poll].open
    ensures poll in t.polls && t.polls[poll] == s.polls[poll]
    ensures forall user :: StoredVote(t, Ballot(poll, user)) == StoredVote(s, Ballot(poll, user))
  {
  }

  /** A closed poll never reopens and its counts never change. */
  lemma {:induction false} ClosedCountsAreFinal(events: seq<Event>, stores: seq<Store>, i: nat, j: nat, poll: Id,
                                                position: int)
    requires IsRun(events, stores) && i <= j < |stores|
    requires poll in stores[i].polls && !stores[i].polls[poll].open
    ensures poll in stores[j].polls && stores[j].polls[poll] == stores[i].polls[poll]
    ensures Count(stores[j], poll, position) == Count(stores[i], poll, position)
  {
    hide Steps;
    if i < j {
      ClosedCountsAreFinal(events, stores, i, j - 1, poll, position);
      ClosedStaysClosed(stores[j - 1], events[j - 1], stores[j], poll);
      forall b: Ballot | b.poll == poll
        ensures StoredVote(stores[j], b) == StoredVote(stores[j - 1], b)
      {
        assert b == Ballot(poll, b.user);
      }
      forall b: Ballot
        ensures b in BallotsFor(stores[j], poll, position) <==> b in BallotsFor(stores[j - 1], poll, position)
      {
      }
      assert BallotsFor(stores[j], poll, position) == BallotsFor(stores[j - 1], poll, position);
    }
  }

  /** What opening a poll depends on, in terms of the distinct candidates, and what it does. */
  lemma {:induction false} OpenMeans(s: Store, e: Event)
    requires e.Open? && e.id !in s.polls
    ensures var unique := Dedupe(e.animeIds);
            MayOpen(s, e) <==>
              && e.groupKnown && e.theme in THEMES
              && 3 <= |unique| <= 6 && e.opensAt < e.closesAt && 1 <= |e.periodKey| <= 128
              && (forall i :: 0 <= i < |unique| ==> unique[i] in e.available)
              && forall p :: p in s.polls && s.polls[p].group == e.group ==>
                   !s.polls[p].open && s.polls[p].periodKey != e.periodKey
    ensures var poll := Poll(e.group, e.theme, e.periodKey, true, e.opensAt, e.closesAt, Dedupe(e.animeIds));
            Steps(s, e, if MayOpen(s, e) then s.(polls := s.polls[e.id := poll]) else s)
  {
    hide Dedupe;
    var unique := Dedupe(e.animeIds);
    assert forall i :: 0 <= i < |e.animeIds| ==> e.animeIds[i] in unique;
    assert forall i :: 0 <= i < |unique| ==> unique[i] in e.animeIds;
  }

  // ---------------------------------------------------------------- the service

  class PollService {
    var polls: map<Id, Poll>
    var votes: map<Ballot, int>

    function Contents(): Store
      reads this
    {
      Store(polls, votes)
    }

    constructor ()
      ensures Contents() == EMPTY_STORE
    {
      polls, votes := map[], map[];
    }

    method OpenPoll(id: Id, group: Id, groupKnown: bool, theme: string, animeIds: seq<Id>, available: set<Id>,
                    periodKey: string, opensAt: int, closesAt: int) returns (created: bool)
      requires id !in polls
      modifies this
      ensures var e := Open(id, group, groupKnown, theme, animeIds, available, periodKey, opensAt, closesAt);
              Steps(old(Contents()), e, Contents()) && (created <==> MayOpen(old(Contents()), e))
    {
      hide Steps, Dedupe, MayOpen;
      ghost var e := Open(id, group, groupKnown, theme, animeIds, available, periodKey, opensAt, closesAt);
      OpenMeans(Contents(), e);
      if theme !in THEMES {
        return false;
      }
      var unique := Dedupe(animeIds);
      if |unique| < 3 || |unique| > 6 || closesAt <= opensAt || periodKey == "" || |periodKey| > 128 {
        return false;
      }
      if !groupKnown {
        return false;
      }
      if p :| p in polls && polls[p].group == group && polls[p].open {
        return false;
      }
      if i :| 0 <= i < |unique| && unique[i] !in available {
        return false;
      }
      if p :| p in polls && polls[p].group == group && polls[p].periodKey == periodKey {
        return false;
      }
      polls := polls[id := Poll(group, theme, periodKey, true, opensAt, closesAt, unique)];
      return true;
    }

    method CastVote(group: Id, user: Id, position: int, now: int) returns (accepted: bool)
      modifies this`votes
      ensures Steps(old(Contents()), Vote(group, user, position, now), Contents())
      ensures accepted <==> exists id :: AcceptsVote(old(Contents()), id, Vote(group, user, position, now))
    {
      if position < 1 || position > 6 {
        return false;
      }
      ghost var e := Vote(group, user, position, now);
      if id :| id in polls && RunsAt(polls[id], group, now) && position <= |polls[id].candidates| {
        assert AcceptsVote(Contents(), id, e);
        votes := votes[Ballot(id, user) := position];
        return true;
      }
      assert forall id :: !AcceptsVote(Contents(), id, e);
      return false;
    }

    method TakeVoteBack(group: Id, user: Id, now: int) returns (open: bool, removed: bool)
      modifies this`votes
      ensures Steps(old(Contents()), CancelVote(group, user, now), Contents())
      ensures open <==> exists id :: Receives(old(Contents()), id, group, now)
      ensures removed <==> votes != old(votes)
    {
      if id :| id in polls && RunsAt(polls[id], group, now) {
        assert Receives(Contents(), id, group, now);
        removed := Ballot(id, user) in votes;
        votes := votes - {Ballot(id, user)};
        assert !removed ==> votes == old(votes);
        return true, removed;
      }
      assert forall id :: !Receives(Contents(), id, group, now);
      return false, false;
    }

    method ClosePoll(id: Id) returns (closed: bool)
      modifies this`polls
      ensures Steps(old(Contents()), Close(id), Contents())
      ensures closed <==> id in old(polls) && old(polls)[id].open
    {
      if id !in polls || !polls[id].open {
        return false;
      }
      polls := polls[id := polls[id].(open := false)];
      return true;
    }
  }
}
