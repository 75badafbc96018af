/** The specification of the rate limiter in front of replies and proactive messages: a governor that keeps the list of
    all grants it ever made and forgets nothing. The safety theorems are about its runs. Time is in microseconds. */
module SendHistory {
  import opened Options
  import opened Durations
  import opened Identifiers

  datatype Member = Member(groupId: Id, userId: Id)

  datatype DeliveryClass = Interactive | Airing | Release | Content | Admin {
    predicate Proactive() {
      Airing? || Release? || Content?
    }
  }

  datatype SendRequest = SendRequest(deliveryClass: DeliveryClass, groupId: Id, userId: Option<Id>)

  datatype Reason = Global | Group | User | UserWindow | ProactiveGroup | ProactiveWindow

  datatype SendPermit = SendPermit(allowed: bool, retryAfter: int, reason: Option<Reason>)

  const SHORTEST_HINT := 10_000

  datatype GovernorLimits = GovernorLimits(
    globalInterval: int,
    globalBurst: int,
    groupInterval: int,
    userInterval: int,
    userLimitPerMinute: int,
    proactiveGroupInterval: int,
    proactiveGroupLimitPer10Minutes: int)
  {
    /** `_waits` reads the head of a full deque, so a quota of zero would read an empty one. */
    predicate Usable() {
      globalBurst >= 1 && userLimitPerMinute >= 1 && proactiveGroupLimitPer10Minutes >= 1
    }
  }

  // ---------------------------------------------------------------- the rules

  datatype Grant = Grant(request: SendRequest, at: int)

  /** What a rule counts: all grants, one group's, one member's, or one group's proactive ones. */
  datatype Bucket = Everyone | InGroup(g: Id) | OfUser(g: Id, u: Id) | ProactiveIn(g: Id)

  predicate Hits(bucket: Bucket, request: SendRequest) {
    match bucket
    case Everyone => true
    case InGroup(g) => request.groupId == g
    case OfUser(g, u) => request.groupId == g && request.userId == Some(u)
    case ProactiveIn(g) => request.groupId == g && request.deliveryClass.Proactive()
  }

  /** At most `quota` hits of `bucket` in any stretch of time of length `interval`. */
  datatype Rule = Rule(reason: Reason, bucket: Bucket, quota: int, interval: int)

  function Rules(limits: GovernorLimits, request: SendRequest): seq<Rule> {
    var g := request.groupId;
    SharedRules(limits, g) + UserRules(limits, g, request.userId) +
    (if request.deliveryClass.Proactive() then ProactiveRules(limits, g) else [])
  }

  function SharedRules(limits: GovernorLimits, g: Id): seq<Rule> {
    [Rule(Global, Everyone, limits.globalBurst, limits.globalInterval),
     Rule(Group, InGroup(g), 1, limits.groupInterval)]
  }

  function UserRules(limits: GovernorLimits, g: Id, user: Option<Id>): seq<Rule> {
    match user
    case None => []
    case Some(u) => [Rule(User, OfUser(g, u), 1, limits.userInterval),
                     Rule(UserWindow, OfUser(g, u), limits.userLimitPerMinute, MINUTE)]
  }

  function ProactiveRules(limits: GovernorLimits, g: Id): seq<Rule> {
    [Rule(ProactiveGroup, ProactiveIn(g), 1, limits.proactiveGroupInterval),
     Rule(ProactiveWindow, ProactiveIn(g), limits.proactiveGroupLimitPer10Minutes, 10 * MINUTE)]
  }

  /** The instants of all grants that hit a bucket, oldest first. */
  function Times(history: seq<Grant>, bucket: Bucket): seq<int> {
    if history == [] then [] else
      var last := history[|history| - 1];
      Times(history[..|history| - 1], bucket) + if Hits(bucket, last.request) then [last.at] else []
  }

  /** How long a rule still blocks at `now`: until the `quota`-th most recent hit is one interval old. */
  function Wait(history: seq<Grant>, rule: Rule, now: int): int
    requires rule.quota >= 1
  {
    var times := Times(history, rule.bucket);
    if |times| < rule.quota then 0 else times[|times| - rule.quota] + rule.interval - now
  }

  predicate UsableRules(rules: seq<Rule>) {
    forall i :: 0 <= i < |rules| ==> rules[i].quota >= 1
  }

  function Waits(history: seq<Grant>, rules: seq<Rule>, now: int): (waits: seq<(Reason, int)>)
    requires UsableRules(rules)
  {
    if rules == [] then [] else
      var k := |rules| - 1;
      Waits(history, rules[..k], now) + KeepPositive([(rules[k].reason, Wait(history, rules[k], now))])
  }

  function KeepPositive(waits: seq<(Reason, int)>): seq<(Reason, int)> {
    if waits == [] then [] else
      KeepPositive(waits[..|waits| - 1]) + if waits[|waits| - 1].1 > 0 then [waits[|waits| - 1]] else []
  }

  /** Python's `max` by the length of the wait; of several longest waits it keeps the first. */
  function Longest(waits: seq<(Reason, int)>): (w: (Reason, int))
    requires waits != []
    ensures w in waits
  {
    var last := waits[|waits| - 1];
    if |waits| == 1 then last else
      var best := Longest(waits[..|waits| - 1]);
      if last.1 > best.1 then last else best
  }

  function Max(a: int, b: int): int {
    if a < b then b else a
  }

  function PermitFor(waits: seq<(Reason, int)>): SendPermit {
    if waits == [] then SendPermit(true, 0, None)
    else SendPermit(false, Max(SHORTEST_HINT, Longest(waits).1), Some(Longest(waits).0))
  }

  /** The answer of the governor that forgets nothing. */
  function Decide(limits: GovernorLimits, history: seq<Grant>, request: SendRequest, now: int): SendPermit
    requires limits.Usable()
  {
    PermitFor(Waits(history, Rules(limits, request), now))
  }

  // ---------------------------------------------------------------- runs

  datatype Call = Acquire(request: SendRequest, at: int) | Peek(request: SendRequest, at: int)

  function After(limits: GovernorLimits, history: seq<Grant>, call: Call): seq<Grant>
    requires limits.Usable()
  {
    if Granted(limits, history, call)
    then history + [Grant(call.request, call.at)] else history
  }

  function Replay(limits: GovernorLimits, calls: seq<Call>): seq<Grant>
    requires limits.Usable()
  {
    if calls == [] then [] else After(limits, Replay(limits, calls[..|calls| - 1]), calls[|calls| - 1])
  }

  ghost predicate ClockForward(calls: seq<Call>) {
    forall i, j :: 0 <= i < j < |calls| ==> calls[i].at <= calls[j].at
  }

  ghost predicate Sorted(times: seq<int>) {
    forall i, j :: 0 <= i < j < |times| ==> times[i] <= times[j]
  }

  /** How many entries lie in [from, to). */
  function CountIn(times: seq<int>, from: int, to: int): nat {
    if times == [] then 0 else
      CountIn(times[..|times| - 1], from, to) + if from <= times[|times| - 1] < to then 1 else 0
  }

  /** Any entry and the `quota`-th one after it are at least one interval apart. */
  ghost predicate Spread(times: seq<int>, quota: int, interval: int)
    requires quota >= 1
  {
    forall i, j :: 0 <= i && j == i + quota < |times| ==> times[i] + interval <= times[j]
  }

  ghost predicate WellSpread(limits: GovernorLimits, history: seq<Grant>) {
    forall request: SendRequest, rule :: rule in Rules(limits, request) && rule.quota >= 1 ==>
      Spread(Times(history, rule.bucket), rule.quota, rule.interval)
  }

  /** All grants of a history are at most as late as `now`, in order. */
  ghost predicate Past(history: seq<Grant>, now: int) {
    && (forall i :: 0 <= i < |history| ==> history[i].at <= now)
    && (forall i, j :: 0 <= i < j < |history| ==> history[i].at <= history[j].at)
  }

  lemma {:induction false} TimesArePast(history: seq<Grant>, bucket: Bucket, now: int)
    requires Past(history, now)
    ensures Sorted(Times(history, bucket))
    ensures forall i :: 0 <= i < |Times(history, bucket)| ==> Times(history, bucket)[i] <= now
  {
    if history != [] {
      var last := history[|history| - 1];
      TimesArePast(history[..|history| - 1], bucket, last.at);
    }
  }

  lemma {:induction false} LongestIsFirstOfTheLongest(waits: seq<(Reason, int)>) returns (k: nat)
    requires waits != []
    ensures k < |waits| && waits[k] == Longest(waits)
    ensures forall j :: 0 <= j < k ==> waits[j].1 < waits[k].1
    ensures forall j :: k <= j < |waits| ==> waits[j].1 <= waits[k].1
  {
    k := 0;
    if |waits| > 1 {
      k := LongestIsFirstOfTheLongest(waits[..|waits| - 1]);
      if waits[|waits| - 1].1 > waits[k].1 {
        k := |waits| - 1;
      }
    }
  }

  function WaitOf(history: seq<Grant>, rule: Rule, now: int): (Reason, int)
    requires rule.quota >= 1
  {
    (rule.reason, Wait(history, rule, now))
  }

  lemma {:induction false} KeepPositiveOne(wait: (Reason, int))
    ensures KeepPositive([wait]) == if wait.1 > 0 then [wait] else []
  {
    assert [wait][..0] == [];
  }

  lemma {:induction false} BlockingRuleIsListed(history: seq<Grant>, rules: seq<Rule>, rule: Rule, now: int)
    requires UsableRules(rules) && rule in rules && Wait(history, rule, now) > 0
    ensures WaitOf(history, rule, now) in Waits(history, rules, now)
  {
    hide Times, KeepPositive, Wait;
    var k := |rules| - 1;
    KeepPositiveOne(WaitOf(history, rules[k], now));
    if rules[k] == rule {
      assert Waits(history, rules, now)[|Waits(history, rules[..k], now)|] == WaitOf(history, rule, now);
    } else {
      BlockingRuleIsListed(history, rules[..k], rule, now);
    }
  }

  lemma {:induction false} ListedWaitIsBlocking(history: seq<Grant>, rules: seq<Rule>, wait: (Reason, int), now: int)
    returns (rule: Rule)
    requires UsableRules(rules) && wait in Waits(history, rules, now)
    ensures rule in rules && rule.quota >= 1 && wait == WaitOf(history, rule, now) && wait.1 > 0
  {
    hide Times, KeepPositive, Wait;
    var k := |rules| - 1;
    KeepPositiveOne(WaitOf(history, rules[k], now));
    if wait in Waits(history, rules[..k], now) {
      rule := ListedWaitIsBlocking(history, rules[..k], wait, now);
    } else {
      rule := rules[k];
    }
  }

  /** A request passes exactly when none of its rules blocks. */
  lemma {:induction false} AllowedIffNothingBlocks(limits: GovernorLimits, history: seq<Grant>, request: SendRequest,
                                                   now: int)
    requires limits.Usable()
    ensures Decide(limits, history, request, now).allowed <==>
            forall rule :: rule in Rules(limits, request) ==> Wait(history, rule, now) <= 0
  {
    var rules := Rules(limits, request);
    var waits := Waits(history, rules, now);
    if waits != [] {
      var rule := ListedWaitIsBlocking(history, rules, waits[0], now);
    }
    forall rule | rule in rules && Wait(history, rule, now) > 0
      ensures waits != []
    {
      BlockingRuleIsListed(history, rules, rule, now);
    }
  }

  lemma {:induction false} CountSplits(times: seq<int>, k: nat, from: int, to: int)
    requires k <= |times|
    ensures CountIn(times, from, to) == CountIn(times[..k], from, to) + CountIn(times[k..], from, to)
  {
    if k < |times| {
      var front := times[..|times| - 1];
      CountSplits(front, k, from, to);
      assert front[..k] == times[..k] && front[k..] == times[k..][..|times| - k - 1];
    } else {
      assert times[..k] == times && times[k..] == [];
    }
  }

  lemma {:induction false} CountBounds(times: seq<int>, from: int, to: int)
    ensures CountIn(times, from, to) <= |times|
    ensures (forall i :: 0 <= i < |times| ==> from <= times[i] < to) ==> CountIn(times, from, to) == |times|
    ensures (forall i :: 0 <= i < |times| ==> !(from <= times[i] < to)) ==> CountIn(times, from, to) == 0
  {
    if times != [] {
      CountBounds(times[..|times| - 1], from, to);
    }
  }

  /** A rule blocks at `now` exactly when its quota is used up within the last interval. */
  lemma {:induction false} BlocksIffQuotaUsed(history: seq<Grant>, rule: Rule, now: int)
    requires rule.quota >= 1 && Past(history, now)
    ensures Wait(history, rule, now) > 0 <==>
            CountIn(Times(history, rule.bucket), now - rule.interval + 1, now + 1) >= rule.quota
  {
    TimesArePast(history, rule.bucket, now);
    QuotaUsedIffRecent(Times(history, rule.bucket), rule.quota, now - rule.interval + 1, now + 1);
  }

  lemma {:induction false} QuotaUsedIffRecent(times: seq<int>, quota: int, from: int, to: int)
    requires quota >= 1 && Sorted(times)
    requires forall i :: 0 <= i < |times| ==> times[i] < to
    ensures CountIn(times, from, to) >= quota <==> |times| >= quota && times[|times| - quota] >= from
  {
    CountBounds(times, from, to);
    if |times| >= quota {
      var k := |times| - quota;
      if times[k] >= from {
        CountOfLate(times, k, from, to);
      } else {
        CountOfEarly(times, k + 1, from, to);
      }
    }
  }

  lemma {:induction false} CountOfLate(times: seq<int>, k: nat, from: int, to: int)
    requires k <= |times|
    requires forall i :: k <= i < |times| ==> from <= times[i] < to
    ensures CountIn(times, from, to) >= |times| - k
  {
    CountSplits(times, k, from, to);
    CountBounds(times[k..], from, to);
  }

  lemma {:induction false} CountOfEarly(times: seq<int>, k: nat, from: int, to: int)
    requires k <= |times|
    requires forall i :: 0 <= i < k ==> times[i] < from
    ensures CountIn(times, from, to) <= |times| - k
  {
    CountSplits(times, k, from, to);
    CountBounds(times[..k], from, to);
    CountBounds(times[k..], from, to);
  }

  lemma {:induction false} RuleIsUsable(limits: GovernorLimits, request: SendRequest, rule: Rule)
    requires limits.Usable() && rule in Rules(limits, request)
    ensures rule.quota >= 1
  {
  }

  /** The decision, said without waits: a request passes exactly when no quota of its rules is used up. */
  lemma {:induction false} AllowedIffEveryQuotaHasRoom(limits: GovernorLimits, history: seq<Grant>,
                                                       request: SendRequest, now: int)
    requires limits.Usable() && Past(history, now)
    ensures Decide(limits, history, request, now).allowed <==>
            forall rule :: rule in Rules(limits, request) ==>
              CountIn(Times(history, rule.bucket), now - rule.interval + 1, now + 1) < rule.quota
  {
    hide Rules, Decide, Times, CountIn, Wait, Past;
    AllowedIffNothingBlocks(limits, history, request, now);
    forall rule | rule in Rules(limits, request)
      ensures rule.quota >= 1
      ensures Wait(history, rule, now) > 0 <==>
              CountIn(Times(history, rule.bucket), now - rule.interval + 1, now + 1) >= rule.quota
    {
      RuleIsUsable(limits, request, rule);
      BlocksIffQuotaUsed(history, rule, now);
    }
  }

  lemma {:induction false} SpreadBoundsWindows(times: seq<int>, quota: int, interval: int, from: int)
    requires quota >= 1 && Sorted(times) && Spread(times, quota, interval)
    ensures CountIn(times, from, from + interval) <= quota
  {
    var to := from + interval;
    var n := |times|;
    if n <= quota {
      CountBounds(times, from, to);
    } else if times[n - 1] >= to {
      SpreadBoundsWindows(times[..n - 1], quota, interval, from);
    } else {
      var k := n - quota;
      assert times[k - 1] + interval <= times[n - 1];
      CountOfEarly(times, k, from, to);
    }
  }

  lemma {:induction false} TimesGrow(history: seq<Grant>, grant: Grant, bucket: Bucket)
    ensures Times(history + [grant], bucket)
         == Times(history, bucket) + if Hits(bucket, grant.request) then [grant.at] else []
    ensures !Hits(bucket, grant.request) ==> Times(history + [grant], bucket) == Times(history, bucket)
  {
    assert (history + [grant])[..|history|] == history;
  }

  /** Whatever a grant counts against was checked before it was given. */
  lemma {:induction false} EveryHitIsChecked(limits: GovernorLimits, request: SendRequest, other: SendRequest,
                                             rule: Rule)
    requires rule in Rules(limits, other) && Hits(rule.bucket, request)
    ensures rule in Rules(limits, request)
  {
  }

  lemma {:induction false} GrantKeepsSpread(limits: GovernorLimits, history: seq<Grant>, request: SendRequest, now: int)
    requires limits.Usable() && WellSpread(limits, history)
    requires Decide(limits, history, request, now).allowed
    ensures WellSpread(limits, history + [Grant(request, now)])
  {
    hide Rules, Times, Decide, Hits, Spread;
    AllowedIffNothingBlocks(limits, history, request, now);
    forall other: SendRequest, rule | rule in Rules(limits, other) && rule.quota >= 1
      ensures Spread(Times(history + [Grant(request, now)], rule.bucket), rule.quota, rule.interval)
    {
      if Hits(rule.bucket, request) {
        EveryHitIsChecked(limits, request, other, rule);
      }
      RuleStaysSpread(history, Grant(request, now), rule);
    }
  }

  lemma {:induction false} RuleStaysSpread(history: seq<Grant>, grant: Grant, rule: Rule)
    requires rule.quota >= 1 && Spread(Times(history, rule.bucket), rule.quota, rule.interval)
    requires Hits(rule.bucket, grant.request) ==> Wait(history, rule, grant.at) <= 0
    ensures Spread(Times(history + [grant], rule.bucket), rule.quota, rule.interval)
  {
    TimesGrow(history, grant, rule.bucket);
  }

  lemma {:induction false} ReplayedHistories(limits: GovernorLimits, calls: seq<Call>, now: int)
    requires limits.Usable() && ClockForward(calls)
    requires calls != [] ==> calls[|calls| - 1].at <= now
    ensures Past(Replay(limits, calls), now)
    ensures WellSpread(limits, Replay(limits, calls))
  {
    hide Decide, WellSpread, Times;
    if calls == [] {
      NothingIsWellSpread(limits);
    } else {
      var k := |calls| - 1;
      ReplayedHistories(limits, calls[..k], calls[k].at);
      var before := Replay(limits, calls[..k]);
      if Granted(limits, before, calls[k]) {
        GrantKeepsSpread(limits, before, calls[k].request, calls[k].at);
      }
    }
  }

  lemma {:induction false} NothingIsWellSpread(limits: GovernorLimits)
    ensures WellSpread(limits, [])
  {
    hide Rules;
  }

  /** Over every run, and for every stretch of time of a rule's length, its quota holds. */
  lemma {:induction false} QuotasHoldOverEveryRun(limits: GovernorLimits, calls: seq<Call>, request: SendRequest,
                                                  rule: Rule, from: int)
    requires limits.Usable() && ClockForward(calls)
    requires rule in Rules(limits, request)
    ensures CountIn(Times(Replay(limits, calls), rule.bucket), from, from + rule.interval) <= rule.quota
  {
    hide Rules, Replay, WellSpread, Spread, Past, Sorted, CountIn, Times;
    var now := if calls == [] then 0 else calls[|calls| - 1].at;
    var history := Replay(limits, calls);
    ReplayedHistories(limits, calls, now);
    RuleIsUsable(limits, request, rule);
    SpreadOf(limits, history, request, rule);
    TimesArePast(history, rule.bucket, now);
    SpreadBoundsWindows(Times(history, rule.bucket), rule.quota, rule.interval, from);
  }

  lemma {:induction false} SpreadOf(limits: GovernorLimits, history: seq<Grant>, request: SendRequest, rule: Rule)
    requires WellSpread(limits, history) && rule in Rules(limits, request) && rule.quota >= 1
    ensures Spread(Times(history, rule.bucket), rule.quota, rule.interval)
  {
    hide Rules, Times, Spread;
  }

  /** The longest wait is exact: as long as nothing else is granted, the request is refused at every instant
      before it has passed and allowed at every later one. The hint given to the caller is never too short. */
  lemma {:induction false} WaitIsExact(limits: GovernorLimits, history: seq<Grant>, request: SendRequest, now: int,
                                       later: int)
    requires limits.Usable()
    requires !Decide(limits, history, request, now).allowed
    ensures var wait := Longest(Waits(history, Rules(limits, request), now)).1;
            && wait > 0
            && Decide(limits, history, request, now).retryAfter == Max(SHORTEST_HINT, wait)
            && (Decide(limits, history, request, later).allowed <==> later >= now + wait)
  {
    hide Times, Waits, Longest, KeepPositive;
    var rules := Rules(limits, request);
    var waits := Waits(history, rules, now);
    AllowedIffNothingBlocks(limits, history, request, later);
    var k := LongestIsFirstOfTheLongest(waits);
    var wait := waits[k].1;
    var worst := ListedWaitIsBlocking(history, rules, waits[k], now);
    assert Wait(history, worst, later) == wait + now - later;
    forall rule | rule in rules && Wait(history, rule, later) > 0
      ensures later < now + wait
    {
      if Wait(history, rule, now) > 0 {
        BlockingRuleIsListed(history, rules, rule, now);
      }
    }
  }

  predicate Granted(limits: GovernorLimits, before: seq<Grant>, call: Call)
    requires limits.Usable()
  {
    call.Acquire? && Decide(limits, before, call.request, call.at).allowed
  }

  /** The calls of a run that were granted. */
  function GrantedCalls(limits: GovernorLimits, calls: seq<Call>): seq<Call>
    requires limits.Usable()
  {
    if calls == [] then [] else
      var k := |calls| - 1;
      GrantedCalls(limits, calls[..k]) +
      if Granted(limits, Replay(limits, calls[..k]), calls[k]) then [calls[k]] else []
  }

  /** Peeks and refused requests leave no trace: dropping all of them from a run changes no later answer. */
  lemma {:induction false} RefusalsLeaveNoTrace(limits: GovernorLimits, calls: seq<Call>, request: SendRequest,
                                                now: int)
    requires limits.Usable()
    ensures Replay(limits, GrantedCalls(limits, calls)) == Replay(limits, calls)
    ensures Decide(limits, Replay(limits, GrantedCalls(limits, calls)), request, now)
         == Decide(limits, Replay(limits, calls), request, now)
  {
    if calls != [] {
      var k := |calls| - 1;
      RefusalsLeaveNoTrace(limits, calls[..k], request, now);
      var kept := GrantedCalls(limits, calls[..k]);
      if Granted(limits, Replay(limits, calls[..k]), calls[k]) {
        assert GrantedCalls(limits, calls)[..|kept|] == kept;
        assert GrantedCalls(limits, calls)[|kept|] == calls[k];
      } else {
        assert GrantedCalls(limits, calls) == kept;
      }
    }
  }

  /** Every configured limit by its name, over every run: in each stretch of time, starting anywhere, of the length the
      limit is about. An interval between two grants is a limit of one. */
  lemma {:induction false} EveryLimitHolds(limits: GovernorLimits, calls: seq<Call>, g: Id, u: Id, from: int)
    requires limits.Usable() && ClockForward(calls)
    ensures var history := Replay(limits, calls);
            && CountIn(Times(history, Everyone), from, from + limits.globalInterval) <= limits.globalBurst
            && CountIn(Times(history, InGroup(g)), from, from + limits.groupInterval) <= 1
            && CountIn(Times(history, OfUser(g, u)), from, from + limits.userInterval) <= 1
            && CountIn(Times(history, OfUser(g, u)), from, from + MINUTE) <= limits.userLimitPerMinute
            && CountIn(Times(history, ProactiveIn(g)), from, from + limits.proactiveGroupInterval) <= 1
            && CountIn(Times(history, ProactiveIn(g)), from, from + 10 * MINUTE)
                 <= limits.proactiveGroupLimitPer10Minutes
  {
    hide Replay, Times, CountIn, ClockForward;
    var asUser, proactive := SendRequest(Interactive, g, Some(u)), SendRequest(Airing, g, None);
    QuotasHoldOverEveryRun(limits, calls, asUser, SharedRules(limits, g)[0], from);
    QuotasHoldOverEveryRun(limits, calls, asUser, SharedRules(limits, g)[1], from);
    QuotasHoldOverEveryRun(limits, calls, asUser, UserRules(limits, g, Some(u))[0], from);
    QuotasHoldOverEveryRun(limits, calls, asUser, UserRules(limits, g, Some(u))[1], from);
    QuotasHoldOverEveryRun(limits, calls, proactive, ProactiveRules(limits, g)[0], from);
    QuotasHoldOverEveryRun(limits, calls, proactive, ProactiveRules(limits, g)[1], from);
  }
}
