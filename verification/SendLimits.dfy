/** What the rate limiter's answers mean, limit by limit, in terms of the grants alone: when a request passes, and which
    limit a refusal names and for how long. */
module SendLimits {
  import opened Options
  import opened Durations
  import opened Identifiers
  import opened SendHistory

  // ---------------------------------------------------------------- the limits by name

  /** The grants of some kind less than `interval` before `t`. */
  function Recent(history: seq<Grant>, kind: Grant -> bool, t: int, interval: int): set<int> {
    set i | 0 <= i < |history| && kind(history[i]) && t - interval < history[i].at
  }

  function Any(): Grant -> bool {
    (x: Grant) => true
  }

  function ToGroup(g: Id): Grant -> bool {
    (x: Grant) => x.request.groupId == g
  }

  function ToMember(g: Id, u: Id): Grant -> bool {
    (x: Grant) => x.request.groupId == g && x.request.userId == Some(u)
  }

  function Unasked(g: Id): Grant -> bool {
    (x: Grant) => x.request.groupId == g
                  && x.request.deliveryClass in {DeliveryClass.Airing, DeliveryClass.Release, DeliveryClass.Content}
  }

  /** Which limits concern a request at all. */
  predicate Concerns(limit: Reason, request: SendRequest) {
    match limit
    case Global => true
    case Group => true
    case User => request.userId.Some?
    case UserWindow => request.userId.Some?
    case ProactiveGroup =>
      request.deliveryClass in {DeliveryClass.Airing, DeliveryClass.Release, DeliveryClass.Content}
    case ProactiveWindow =>
      request.deliveryClass in {DeliveryClass.Airing, DeliveryClass.Release, DeliveryClass.Content}
  }

  /** At instant `t`, and with no other grants, the limit would let the request through. */
  predicate HasRoom(limits: GovernorLimits, history: seq<Grant>, request: SendRequest, limit: Reason, t: int)
    requires Concerns(limit, request)
  {
    var g := request.groupId;
    match limit
    case Global => |Recent(history, Any(), t, limits.globalInterval)| < limits.globalBurst
    case Group => Recent(history, ToGroup(g), t, limits.groupInterval) == {}
    case User => Recent(history, ToMember(g, request.userId.value), t, limits.userInterval) == {}
    case UserWindow =>
      |Recent(history, ToMember(g, request.userId.value), t, 60 * SECOND)| < limits.userLimitPerMinute
    case ProactiveGroup => Recent(history, Unasked(g), t, limits.proactiveGroupInterval) == {}
    case ProactiveWindow =>
      |Recent(history, Unasked(g), t, 600 * SECOND)| < limits.proactiveGroupLimitPer10Minutes
  }

  /** The order in which the limits are looked at. */
  function Place(limit: Reason): nat {
    match limit
    case Global => 0 case Group => 1 case User => 2 case UserWindow => 3 case ProactiveGroup => 4
    case ProactiveWindow => 5
  }

  // ---------------------------------------------------------------- limits and rules

  function Hitting(bucket: Bucket): Grant -> bool {
    (x: Grant) => Hits(bucket, x.request)
  }

  lemma {:induction false} RecentGrows(history: seq<Grant>, last: Grant, kind: Grant -> bool, t: int, interval: int)
    ensures Recent(history + [last], kind, t, interval) == Recent(history, kind, t, interval)
              + if kind(last) && t - interval < last.at then {|history|} else {}
    ensures |Recent(history + [last], kind, t, interval)| == |Recent(history, kind, t, interval)|
              + if kind(last) && t - interval < last.at then 1 else 0
  {
    var more := Recent(history + [last], kind, t, interval);
    assert more == Recent(history, kind, t, interval)
                   + if kind(last) && t - interval < last.at then {|history|} else {};
  }

  lemma {:induction false} CountIsRecent(history: seq<Grant>, bucket: Bucket, t: int, interval: int)
    requires Past(history, t)
    ensures CountIn(Times(history, bucket), t - interval + 1, t + 1)
         == |Recent(history, Hitting(bucket), t, interval)|
  {
    hide Hits, Recent, Times, CountIn;
    if history == [] {
      NothingIsRecent(bucket, t, interval);
    } else {
      var k := |history| - 1;
      var before, last := history[..k], history[k];
      assert history == before + [last];
      CountIsRecent(before, bucket, t, interval);
      RecentGrows(before, last, Hitting(bucket), t, interval);
      TimesGrow(before, last, bucket);
      CountOfOneMore(Times(before, bucket), last.at, t - interval + 1, t + 1);
    }
  }

  lemma {:induction false} NothingIsRecent(bucket: Bucket, t: int, interval: int)
    ensures CountIn(Times([], bucket), t - interval + 1, t + 1) == 0
    ensures Recent([], Hitting(bucket), t, interval) == {}
  {
  }

  lemma {:induction false} CountOfOneMore(times: seq<int>, at: int, from: int, to: int)
    ensures CountIn(times + [at], from, to) == CountIn(times, from, to) + if from <= at < to then 1 else 0
    ensures times + [] == times
  {
    assert (times + [at])[..|times|] == times;
  }

  lemma {:induction false} RoomIffNoWait(history: seq<Grant>, rule: Rule, kind: Grant -> bool, t: int)
    requires rule.quota >= 1 && Past(history, t)
    requires forall x: Grant :: kind(x) <==> Hits(rule.bucket, x.request)
    ensures Wait(history, rule, t) <= 0 <==> |Recent(history, kind, t, rule.interval)| < rule.quota
  {
    hide Wait, Times, CountIn, Past, Hits;
    BlocksIffQuotaUsed(history, rule, t);
    CountIsRecent(history, rule.bucket, t, rule.interval);
    assert Recent(history, kind, t, rule.interval) == Recent(history, Hitting(rule.bucket), t, rule.interval);
  }

  /** The rule a limit is checked by. */
  function RuleOf(limits: GovernorLimits, request: SendRequest, limit: Reason): Rule
    requires Concerns(limit, request)
  {
    var g := request.groupId;
    match limit
    case Global => Rule(Global, Everyone, limits.globalBurst, limits.globalInterval)
    case Group => Rule(Group, InGroup(g), 1, limits.groupInterval)
    case User => Rule(User, OfUser(g, request.userId.value), 1, limits.userInterval)
    case UserWindow =>
      Rule(UserWindow, OfUser(g, request.userId.value), limits.userLimitPerMinute, 60 * SECOND)
    case ProactiveGroup => Rule(ProactiveGroup, ProactiveIn(g), 1, limits.proactiveGroupInterval)
    case ProactiveWindow =>
      Rule(ProactiveWindow, ProactiveIn(g), limits.proactiveGroupLimitPer10Minutes, 600 * SECOND)
  }

  /** The rules of a request are those of the limits that concern it, in their order. */
  lemma {:induction false} RulesAreTheLimits(limits: GovernorLimits, request: SendRequest)
    ensures forall limit :: Concerns(limit, request) ==> RuleOf(limits, request, limit) in Rules(limits, request)
    ensures forall i :: 0 <= i < |Rules(limits, request)| ==>
              var rule := Rules(limits, request)[i];
              Concerns(rule.reason, request) && rule == RuleOf(limits, request, rule.reason)
    ensures forall i, j :: 0 <= i < j < |Rules(limits, request)| ==>
              Place(Rules(limits, request)[i].reason) < Place(Rules(limits, request)[j].reason)
  {
    hide Rules, Concerns, RuleOf, Place;
    EveryRuleIsALimit(limits, request);
    forall limit | Concerns(limit, request)
      ensures RuleOf(limits, request, limit) in Rules(limits, request)
    {
      EveryLimitHasARule(limits, request, limit);
    }
  }

  lemma {:induction false} EveryRuleIsALimit(limits: GovernorLimits, request: SendRequest)
    ensures forall i :: 0 <= i < |Rules(limits, request)| ==>
              var rule := Rules(limits, request)[i];
              Concerns(rule.reason, request) && rule == RuleOf(limits, request, rule.reason)
    ensures forall i, j :: 0 <= i < j < |Rules(limits, request)| ==>
              Place(Rules(limits, request)[i].reason) < Place(Rules(limits, request)[j].reason)
  {
  }

  lemma {:induction false} EveryLimitHasARule(limits: GovernorLimits, request: SendRequest, limit: Reason)
    requires Concerns(limit, request)
    ensures RuleOf(limits, request, limit) in Rules(limits, request)
  {
    var rules, rule := Rules(limits, request), RuleOf(limits, request, limit);
    var shared, user := SharedRules(limits, request.groupId), UserRules(limits, request.groupId, request.userId);
    match limit {
      case Global => assert rules[0] == rule;
      case Group => assert rules[1] == rule;
      case User => assert rules[2] == rule;
      case UserWindow => assert rules[3] == rule;
      case ProactiveGroup => assert rules[|shared + user|] == rule;
      case ProactiveWindow => assert rules[|shared + user| + 1] == rule;
    }
  }

  lemma {:induction false} RoomIsNoWait(limits: GovernorLimits, history: seq<Grant>, request: SendRequest,
                                        limit: Reason, t: int)
    requires limits.Usable() && Past(history, t) && Concerns(limit, request)
    ensures RuleOf(limits, request, limit).quota >= 1
    ensures HasRoom(limits, history, request, limit, t) <==> Wait(history, RuleOf(limits, request, limit), t) <= 0
  {
    hide Wait, Past, Recent;
    var rule, g := RuleOf(limits, request, limit), request.groupId;
    match limit {
      case Global => RoomIffNoWait(history, rule, Any(), t);
      case Group => RoomIffNoWait(history, rule, ToGroup(g), t);
      case User => RoomIffNoWait(history, rule, ToMember(g, request.userId.value), t);
      case UserWindow => RoomIffNoWait(history, rule, ToMember(g, request.userId.value), t);
      case ProactiveGroup => RoomIffNoWait(history, rule, Unasked(g), t);
      case ProactiveWindow => RoomIffNoWait(history, rule, Unasked(g), t);
    }
  }

  // ---------------------------------------------------------------- when a request passes

  lemma {:induction false} AllowedIffEveryLimitHasRoom(limits: GovernorLimits, history: seq<Grant>,
                                                       request: SendRequest, now: int)
    requires limits.Usable() && Past(history, now)
    ensures Decide(limits, history, request, now).allowed <==>
            forall limit :: Concerns(limit, request) ==> HasRoom(limits, history, request, limit, now)
  {
    hide Decide, Wait, Past, Rules, HasRoom, Concerns, RuleOf;
    AllowedIffNothingBlocks(limits, history, request, now);
    RulesAreTheLimits(limits, request);
    forall limit | Concerns(limit, request)
      ensures RuleOf(limits, request, limit).quota >= 1
      ensures HasRoom(limits, history, request, limit, now) <==>
              Wait(history, RuleOf(limits, request, limit), now) <= 0
    {
      RoomIsNoWait(limits, history, request, limit, now);
    }
    forall rule | rule in Rules(limits, request)
      ensures Concerns(rule.reason, request) && rule == RuleOf(limits, request, rule.reason)
    {
      var i :| 0 <= i < |Rules(limits, request)| && Rules(limits, request)[i] == rule;
    }
  }

  lemma {:induction false} PassingSaysNothing(limits: GovernorLimits, history: seq<Grant>, request: SendRequest,
                                              now: int)
    requires limits.Usable() && Decide(limits, history, request, now).allowed
    ensures Decide(limits, history, request, now) == SendPermit(true, 0, None)
  {
    hide Waits, Rules;
  }

  /** A request passes exactly when there is room under every limit that concerns it: globally fewer than the burst,
      none to its group, for a named user none and fewer than the limit of a minute, and, for airing, release and
      content messages and for no others, none and fewer than the limit of ten minutes of that kind to its group. */
  lemma {:induction false} AllowedByName(limits: GovernorLimits, history: seq<Grant>, request: SendRequest, now: int)
    requires limits.Usable() && Past(history, now)
    ensures Decide(limits, history, request, now).allowed ==>
              Decide(limits, history, request, now) == SendPermit(true, 0, None)
    ensures var g := request.groupId;
            Decide(limits, history, request, now).allowed <==>
              && |Recent(history, Any(), now, limits.globalInterval)| < limits.globalBurst
              && Recent(history, ToGroup(g), now, limits.groupInterval) == {}
              && (request.userId.Some? ==>
                    var u := request.userId.value;
                    && Recent(history, ToMember(g, u), now, limits.userInterval) == {}
                    && |Recent(history, ToMember(g, u), now, 60 * SECOND)| < limits.userLimitPerMinute)
              && (request.deliveryClass in {DeliveryClass.Airing, DeliveryClass.Release, DeliveryClass.Content} ==>
                    && Recent(history, Unasked(g), now, limits.proactiveGroupInterval) == {}
                    && |Recent(history, Unasked(g), now, 600 * SECOND)| < limits.proactiveGroupLimitPer10Minutes)
  {
    hide Decide, Past, Recent;
    if Decide(limits, history, request, now).allowed {
      PassingSaysNothing(limits, history, request, now);
    }
    AllowedIffEveryLimitHasRoom(limits, history, request, now);
    assert Concerns(Global, request) && Concerns(Group, request);
    assert Concerns(User, request) == Concerns(UserWindow, request) == request.userId.Some?;
    assert Concerns(ProactiveGroup, request) == Concerns(ProactiveWindow, request);
    if forall limit :: Concerns(limit, request) ==> HasRoom(limits, history, request, limit, now) {
      assert HasRoom(limits, history, request, Global, now) && HasRoom(limits, history, request, Group, now);
      assert request.userId.Some? ==>
        HasRoom(limits, history, request, User, now) && HasRoom(limits, history, request, UserWindow, now);
      assert Concerns(ProactiveGroup, request) ==>
        && HasRoom(limits, history, request, ProactiveGroup, now)
        && HasRoom(limits, history, request, ProactiveWindow, now);
    } else {
      var limit :| Concerns(limit, request) && !HasRoom(limits, history, request, limit, now);
      match limit {
        case Global =>
        case Group =>
        case User =>
        case UserWindow =>
        case ProactiveGroup =>
        case ProactiveWindow =>
      }
    }
  }

  // ---------------------------------------------------------------- what a refusal says

  lemma {:induction false} LongestOfOneMore(waits: seq<(Reason, int)>, last: (Reason, int))
    ensures Longest(waits + [last]) ==
            if waits == [] then last else if last.1 > Longest(waits).1 then last else Longest(waits)
  {
    assert (waits + [last])[..|waits|] == waits;
  }

  lemma {:induction false} WaitsOfOneMore(history: seq<Grant>, rules: seq<Rule>, now: int)
    requires UsableRules(rules) && rules != []
    ensures var k := |rules| - 1;
            Waits(history, rules, now) == Waits(history, rules[..k], now)
              + if Wait(history, rules[k], now) > 0 then [WaitOf(history, rules[k], now)] else []
  {
    hide Wait, KeepPositive;
    KeepPositiveOne(WaitOf(history, rules[|rules| - 1], now));
  }

  /** Rule `m` is the first of those that wait longest. */
  ghost predicate WaitsLongest(history: seq<Grant>, rules: seq<Rule>, now: int, m: nat)
    requires UsableRules(rules)
  {
    && m < |rules| && Wait(history, rules[m], now) > 0
    && (forall j :: 0 <= j < m ==> Wait(history, rules[j], now) < Wait(history, rules[m], now))
    && (forall j :: m < j < |rules| ==> Wait(history, rules[j], now) <= Wait(history, rules[m], now))
  }

  /** The longest wait is that of the first rule that waits longest. */
  lemma {:induction false} LongestRule(history: seq<Grant>, rules: seq<Rule>, now: int) returns (m: nat)
    requires UsableRules(rules) && Waits(history, rules, now) != []
    ensures WaitsLongest(history, rules, now, m)
    ensures Longest(Waits(history, rules, now)) == WaitOf(history, rules[m], now)
  {
    hide Wait, Waits, Longest;
    var k := |rules| - 1;
    NoRulesWait(history, now);
    var entry, before := WaitOf(history, rules[k], now), Waits(history, rules[..k], now);
    WaitsOfOneMore(history, rules, now);
    LongestOfOneMore(before, entry);
    if before == [] {
      m := k;
      NoneWaits(history, rules[..k], now);
      assert forall j :: 0 <= j < k ==> rules[..k][j] == rules[j];
    } else {
      m := LongestRule(history, rules[..k], now);
      assert forall j :: 0 <= j < k ==> rules[..k][j] == rules[j];
      if entry.1 > Wait(history, rules[m], now) {
        m := k;
      } else {
        assert before + [] == before;
      }
    }
  }

  lemma {:induction false} NoRulesWait(history: seq<Grant>, now: int)
    ensures Waits(history, [], now) == []
  {
  }

  lemma {:induction false} NoneWaits(history: seq<Grant>, rules: seq<Rule>, now: int)
    requires UsableRules(rules) && Waits(history, rules, now) == []
    ensures forall j :: 0 <= j < |rules| ==> Wait(history, rules[j], now) <= 0
  {
    hide Wait, Waits;
    forall j | 0 <= j < |rules|
      ensures Wait(history, rules[j], now) <= 0
    {
      if Wait(history, rules[j], now) > 0 {
        BlockingRuleIsListed(history, rules, rules[j], now);
      }
    }
  }

  lemma {:induction false} WaitsPass(history: seq<Grant>, rule: Rule, now: int, t: int)
    requires rule.quota >= 1
    ensures Wait(history, rule, now) > 0 ==> Wait(history, rule, t) == Wait(history, rule, now) + now - t
    ensures Wait(history, rule, now) <= 0 && t >= now ==> Wait(history, rule, t) <= 0
  {
    hide Times;
  }

  /** A refusal names the limit that has room last, and of several such limits the one looked at first; the hint is
      exactly how long that takes, or ten milliseconds if that is more. */
  lemma {:induction false} RefusalNamesItsLimit(limits: GovernorLimits, history: seq<Grant>, request: SendRequest,
                                                now: int)
    returns (wait: int)
    requires limits.Usable() && Past(history, now)
    requires !Decide(limits, history, request, now).allowed
    ensures wait > 0
    ensures var permit := Decide(limits, history, request, now);
            && permit.reason.Some? && Concerns(permit.reason.value, request)
            && permit.retryAfter == (if wait < 10_000 then 10_000 else wait)
            && (forall t :: t >= now ==>
                  (HasRoom(limits, history, request, permit.reason.value, t) <==> t >= now + wait))
            && (forall limit :: Concerns(limit, request) ==>
                  && HasRoom(limits, history, request, limit, now + wait)
                  && (Place(limit) < Place(permit.reason.value) ==>
                        HasRoom(limits, history, request, limit, now + wait - 1)))
  {
    hide Wait, Waits, Rules, HasRoom, Concerns, RuleOf, Place, Longest;
    var rules := Rules(limits, request);
    RulesAreTheLimits(limits, request);
    RulesAreUsable(limits, request);
    var m := LongestRule(history, rules, now);
    var limit := rules[m].reason;
    wait := Wait(history, rules[m], now);
    forall t | t >= now
      ensures HasRoom(limits, history, request, limit, t) <==> t >= now + wait
    {
      PastAges(history, now, t);
      RoomIsNoWait(limits, history, request, limit, t);
      WaitsPass(history, rules[m], now, t);
    }
    forall other | Concerns(other, request)
      ensures HasRoom(limits, history, request, other, now + wait)
      ensures Place(other) < Place(limit) ==> HasRoom(limits, history, request, other, now + wait - 1)
    {
      var rule := RuleOf(limits, request, other);
      var i :| 0 <= i < |rules| && rules[i] == rule;
      ReasonOfRule(limits, request, other);
      PastAges(history, now, now + wait);
      PastAges(history, now, now + wait - 1);
      RoomIsNoWait(limits, history, request, other, now + wait);
      RoomIsNoWait(limits, history, request, other, now + wait - 1);
      WaitsPass(history, rule, now, now + wait);
      WaitsPass(history, rule, now, now + wait - 1);
    }
  }

  lemma {:induction false} ReasonOfRule(limits: GovernorLimits, request: SendRequest, limit: Reason)
    requires Concerns(limit, request)
    ensures RuleOf(limits, request, limit).reason == limit
  {
  }

  lemma {:induction false} RulesAreUsable(limits: GovernorLimits, request: SendRequest)
    requires limits.Usable()
    ensures UsableRules(Rules(limits, request))
  {
  }

  lemma {:induction false} PastAges(history: seq<Grant>, seen: int, now: int)
    requires Past(history, seen) && now >= seen
    ensures Past(history, now)
  {
  }
}
