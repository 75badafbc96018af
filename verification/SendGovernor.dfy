/** The in-process rate limiter. For every key it keeps only what it still needs: a deque that is pruned whenever it is
    looked at, or the instant of the last grant. It answers as the governor of `SendHistory`, which forgets nothing. */
module SendGovernors {
  import opened Options
  import opened Durations
  import opened Identifiers
  import opened SendHistory

  /** A deque holds the newest hits; what was dropped from it is at least one interval old. */
  ghost predicate Prunes(window: seq<int>, times: seq<int>, quota: int, interval: int, seen: int) {
    && |window| <= |times| && |window| <= quota
    && window == times[|times| - |window|..]
    && forall i :: 0 <= i < |times| - |window| ==> times[i] + interval <= seen
  }

  ghost predicate RemembersLast(last: Option<int>, times: seq<int>) {
    last == if times == [] then None else Some(times[|times| - 1])
  }

  function Lookup<K, V>(m: map<K, V>, key: K): Option<V> {
    if key in m then Some(m[key]) else None
  }

  /** Reading a missing key of a `defaultdict(deque)` gives an empty deque. */
  function DequeAt<K>(m: map<K, seq<int>>, key: K): seq<int> {
    if key in m then m[key] else []
  }

  /** What one pruned deque contributes to the list of waits. */
  function WindowWait(reason: Reason, window: seq<int>, quota: int, interval: int, now: int): seq<(Reason, int)>
    requires quota >= 1
  {
    if |window| >= quota then [(reason, window[0] + interval - now)] else []
  }

  function LastWait(reason: Reason, last: Option<int>, interval: int, now: int): seq<(Reason, int)> {
    match last case None => [] case Some(t) => [(reason, t + interval - now)]
  }

  lemma {:induction false} KeepPositiveSplits(a: seq<(Reason, int)>, b: seq<(Reason, int)>)
    ensures KeepPositive(a + b) == KeepPositive(a) + KeepPositive(b)
  {
    if b == [] {
      assert a + b == a;
    } else {
      var front := b[..|b| - 1];
      KeepPositiveSplits(a, front);
      assert (a + b)[..|a + b| - 1] == a + front;
    }
  }

  /** A full pruned deque starts at the `quota`-th most recent hit, and that hit still blocks; a deque with room
      means that the rule does not block. */
  lemma {:induction false} PrunedWindowAgrees(history: seq<Grant>, rule: Rule, window: seq<int>, now: int)
    requires rule.quota >= 1
    requires Prunes(window, Times(history, rule.bucket), rule.quota, rule.interval, now)
    requires window != [] ==> window[0] > now - rule.interval
    ensures KeepPositive(WindowWait(rule.reason, window, rule.quota, rule.interval, now))
         == KeepPositive([(rule.reason, Wait(history, rule, now))])
    ensures |window| >= rule.quota ==>
              KeepPositive(WindowWait(rule.reason, window, rule.quota, rule.interval, now)) != []
  {
    var entry := (rule.reason, Wait(history, rule, now));
    assert [entry][..0] == [];
  }

  lemma {:induction false} LastAgrees(history: seq<Grant>, rule: Rule, last: Option<int>, now: int)
    requires rule.quota == 1 && RemembersLast(last, Times(history, rule.bucket))
    ensures KeepPositive(LastWait(rule.reason, last, rule.interval, now))
         == KeepPositive([(rule.reason, Wait(history, rule, now))])
  {
    var entry := (rule.reason, Wait(history, rule, now));
    assert [entry][..0] == [];
  }

  /** Extends both lists of waits, the implementation's and the specification's, by one rule. */
  lemma {:induction false} ExtendWaits(history: seq<Grant>, rules: seq<Rule>, rule: Rule, now: int,
                    waits: seq<(Reason, int)>, more: seq<(Reason, int)>)
    requires UsableRules(rules) && rule.quota >= 1
    requires KeepPositive(waits) == Waits(history, rules, now)
    requires KeepPositive(more) == KeepPositive([(rule.reason, Wait(history, rule, now))])
    ensures UsableRules(rules + [rule])
    ensures KeepPositive(waits + more) == Waits(history, rules + [rule], now)
  {
    KeepPositiveSplits(waits, more);
    assert (rules + [rule])[..|rules|] == rules;
  }

  ghost predicate WindowsOk<K(!new)>(windows: map<K, seq<int>>, bucket: K -> Bucket, history: seq<Grant>,
                                     quota: int, interval: int, seen: int)
  {
    forall key :: Prunes(DequeAt(windows, key), Times(history, bucket(key)), quota, interval, seen)
  }

  ghost predicate LastsOk<K(!new)>(lasts: map<K, int>, bucket: K -> Bucket, history: seq<Grant>) {
    forall key :: RemembersLast(Lookup(lasts, key), Times(history, bucket(key)))
  }

  /** `key` names the bucket of its kind that a grant counts in, if there is one. */
  ghost predicate Names<K(!new)>(key: Option<K>, bucket: K -> Bucket, request: SendRequest) {
    forall k :: Hits(bucket(k), request) <==> key == Some(k)
  }

  lemma {:induction false} WindowsPrune<K(!new)>(windows: map<K, seq<int>>, bucket: K -> Bucket, history: seq<Grant>,
                              quota: int, interval: int, seen: int, now: int, key: K, kept: seq<int>)
    requires WindowsOk(windows, bucket, history, quota, interval, seen) && now >= seen
    requires var whole := DequeAt(windows, key);
             && |kept| <= |whole| && kept == whole[|whole| - |kept|..]
             && forall i :: 0 <= i < |whole| - |kept| ==> whole[i] <= now - interval
    ensures WindowsOk(windows[key := kept], bucket, history, quota, interval, now)
    ensures Prunes(kept, Times(history, bucket(key)), quota, interval, now)
  {
    hide Times, Prunes;
    forall k
      ensures Prunes(DequeAt(windows[key := kept], k), Times(history, bucket(k)), quota, interval, now)
    {
      assert Prunes(DequeAt(windows, k), Times(history, bucket(k)), quota, interval, seen);
      PruneOnce(DequeAt(windows, k), Times(history, bucket(k)), quota, interval, seen, now,
                DequeAt(windows[key := kept], k));
    }
    assert DequeAt(windows[key := kept], key) == kept;
  }

  lemma {:induction false} PruneOnce(window: seq<int>, times: seq<int>, quota: int, interval: int, seen: int,
                                     now: int, kept: seq<int>)
    requires Prunes(window, times, quota, interval, seen) && now >= seen
    requires |kept| <= |window| && kept == window[|window| - |kept|..]
    requires forall i :: 0 <= i < |window| - |kept| ==> window[i] <= now - interval
    ensures Prunes(kept, times, quota, interval, now)
  {
    forall i | 0 <= i < |times| - |kept|
      ensures times[i] + interval <= now
    {
      if i >= |times| - |window| {
        assert times[i] == window[i - (|times| - |window|)];
      }
    }
  }

  lemma {:induction false} WindowsAge<K(!new)>(windows: map<K, seq<int>>, bucket: K -> Bucket, history: seq<Grant>,
                            quota: int, interval: int, seen: int, now: int)
    requires WindowsOk(windows, bucket, history, quota, interval, seen) && now >= seen
    ensures WindowsOk(windows, bucket, history, quota, interval, now)
  {
    forall k
      ensures Prunes(DequeAt(windows, k), Times(history, bucket(k)), quota, interval, now)
    {
      assert Prunes(DequeAt(windows, k), Times(history, bucket(k)), quota, interval, seen);
    }
  }

  function AppendAt<K>(windows: map<K, seq<int>>, key: Option<K>, at: int): map<K, seq<int>> {
    if key == None then windows else windows[key.value := DequeAt(windows, key.value) + [at]]
  }

  function PutAt<K>(lasts: map<K, int>, key: Option<K>, at: int): map<K, int> {
    if key == None then lasts else lasts[key.value := at]
  }

  lemma {:induction false} WindowsRecord<K(!new)>(windows: map<K, seq<int>>, bucket: K -> Bucket, history: seq<Grant>,
                               quota: int, interval: int, seen: int, key: Option<K>, grant: Grant)
    requires WindowsOk(windows, bucket, history, quota, interval, seen)
    requires Names(key, bucket, grant.request)
    requires key.Some? ==> |DequeAt(windows, key.value)| < quota
    ensures WindowsOk(AppendAt(windows, key, grant.at), bucket, history + [grant], quota, interval, seen)
  {
    hide Times, Prunes, Hits;
    forall k
      ensures Prunes(DequeAt(AppendAt(windows, key, grant.at), k), Times(history + [grant], bucket(k)),
                     quota, interval, seen)
    {
      assert Prunes(DequeAt(windows, k), Times(history, bucket(k)), quota, interval, seen);
      if key == Some(k) {
        PrunesGrow(DequeAt(windows, k), history, bucket(k), quota, interval, seen, grant);
      } else {
        TimesGrow(history, grant, bucket(k));
      }
    }
  }

  lemma {:induction false} LastsRecord<K(!new)>(lasts: map<K, int>, bucket: K -> Bucket, history: seq<Grant>,
                             key: Option<K>, grant: Grant)
    requires LastsOk(lasts, bucket, history) && Names(key, bucket, grant.request)
    ensures LastsOk(PutAt(lasts, key, grant.at), bucket, history + [grant])
  {
    forall k
      ensures RemembersLast(Lookup(PutAt(lasts, key, grant.at), k), Times(history + [grant], bucket(k)))
    {
      assert RemembersLast(Lookup(lasts, k), Times(history, bucket(k)));
      TimesGrow(history, grant, bucket(k));
    }
  }

  lemma {:induction false} NothingYet<K(!new)>(bucket: K -> Bucket, quota: int, interval: int, seen: int)
    requires quota >= 1
    ensures LastsOk(map[], bucket, []) && WindowsOk(map[], bucket, [], quota, interval, seen)
  {
    forall k: K
      ensures Prunes(DequeAt(map[], k), Times([], bucket(k)), quota, interval, seen)
    {
    }
    forall k: K
      ensures RemembersLast(Lookup(map[], k), Times([], bucket(k)))
    {
    }
  }

  lemma {:induction false} LastOf<K(!new)>(lasts: map<K, int>, bucket: K -> Bucket, history: seq<Grant>, key: K)
    requires LastsOk(lasts, bucket, history)
    ensures RemembersLast(Lookup(lasts, key), Times(history, bucket(key)))
  {
  }

  lemma {:induction false} NoRulesNoWaits(history: seq<Grant>, now: int)
    ensures KeepPositive([]) == Waits(history, [], now)
  {
  }

  lemma {:induction false} PastAges(history: seq<Grant>, seen: int, now: int)
    requires Past(history, seen) && now >= seen
    ensures Past(history, now)
  {
  }

  lemma {:induction false} PastGrows(history: seq<Grant>, grant: Grant)
    requires Past(history, grant.at)
    ensures Past(history + [grant], grant.at)
  {
  }

  lemma {:induction false} PrunesGrow(window: seq<int>, history: seq<Grant>, bucket: Bucket,
                                      quota: int, interval: int, seen: int, grant: Grant)
    requires Prunes(window, Times(history, bucket), quota, interval, seen)
    requires Hits(bucket, grant.request) && |window| < quota
    ensures Prunes(window + [grant.at], Times(history + [grant], bucket), quota, interval, seen)
  {
    TimesGrow(history, grant, bucket);
  }

  function GroupBucket(g: Id): Bucket { InGroup(g) }
  function UserBucket(key: Member): Bucket { OfUser(key.groupId, key.userId) }
  function ProactiveBucket(g: Id): Bucket { ProactiveIn(g) }

  function UserKey(request: SendRequest): Option<Member> {
    match request.userId case None => None case Some(u) => Some(Member(request.groupId, u))
  }

  function ProactiveKey(request: SendRequest): Option<Id> {
    if request.deliveryClass.Proactive() then Some(request.groupId) else None
  }

  lemma {:induction false} GlobalIsHit(request: SendRequest)
    ensures Hits(Everyone, request)
  {
  }

  lemma {:induction false} KeysNameBuckets(request: SendRequest)
    ensures Names(Some(request.groupId), GroupBucket, request)
    ensures Names(UserKey(request), UserBucket, request)
    ensures Names(ProactiveKey(request), ProactiveBucket, request)
  {
  }

  /** The waits of one windowed and one last-grant rule agree with the specification, in either order. */
  lemma {:induction false} TwoRulesAgree(history: seq<Grant>, rules: seq<Rule>, windowed: Rule, window: seq<int>,
                                         spaced: Rule, last: Option<int>, now: int, waits: seq<(Reason, int)>)
    requires UsableRules(rules) && windowed.quota >= 1 && spaced.quota == 1
    requires Prunes(window, Times(history, windowed.bucket), windowed.quota, windowed.interval, now)
    requires window != [] ==> window[0] > now - windowed.interval
    requires RemembersLast(last, Times(history, spaced.bucket))
    requires KeepPositive(waits) == Waits(history, rules, now)
    ensures UsableRules(rules + [windowed, spaced]) && UsableRules(rules + [spaced, windowed])
    ensures var full := WindowWait(windowed.reason, window, windowed.quota, windowed.interval, now);
            var wait := LastWait(spaced.reason, last, spaced.interval, now);
            && KeepPositive(waits + full + wait) == Waits(history, rules + [windowed, spaced], now)
            && KeepPositive(waits + wait + full) == Waits(history, rules + [spaced, windowed], now)
            && (KeepPositive(waits + full + wait) == [] ==> |window| < windowed.quota)
            && (KeepPositive(waits + wait + full) == [] ==> KeepPositive(waits) == [] && |window| < windowed.quota)
  {
    PrunedWindowAgrees(history, windowed, window, now);
    LastAgrees(history, spaced, last, now);
    hide Prunes, RemembersLast, Waits, KeepPositive, Times;
    var full := WindowWait(windowed.reason, window, windowed.quota, windowed.interval, now);
    var wait := LastWait(spaced.reason, last, spaced.interval, now);
    ExtendByTwo(history, rules, windowed, spaced, now, waits, full, wait);
    ExtendByTwo(history, rules, spaced, windowed, now, waits, wait, full);
  }

  lemma {:induction false} ExtendByTwo(history: seq<Grant>, rules: seq<Rule>, one: Rule, two: Rule, now: int,
                                       waits: seq<(Reason, int)>, more: seq<(Reason, int)>, most: seq<(Reason, int)>)
    requires UsableRules(rules) && one.quota >= 1 && two.quota >= 1
    requires KeepPositive(waits) == Waits(history, rules, now)
    requires KeepPositive(more) == KeepPositive([(one.reason, Wait(history, one, now))])
    requires KeepPositive(most) == KeepPositive([(two.reason, Wait(history, two, now))])
    ensures UsableRules(rules + [one, two])
    ensures KeepPositive(waits + more + most) == Waits(history, rules + [one, two], now)
    ensures KeepPositive(waits + more + most) == [] ==>
              KeepPositive(waits) == [] && KeepPositive(more) == [] && KeepPositive(most) == []
  {
    hide KeepPositive, Waits;
    ExtendWaits(history, rules, one, now, waits, more);
    ExtendWaits(history, rules + [one], two, now, waits + more, most);
    KeepPositiveSplits(waits, more);
    KeepPositiveSplits(waits + more, most);
    assert rules + [one] + [two] == rules + [one, two];
  }

  class SendGovernor {
    const limits: GovernorLimits
    var global: seq<int>
    var groupLast: map<Id, int>
    var userLast: map<Member, int>
    var userWindow: map<Member, seq<int>>
    var proactiveLast: map<Id, int>
    var proactiveWindow: map<Id, seq<int>>
    /** All grants ever made. */
    ghost var history: seq<Grant>
    /** The latest reading of the clock. */
    ghost var seen: int

    ghost predicate Valid()
      reads this
    {
      && limits.Usable()
      && Past(history, seen)
      && Prunes(global, Times(history, Everyone), limits.globalBurst, limits.globalInterval, seen)
      && LastsOk(groupLast, GroupBucket, history)
      && LastsOk(userLast, UserBucket, history)
      && WindowsOk(userWindow, UserBucket, history, limits.userLimitPerMinute, MINUTE, seen)
      && LastsOk(proactiveLast, ProactiveBucket, history)
      && WindowsOk(proactiveWindow, ProactiveBucket, history,
                   limits.proactiveGroupLimitPer10Minutes, 10 * MINUTE, seen)
    }

    /** The deques a request is recorded in have room for one more entry. */
    ghost predicate HasRoom(request: SendRequest)
      reads this
    {
      var user, group := UserKey(request), ProactiveKey(request);
      && |global| < limits.globalBurst
      && (user.Some? ==> |DequeAt(userWindow, user.value)| < limits.userLimitPerMinute)
      && (group.Some? ==> |DequeAt(proactiveWindow, group.value)| < limits.proactiveGroupLimitPer10Minutes)
    }

    constructor (limits: GovernorLimits, ghost start: int)
      requires limits.Usable()
      ensures Valid() && history == [] && seen == start && this.limits == limits
    {
      this.limits := limits;
      global, groupLast, userLast, userWindow := [], map[], map[], map[];
      proactiveLast, proactiveWindow := map[], map[];
      history, seen := [], start;
      new;
      NothingYet(GroupBucket, 1, 0, start);
      NothingYet(UserBucket, limits.userLimitPerMinute, MINUTE, start);
      NothingYet(ProactiveBucket, limits.proactiveGroupLimitPer10Minutes, 10 * MINUTE, start);
      hide WindowsOk, LastsOk;
    }

    lemma {:induction false} LimitsAreUsable()
      requires Valid()
      ensures limits.Usable()
    {
    }

    /** Answers as the governor that forgets nothing would, and records the grant if there is one. */
    method Acquire(request: SendRequest, now: int) returns (permit: SendPermit)
      requires Valid() && now >= seen
      modifies this
      ensures Valid() && seen == now
      ensures permit == Decide(limits, old(history), request, now)
      ensures history == After(limits, old(history), Call.Acquire(request, now))
      ensures history == if permit.allowed then old(history) + [Grant(request, now)] else old(history)
    {
      hide WindowsOk, LastsOk, Past, Prunes, Times, KeepPositive, Longest, Waits, Rules, HasRoom;
      var waits := WaitsFor(request, now);
      if waits != [] {
        var longest := Longest(waits);
        return SendPermit(false, Max(SHORTEST_HINT, longest.1), Some(longest.0));
      }
      Record(request, now);
      return SendPermit(true, 0, None);
    }

    /** The same answer as `Acquire`, with nothing recorded. */
    method Peek(request: SendRequest, now: int) returns (permit: SendPermit)
      requires Valid() && now >= seen
      modifies this
      ensures Valid() && seen == now
      ensures permit == Decide(limits, old(history), request, now)
      ensures history == old(history)
    {
      hide WindowsOk, LastsOk, Past, Prunes, Times, KeepPositive, Longest, Waits, Rules, HasRoom;
      var waits := WaitsFor(request, now);
      if waits == [] {
        return SendPermit(true, 0, None);
      }
      var longest := Longest(waits);
      return SendPermit(false, Max(SHORTEST_HINT, longest.1), Some(longest.0));
    }

    method WaitsFor(request: SendRequest, now: int) returns (positive: seq<(Reason, int)>)
      requires Valid() && now >= seen
      modifies this`global, this`userWindow, this`proactiveWindow, this`seen
      ensures Valid() && seen == now
      ensures positive == Waits(history, Rules(limits, request), now)
      ensures positive == [] ==> HasRoom(request)
    {
      hide WindowsOk, LastsOk, Past, Prunes, Waits, KeepPositive, Times, SharedRules, ProactiveRules;
      var g := request.groupId;
      var waits := SharedWaits(g, now);
      ghost var rules := SharedRules(limits, g);
      if request.userId.Some? {
        waits := UserWaits(g, request.userId.value, now, waits, rules);
        rules := rules + UserRules(limits, g, request.userId);
      }
      if request.deliveryClass.Proactive() {
        waits := ProactiveWaits(g, now, waits, rules);
        rules := rules + ProactiveRules(limits, g);
      }
      assert rules == Rules(limits, request);
      positive := KeepPositive(waits);
    }

    method SharedWaits(g: Id, now: int) returns (waits: seq<(Reason, int)>)
      requires Valid() && now >= seen
      modifies this`global, this`seen
      ensures Valid() && seen == now
      ensures UsableRules(SharedRules(limits, g))
      ensures KeepPositive(waits) == Waits(history, SharedRules(limits, g), now)
      ensures KeepPositive(waits) == [] ==> |global| < limits.globalBurst
    {
      hide WindowsOk, LastsOk, Past, Waits, KeepPositive, Times, RemembersLast, Rules, Prunes, WindowWait, LastWait,
           Hits;
      PastAges(history, seen, now);
      WindowsAge(userWindow, UserBucket, history, limits.userLimitPerMinute, MINUTE, seen, now);
      WindowsAge(proactiveWindow, ProactiveBucket, history,
                 limits.proactiveGroupLimitPer10Minutes, 10 * MINUTE, seen, now);
      var last := Lookup(groupLast, g);
      LastOf(groupLast, GroupBucket, history, g);
      NoRulesNoWaits(history, now);
      var kept := Prune(global, now - limits.globalInterval);
      PruneOnce(global, Times(history, Everyone), limits.globalBurst, limits.globalInterval, seen, now, kept);
      ghost var own := SharedRules(limits, g);
      TwoRulesAgree(history, [], own[0], kept, own[1], last, now, []);
      assert [] + [own[0], own[1]] == own;
      waits := [] + WindowWait(Global, kept, limits.globalBurst, limits.globalInterval, now)
            + LastWait(Group, last, limits.groupInterval, now);
      global := kept;
      seen := now;
    }

    method UserWaits(g: Id, u: Id, now: int, waits: seq<(Reason, int)>, ghost rules: seq<Rule>)
      returns (more: seq<(Reason, int)>)
      requires Valid() && seen == now && UsableRules(rules)
      requires KeepPositive(waits) == Waits(history, rules, now)
      modifies this`userWindow
      ensures Valid() && UsableRules(rules + UserRules(limits, g, Some(u)))
      ensures KeepPositive(more) == Waits(history, rules + UserRules(limits, g, Some(u)), now)
      ensures KeepPositive(more) == [] ==>
                KeepPositive(waits) == [] && |DequeAt(userWindow, Member(g, u))| < limits.userLimitPerMinute
    {
      hide WindowsOk, LastsOk, Past, Waits, KeepPositive, Times, RemembersLast, Rules, Prunes, WindowWait, LastWait,
           Hits;
      var last := Lookup(userLast, Member(g, u));
      LastOf(userLast, UserBucket, history, Member(g, u));
      var window := Prune(DequeAt(userWindow, Member(g, u)), now - MINUTE);
      WindowsPrune(userWindow, UserBucket, history, limits.userLimitPerMinute, MINUTE, now, now, Member(g, u), window);
      ghost var own := UserRules(limits, g, Some(u));
      TwoRulesAgree(history, rules, own[1], window, own[0], last, now, waits);
      more := waits + LastWait(User, last, limits.userInterval, now)
            + WindowWait(UserWindow, window, limits.userLimitPerMinute, MINUTE, now);
      assert own == [own[0], own[1]];
      userWindow := userWindow[Member(g, u) := window];
    }

    method ProactiveWaits(g: Id, now: int, waits: seq<(Reason, int)>, ghost rules: seq<Rule>)
      returns (more: seq<(Reason, int)>)
      requires Valid() && seen == now && UsableRules(rules)
      requires KeepPositive(waits) == Waits(history, rules, now)
      modifies this`proactiveWindow
      ensures Valid() && UsableRules(rules + ProactiveRules(limits, g))
      ensures KeepPositive(more) == Waits(history, rules + ProactiveRules(limits, g), now)
      ensures KeepPositive(more) == [] ==>
                KeepPositive(waits) == [] && |DequeAt(proactiveWindow, g)| < limits.proactiveGroupLimitPer10Minutes
    {
      hide WindowsOk, LastsOk, Past, Waits, KeepPositive, Times, RemembersLast, Rules, Prunes, WindowWait, LastWait,
           Hits;
      var last := Lookup(proactiveLast, g);
      LastOf(proactiveLast, ProactiveBucket, history, g);
      var window := Prune(DequeAt(proactiveWindow, g), now - 10 * MINUTE);
      WindowsPrune(proactiveWindow, ProactiveBucket, history,
                   limits.proactiveGroupLimitPer10Minutes, 10 * MINUTE, now, now, g, window);
      ghost var own := ProactiveRules(limits, g);
      TwoRulesAgree(history, rules, own[1], window, own[0], last, now, waits);
      more := waits + LastWait(ProactiveGroup, last, limits.proactiveGroupInterval, now)
            + WindowWait(ProactiveWindow, window, limits.proactiveGroupLimitPer10Minutes, 10 * MINUTE, now);
      assert own == [own[0], own[1]];
      proactiveWindow := proactiveWindow[g := window];
    }

    method Record(request: SendRequest, now: int)
      requires Valid() && seen == now && HasRoom(request)
      modifies this
      ensures Valid() && seen == now
      ensures history == old(history) + [Grant(request, now)]
    {
      hide WindowsOk, LastsOk, Times, Hits, Past, Prunes, Names, RemembersLast, UserBucket, GroupBucket,
           ProactiveBucket;
      ghost var grant := Grant(request, now);
      KeysNameBuckets(request);
      PastGrows(history, grant);
      GlobalIsHit(grant.request);
      PrunesGrow(global, history, Everyone, limits.globalBurst, limits.globalInterval, seen, grant);
      LastsRecord(groupLast, GroupBucket, history, Some(request.groupId), grant);
      LastsRecord(userLast, UserBucket, history, UserKey(request), grant);
      WindowsRecord(userWindow, UserBucket, history, limits.userLimitPerMinute, MINUTE, seen, UserKey(request), grant);
      LastsRecord(proactiveLast, ProactiveBucket, history, ProactiveKey(request), grant);
      WindowsRecord(proactiveWindow, ProactiveBucket, history,
                    limits.proactiveGroupLimitPer10Minutes, 10 * MINUTE, seen, ProactiveKey(request), grant);
      history := history + [grant];
      global := global + [now];
      groupLast := groupLast[request.groupId := now];
      if request.userId.Some? {
        var key := Member(request.groupId, request.userId.value);
        userLast := userLast[key := now];
        userWindow := userWindow[key := DequeAt(userWindow, key) + [now]];
      }
      if request.deliveryClass.Proactive() {
        var g := request.groupId;
        proactiveLast := proactiveLast[g := now];
        proactiveWindow := proactiveWindow[g := DequeAt(proactiveWindow, g) + [now]];
      }
    }

    method Prune(values: seq<int>, cutoff: int) returns (kept: seq<int>)
      ensures |kept| <= |values| && kept == values[|values| - |kept|..]
      ensures forall i :: 0 <= i < |values| - |kept| ==> values[i] <= cutoff
      ensures kept != [] ==> kept[0] > cutoff
    {
      kept := values;
      while kept != [] && kept[0] <= cutoff
        invariant |kept| <= |values| && kept == values[|values| - |kept|..]
        invariant forall i :: 0 <= i < |values| - |kept| ==> values[i] <= cutoff
      {
        kept := kept[1..];
      }
    }
  }
}
