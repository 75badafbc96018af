/** Versioned updates of a group's runtime policy by callers that interleave freely.

    An update is spread over several transactions: the administrator's validation reads the policy, the update reads it
    again, looks whether a row exists, and finally inserts the row or updates it if its version is still the expected
    one. `Advance` gives one such transaction of one caller. */
module Policy {
  import opened Options
  import opened Identifiers
  import opened Sequences

  // ---------------------------------------------------------------- policies and changes

  datatype Digest = Digest(anchor: int, quiet: int, cutoff: int) {
    /** What the digest schedule's constructor demands. */
    predicate Valid() {
      0 <= anchor < cutoff <= 1439 && 1 <= quiet <= cutoff - anchor
    }
  }

  /** `others` are the settings that no rule here talks about. */
  datatype Settings = Settings(digest: Digest, quietStart: Option<int>, quietEnd: Option<int>,
                               paused: bool, pauseReason: Option<string>, others: map<string, int>)

  datatype Change =
    | Update(anchor: Option<int>, quiet: Option<int>, cutoff: Option<int>,
             quietStart: Option<int>, quietEnd: Option<int>, clearQuietHours: bool, others: map<string, int>)
    | Pause(reason: string)
    | Resume

  const DEFAULTS := Settings(Digest(1350, 20, 1410), None, None, false, None, map[])

  function Or(choice: Option<int>, current: int): int {
    if choice.Some? then choice.value else current
  }

  function NewDigest(digest: Digest, change: Change): Digest {
    if change.Update?
    then Digest(Or(change.anchor, digest.anchor), Or(change.quiet, digest.quiet), Or(change.cutoff, digest.cutoff))
    else digest
  }

  /** The desired policy; quiet hours must be given both or not at all. */
  function Apply(s: Settings, change: Change): Option<Settings> {
    match change
    case Pause(reason) =>
      Some(s.(paused := true, pauseReason := Some(if |reason| <= 256 then reason else reason[..256])))
    case Resume => Some(s.(paused := false, pauseReason := None))
    case Update(_, _, _, quietStart, quietEnd, clear, others) =>
      var desired := s.(digest := NewDigest(s.digest, change), others := s.others + others);
      if clear then Some(desired.(quietStart := None, quietEnd := None))
      else if quietStart == None && quietEnd == None then Some(desired)
      else if quietStart == None || quietEnd == None then None
      else Some(desired.(quietStart := quietStart, quietEnd := quietEnd))
  }

  predicate Within(choice: Option<int>, low: int, high: int) {
    choice.Some? ==> low <= choice.value <= high
  }

  predicate TouchesDigest(change: Change) {
    change.Update? && (change.anchor.Some? || change.quiet.Some? || change.cutoff.Some?)
  }

  /** The administrator's validation of a change against the policy it has just read. */
  predicate Validates(s: Settings, change: Change) {
    change.Update? ==>
      && Within(change.anchor, 0, 1438) && Within(change.quiet, 1, 180) && Within(change.cutoff, 1, 1439)
      && var digest := NewDigest(s.digest, change);
         digest.anchor < digest.cutoff && digest.quiet <= digest.cutoff - digest.anchor
  }

  predicate GivesValue(choice: Option<int>, before: int, after: int) {
    if choice.Some? then after == choice.value else after == before
  }

  /** The desired policy is the current one with exactly what the change gives: every setting it names has the value it
      names and every other keeps its own; quiet hours are cleared, or the pair given, or kept. A pause and a resumption
      touch nothing but the pause and its reason, which is cut to 256 characters. */
  ghost predicate IsChanged(s: Settings, change: Change, t: Settings) {
    match change
    case Update(anchor, quiet, cutoff, quietStart, quietEnd, clear, others) =>
      && GivesValue(anchor, s.digest.anchor, t.digest.anchor)
      && GivesValue(quiet, s.digest.quiet, t.digest.quiet)
      && GivesValue(cutoff, s.digest.cutoff, t.digest.cutoff)
      && (forall k :: k in others ==> k in t.others && t.others[k] == others[k])
      && (forall k :: k !in others ==> (k in t.others <==> k in s.others))
      && (forall k :: k in s.others && k !in others ==> t.others[k] == s.others[k])
      && (clear ==> t.quietStart == None && t.quietEnd == None)
      && (!clear && quietStart.Some? ==> t.quietStart == quietStart && t.quietEnd == quietEnd && quietEnd.Some?)
      && (!clear && quietStart == None ==> quietEnd == None && t.quietStart == s.quietStart && t.quietEnd == s.quietEnd)
      && t.paused == s.paused && t.pauseReason == s.pauseReason
    case Pause(reason) =>
      && t.paused && t.pauseReason.Some? && t.pauseReason.value <= reason
      && |t.pauseReason.value| == (if |reason| < 256 then |reason| else 256)
      && t.digest == s.digest && t.quietStart == s.quietStart && t.quietEnd == s.quietEnd && t.others == s.others
    case Resume =>
      && !t.paused && t.pauseReason == None
      && t.digest == s.digest && t.quietStart == s.quietStart && t.quietEnd == s.quietEnd && t.others == s.others
  }

  lemma {:induction false} ChangesAreApplied(s: Settings, change: Change)
    ensures Apply(s, change).Some? ==> IsChanged(s, change, Apply(s, change).value)
    ensures Apply(s, change) == None <==>
            change.Update? && !change.clearQuietHours && change.quietStart.Some? != change.quietEnd.Some?
  {
  }

  /** There is only one such policy, so that a change says all that becomes of it. */
  lemma {:induction false} ChangeIsDetermined(s: Settings, change: Change, t: Settings, u: Settings)
    requires IsChanged(s, change, t) && IsChanged(s, change, u)
    ensures t == u
  {
    if change.Update? {
      assert t.others.Keys == u.others.Keys;
      forall k | k in t.others
        ensures t.others[k] == u.others[k]
      {
        if k !in change.others {
          assert k in s.others;
        }
      }
      assert t.others == u.others;
    } else if change.Pause? {
      var n := if |change.reason| < 256 then |change.reason| else 256;
      assert t.pauseReason.value == change.reason[..n] == u.pauseReason.value;
    }
  }

  /** A change fits a policy exactly if each digest minute it gives is within its range, and the digest it makes leaves
      the quiet time between anchor and cutoff. */
  lemma {:induction false} FitsIff(s: Settings, change: Change, t: Settings)
    requires IsChanged(s, change, t) && change.Update?
    ensures Validates(s, change) <==>
              && (change.anchor.Some? ==> 0 <= change.anchor.value <= 1438)
              && (change.quiet.Some? ==> 1 <= change.quiet.value <= 180)
              && (change.cutoff.Some? ==> 1 <= change.cutoff.value <= 1439)
              && t.digest.anchor < t.digest.cutoff && t.digest.anchor + t.digest.quiet <= t.digest.cutoff
  {
  }

  // ---------------------------------------------------------------- interleaved callers

  datatype Row = Row(settings: Settings, version: nat)

  datatype Caller =
    | Admitted(change: Change, expected: nat)
    | HasRead(change: Change, expected: nat, snapshot: Row)
    | HasLooked(change: Change, expected: nat, desired: Settings, sawRow: bool)
    | Done(accepted: bool)

  datatype Win = Win(caller: Id, change: Change, expected: nat)

  /** The stored row, the callers, and a record of all versions so far and of the writes that made them. */
  datatype System = System(row: Option<Row>, callers: map<Id, Caller>, history: seq<Settings>, wins: seq<Win>)

  const INITIAL := System(None, map[], [DEFAULTS], [])

  /** A group without a row has the default policy in version one. */
  function Current(row: Option<Row>): Row {
    if row.Some? then row.value else Row(DEFAULTS, 1)
  }

  /** A group that has never been configured is in version one, with its digest at half past ten in the evening after
      twenty quiet minutes and no later than half past eleven, without quiet hours, and not paused. */
  lemma {:induction false} NeverConfigured()
    ensures var policy := Current(None);
            && policy.version == 1
            && policy.settings.digest == Digest(22 * 60 + 30, 20, 23 * 60 + 30) && policy.settings.digest.Valid()
            && policy.settings.quietStart == None == policy.settings.quietEnd
            && !policy.settings.paused && policy.settings.pauseReason == None
  {
  }

  datatype Event =
    | Validate(caller: Id, change: Change, expected: nat)
    | Start(caller: Id, change: Change, expected: nat)
    | Read(caller: Id)
    | Look(caller: Id)
    | Commit(caller: Id)

  function Commits(row: Option<Row>, sawRow: bool, expected: nat): bool {
    if sawRow then row.Some? && row.value.version == expected else row == None && expected == 1
  }

  function Advance(s: System, event: Event): System {
    match event
    case Validate(c, change, expected) =>
      if c !in s.callers && Validates(Current(s.row).settings, change)
      then s.(callers := s.callers[c := Admitted(change, expected)]) else s
    // Callers that leave the digest alone are not validated against the policy.
    case Start(c, change, expected) =>
      if c !in s.callers && !TouchesDigest(change)
      then s.(callers := s.callers[c := Admitted(change, expected)]) else s
    case Read(c) =>
      if c in s.callers && s.callers[c].Admitted?
      then s.(callers := s.callers[c := HasRead(s.callers[c].change, s.callers[c].expected, Current(s.row))]) else s
    case Look(c) =>
      if c in s.callers && s.callers[c].HasRead? then
        var caller := s.callers[c];
        var desired := Apply(caller.snapshot.settings, caller.change);
        if desired == None || caller.expected != caller.snapshot.version
        then s.(callers := s.callers[c := Done(false)])
        else s.(callers := s.callers[c := HasLooked(caller.change, caller.expected, desired.value, s.row.Some?)])
      else s
    case Commit(c) =>
      if c in s.callers && s.callers[c].HasLooked? then
        var caller := s.callers[c];
        if Commits(s.row, caller.sawRow, caller.expected)
        then System(Some(Row(caller.desired, caller.expected + 1)), s.callers[c := Done(true)],
                    s.history + [caller.desired], s.wins + [Win(c, caller.change, caller.expected)])
        else s.(callers := s.callers[c := Done(false)])
      else s
  }

  function Reach(s: System, events: seq<Event>): System {
    if events == [] then s else Advance(Reach(s, events[..|events| - 1]), events[|events| - 1])
  }

  // ---------------------------------------------------------------- nothing is lost

  /** What a caller remembers is the content of the version it names. */
  ghost predicate Remembers(caller: Caller, history: seq<Settings>) {
    match caller
    case Admitted(_, _) => true
    case HasRead(_, _, snapshot) =>
      1 <= snapshot.version <= |history| && snapshot.settings == history[snapshot.version - 1]
    case HasLooked(change, expected, desired, sawRow) =>
      1 <= expected <= |history| && Apply(history[expected - 1], change) == Some(desired)
    case Done(_) => true
  }

  /** The versions form one line: each is the next accepted change applied to the version just before it, and the
      stored row is the last one. */
  ghost predicate OneLine(s: System) {
    && |s.history| == |s.wins| + 1 && (s.row == None <==> s.wins == [])
    && Current(s.row) == Row(s.history[|s.history| - 1], |s.history|)
    && (forall i :: 0 <= i < |s.wins| ==>
          s.wins[i].expected == i + 1 && Apply(s.history[i], s.wins[i].change) == Some(s.history[i + 1]))
  }

  ghost predicate AllRemember(s: System) {
    forall c :: c in s.callers ==> Remembers(s.callers[c], s.history)
  }

  lemma {:induction false} CallersRemember(history: seq<Settings>, longer: seq<Settings>, caller: Caller)
    requires history <= longer && Remembers(caller, history)
    ensures Remembers(caller, longer)
  {
    hide Apply;
  }

  /** A caller's own next step is one it remembers. */
  lemma {:induction false} StepIsRemembered(s: System, event: Event)
    requires OneLine(s) && AllRemember(s)
    ensures var t := Advance(s, event);
            event.caller in t.callers ==> Remembers(t.callers[event.caller], s.history)
  {
    hide Apply, Validates, TouchesDigest;
    assert event.caller in s.callers ==> Remembers(s.callers[event.caller], s.history);
  }

  lemma {:induction false} OthersStandStill(s: System, event: Event)
    ensures var t := Advance(s, event);
            && (forall c :: c in t.callers && c != event.caller ==> c in s.callers && t.callers[c] == s.callers[c])
            && s.history <= t.history && s.wins <= t.wins
  {
    hide Apply, Validates, TouchesDigest, Commits;
  }

  lemma {:induction false} LineGrows(s: System, event: Event)
    requires OneLine(s) && AllRemember(s)
    ensures OneLine(Advance(s, event))
  {
    hide Apply, Validates, TouchesDigest;
    if event.Commit? && event.caller in s.callers {
      assert Remembers(s.callers[event.caller], s.history);
    }
  }

  lemma {:induction false} AdvanceKeepsLine(s: System, event: Event)
    requires OneLine(s) && AllRemember(s)
    ensures OneLine(Advance(s, event)) && AllRemember(Advance(s, event))
    ensures s.history <= Advance(s, event).history && s.wins <= Advance(s, event).wins
  {
    hide Advance, OneLine, Remembers;
    var t := Advance(s, event);
    LineGrows(s, event);
    OthersStandStill(s, event);
    StepIsRemembered(s, event);
    forall c | c in t.callers
      ensures Remembers(t.callers[c], t.history)
    {
      CallersRemember(s.history, t.history, t.callers[c]);
    }
  }

  /** In every interleaving no accepted write is lost, none is applied to anything but the version just before it, and
      for each expected version at most one caller succeeds. */
  lemma {:induction false} UpdatesLoseNothing(events: seq<Event>)
    ensures OneLine(Reach(INITIAL, events)) && AllRemember(Reach(INITIAL, events))
    ensures var s := Reach(INITIAL, events);
            && |s.history| == |s.wins| + 1
            && forall i :: 0 <= i < |s.wins| ==>
                 s.wins[i].expected == i + 1 && IsChanged(s.history[i], s.wins[i].change, s.history[i + 1])
    ensures var wins := Reach(INITIAL, events).wins;
            forall i, j :: 0 <= i < j < |wins| ==> wins[i].expected != wins[j].expected
  {
    hide Advance, AllRemember, OneLine, Apply, IsChanged;
    if events == [] {
      NobodyYet();
    } else {
      var k := |events| - 1;
      UpdatesLoseNothing(events[..k]);
      AdvanceKeepsLine(Reach(INITIAL, events[..k]), events[k]);
    }
    LineIsOfChanges(Reach(INITIAL, events));
  }

  lemma {:induction false} LineIsOfChanges(s: System)
    requires OneLine(s)
    ensures |s.history| == |s.wins| + 1
    ensures forall i :: 0 <= i < |s.wins| ==>
              s.wins[i].expected == i + 1 && IsChanged(s.history[i], s.wins[i].change, s.history[i + 1])
  {
    hide Apply, IsChanged;
    forall i | 0 <= i < |s.wins|
      ensures IsChanged(s.history[i], s.wins[i].change, s.history[i + 1])
    {
      ChangesAreApplied(s.history[i], s.wins[i].change);
    }
  }

  lemma {:induction false} NobodyYet()
    ensures OneLine(INITIAL) && AllRemember(INITIAL)
  {
  }

  /** Each version number has one content for good. */
  lemma {:induction false} VersionsAreFixed(events: seq<Event>, i: nat)
    requires i <= |events|
    ensures Reach(INITIAL, events[..i]).history <= Reach(INITIAL, events).history
  {
    hide Advance;
    if i < |events| {
      var k := |events| - 1;
      PrefixOfPrefix(events, i, k);
      VersionsAreFixed(events[..k], i);
      UpdatesLoseNothing(events[..k]);
      AdvanceKeepsLine(Reach(INITIAL, events[..k]), events[k]);
    } else {
      assert events[..i] == events;
    }
  }

  // ---------------------------------------------------------------- validated digests

  ghost predicate DigestsValid(history: seq<Settings>) {
    forall i :: 0 <= i < |history| ==> history[i].digest.Valid()
  }

  /** The caller named a version no later than the one its validation read. */
  ghost predicate ReadEarlier(events: seq<Event>, i: int) {
    0 <= i < |events| && events[i].Validate? ==> events[i].expected <= |Reach(INITIAL, events[..i]).history|
  }

  /** A caller still under way either leaves the digest alone, or was validated against the very version it expects, or
      expects one that has been superseded. */
  ghost predicate Promising(change: Change, expected: nat, history: seq<Settings>) {
    || !TouchesDigest(change)
    || expected < |history|
    || (1 <= expected == |history| && Validates(history[expected - 1], change))
  }

  ghost predicate AllPromising(s: System) {
    forall c :: c in s.callers ==>
      s.callers[c].Done? || Promising(s.callers[c].change, s.callers[c].expected, s.history)
  }

  lemma {:induction false} ValidatedDigestIsValid(s: Settings, change: Change, desired: Settings)
    requires s.digest.Valid() && Apply(s, change) == Some(desired)
    requires TouchesDigest(change) ==> Validates(s, change)
    ensures desired.digest.Valid()
  {
  }

  lemma {:induction false} AdvanceKeepsDigests(s: System, event: Event)
    requires OneLine(s) && AllRemember(s) && AllPromising(s) && DigestsValid(s.history)
    requires event.Validate? ==> event.expected <= |s.history|
    ensures AllPromising(Advance(s, event)) && DigestsValid(Advance(s, event).history)
  {
    hide Validates;
    var t := Advance(s, event);
    if event.Commit? && t.history != s.history {
      var caller := s.callers[event.caller];
      assert Remembers(caller, s.history);
      assert Promising(caller.change, caller.expected, s.history);
      ValidatedDigestIsValid(s.history[|s.history| - 1], caller.change, caller.desired);
    }
  }

  /** If every validated caller had read the version it expects before its validation ran, every version of the policy
      that any interleaving can reach has a digest schedule that can be constructed. */
  lemma {:induction false} DigestsStayValid(events: seq<Event>)
    requires forall i :: 0 <= i < |events| ==> ReadEarlier(events, i)
    ensures AllPromising(Reach(INITIAL, events)) && DigestsValid(Reach(INITIAL, events).history)
  {
    hide Advance, AllPromising, OneLine, AllRemember;
    if events == [] {
      NothingPromised();
    } else {
      var k := |events| - 1;
      forall i | 0 <= i < k
        ensures ReadEarlier(events[..k], i)
      {
        PrefixOfPrefix(events, i, k);
        assert ReadEarlier(events, i);
      }
      DigestsStayValid(events[..k]);
      UpdatesLoseNothing(events[..k]);
      assert ReadEarlier(events, k);
      AdvanceKeepsDigests(Reach(INITIAL, events[..k]), events[k]);
    }
  }

  lemma {:induction false} NothingPromised()
    ensures AllPromising(INITIAL) && DigestsValid(INITIAL.history)
  {
  }

  // ---------------------------------------------------------------- naming a version that does not exist yet

  /** The run's only callers that name a version beyond the one their validation read expect `e` and read `v`. */
  ghost predicate OnlyAhead(events: seq<Event>, v: nat, e: nat) {
    forall i :: 0 <= i < |events| ==>
      ReadEarlier(events, i) ||
      (events[i].Validate? && events[i].expected == e && |Reach(INITIAL, events[..i]).history| == v)
  }

  lemma {:induction false} ReachConcat(s: System, a: seq<Event>, b: seq<Event>)
    ensures Reach(s, a + b) == Reach(Reach(s, a), b)
  {
    hide Advance;
    if b == [] {
      assert a + b == a;
    } else {
      var k := |b| - 1;
      ReachConcat(s, a, b[..k]);
      assert (a + b)[..|a + b| - 1] == a + b[..k];
    }
  }

  lemma {:induction false} ReachOne(s: System, event: Event)
    ensures Reach(s, [event]) == Advance(s, event)
  {
    hide Advance;
    assert [event][..0] == [];
  }

  /** The store holds these settings in version `n`. */
  predicate Stands(s: System, settings: Settings, n: nat) {
    Current(s.row) == Row(settings, n) && |s.history| == n && (n == 1 <==> s.row == None)
  }

  function Finishing(c: Id): seq<Event> {
    [Read(c)] + [Look(c)] + [Commit(c)]
  }

  lemma {:induction false} FinishingIsThree(s: System, c: Id)
    ensures Reach(s, Finishing(c)) == Advance(Advance(Advance(s, Read(c)), Look(c)), Commit(c))
  {
    hide Advance;
    ReachOne(s, Read(c));
    ReachOne(Advance(s, Read(c)), Look(c));
    ReachOne(Advance(Advance(s, Read(c)), Look(c)), Commit(c));
    ReachConcat(s, [Read(c)], [Look(c)]);
    ReachConcat(s, [Read(c)] + [Look(c)], [Commit(c)]);
  }

  /** A caller admitted for the current version succeeds if nobody interferes. */
  lemma {:induction false} FinishingSucceeds(s: System, c: Id, settings: Settings, desired: Settings)
    requires c in s.callers && s.callers[c].Admitted?
    requires Stands(s, settings, s.callers[c].expected) && s.callers[c].expected >= 1
    requires Apply(settings, s.callers[c].change) == Some(desired)
    ensures var t := Reach(s, Finishing(c));
            && Stands(t, desired, s.callers[c].expected + 1)
            && t.history == s.history + [desired] && t.callers == s.callers[c := Done(true)]
  {
    hide Apply;
    FinishingIsThree(s, c);
  }

  function Round(first: Event): seq<Event> {
    [first] + Finishing(first.caller)
  }

  /** One caller after the other, each resuming a group that is not paused. */
  function Resumes(count: nat, first: Id, version: nat): seq<Event> {
    if count == 0 then []
    else Resumes(count - 1, first, version) + Round(Start(first + count - 1, Resume, version + count - 1))
  }

  lemma {:induction false} RoundSucceeds(s: System, first: Event, settings: Settings, desired: Settings)
    requires first.Start? || first.Validate?
    requires first.caller !in s.callers && first.expected >= 1 && Stands(s, settings, first.expected)
    requires if first.Start? then !TouchesDigest(first.change) else Validates(settings, first.change)
    requires Apply(settings, first.change) == Some(desired)
    ensures var t := Reach(s, Round(first));
            Stands(t, desired, first.expected + 1) && t.callers == s.callers[first.caller := Done(true)]
  {
    hide Apply, Validates, TouchesDigest;
    RoundIsFour(s, first);
    FinishingSucceeds(Advance(s, first), first.caller, settings, desired);
    assert s.callers[first.caller := Admitted(first.change, first.expected)][first.caller := Done(true)]
        == s.callers[first.caller := Done(true)];
  }

  lemma {:induction false} ResumesSucceed(s: System, count: nat, first: Id, settings: Settings, version: nat)
    requires version >= 1 && Stands(s, settings, version) && !settings.paused && settings.pauseReason == None
    requires forall c :: c in s.callers ==> c < first
    ensures var t := Reach(s, Resumes(count, first, version));
            && Stands(t, settings, version + count)
            && (forall c :: c in t.callers ==> c in s.callers || first <= c < first + count)
            && (forall c :: c in s.callers ==> c in t.callers && t.callers[c] == s.callers[c])
  {
    hide Advance, Stands;
    if count > 0 {
      ResumesSucceed(s, count - 1, first, settings, version);
      var before := Resumes(count - 1, first, version);
      var round := Start(first + count - 1, Resume, version + count - 1);
      ReachConcat(s, before, Round(round));
      RoundSucceeds(Reach(s, before), round, settings, settings);
    }
  }

  lemma {:induction false} ResumesValidateNothing(count: nat, first: Id, version: nat)
    ensures forall i :: 0 <= i < |Resumes(count, first, version)| ==> !Resumes(count, first, version)[i].Validate?
  {
    if count > 0 {
      ResumesValidateNothing(count - 1, first, version);
    }
  }

  const LATER_ANCHOR := Update(Some(1389), None, None, None, None, false, map[])
  const EARLIER_CUTOFF := Update(None, None, Some(1380), None, None, false, map[])

  function AheadRun(v: nat, e: nat): seq<Event>
    requires 1 <= v < e
  {
    BeforeCutoff(v, e) + Round(Validate(v, EARLIER_CUTOFF, v)) + Resumes(e - v - 1, v + 1, v + 1)
    + Finishing(0)
  }

  function BeforeCutoff(v: nat, e: nat): seq<Event>
    requires v >= 1
  {
    Resumes(v - 1, 1, 1) + [Validate(0, LATER_ANCHOR, e)]
  }

  /** Up to the caller's validation, and just after it, version `v` is current. */
  lemma {:induction false} UpToValidation(v: nat, e: nat)
    requires 1 <= v < e
    ensures Stands(Reach(INITIAL, Resumes(v - 1, 1, 1)), DEFAULTS, v)
    ensures var s := Reach(INITIAL, BeforeCutoff(v, e));
            && Stands(s, DEFAULTS, v) && 0 in s.callers && s.callers[0] == Admitted(LATER_ANCHOR, e)
            && forall c :: c in s.callers ==> c < v
  {
    hide Advance, Reach, Stands;
    var a := Resumes(v - 1, 1, 1);
    InitialStands();
    ResumesSucceed(INITIAL, v - 1, 1, DEFAULTS, 1);
    var sa := Reach(INITIAL, a);
    ReachConcat(INITIAL, a, [Validate(0, LATER_ANCHOR, e)]);
    ReachOne(sa, Validate(0, LATER_ANCHOR, e));
    LaterAnchorIsAdmitted(sa, v, e);
  }

  /** A caller that names version `e` while only `v` exists can have its change validated against one policy and
      written over another: here a later anchor meets an earlier cutoff. */
  lemma {:induction false} AheadRunBreaks(v: nat, e: nat)
    requires 1 <= v < e
    ensures !DigestsValid(Reach(INITIAL, AheadRun(v, e)).history)
  {
    hide Advance, Reach, Stands, Resumes;
    var b := BeforeCutoff(v, e);
    var cutting := Validate(v, EARLIER_CUTOFF, v);
    var c := b + Round(cutting);
    var d := c + Resumes(e - v - 1, v + 1, v + 1);
    var cut := DEFAULTS.(digest := Digest(1350, 20, 1380));
    var broken := DEFAULTS.(digest := Digest(1389, 20, 1380));
    UpToValidation(v, e);
    EarlierCutoffIsValid();
    ReachConcat(INITIAL, b, Round(cutting));
    RoundSucceeds(Reach(INITIAL, b), cutting, DEFAULTS, cut);
    ReachConcat(INITIAL, c, Resumes(e - v - 1, v + 1, v + 1));
    ResumesSucceed(Reach(INITIAL, c), e - v - 1, v + 1, cut, v + 1);
    ReachConcat(INITIAL, d, Finishing(0));
    FinishingSucceeds(Reach(INITIAL, d), 0, cut, broken);
    var final := Reach(INITIAL, d + Finishing(0)).history;
    assert final[|final| - 1] == broken && !broken.digest.Valid();
  }

  lemma {:induction false} AheadRunIsOnlyAhead(v: nat, e: nat)
    requires 1 <= v < e
    ensures OnlyAhead(AheadRun(v, e), v, e)
  {
    hide Advance, Reach, Resumes;
    var a, b, all := Resumes(v - 1, 1, 1), BeforeCutoff(v, e), AheadRun(v, e);
    UpToValidation(v, e);
    ResumesValidateNothing(v - 1, 1, 1);
    ResumesValidateNothing(e - v - 1, v + 1, v + 1);
    assert all[..|a|] == a && all[..|b|] == b;
    forall i | 0 <= i < |all|
      ensures ReadEarlier(all, i) ||
              (all[i].Validate? && all[i].expected == e && |Reach(INITIAL, all[..i]).history| == v)
    {
      assert all[i].Validate? ==> i == |a| || i == |b|;
    }
  }

  lemma {:induction false} InitialStands()
    ensures Stands(INITIAL, DEFAULTS, 1)
  {
  }

  lemma {:induction false} LaterAnchorIsAdmitted(s: System, v: nat, e: nat)
    requires Stands(s, DEFAULTS, v) && 0 !in s.callers
    ensures var t := Advance(s, Validate(0, LATER_ANCHOR, e));
            Stands(t, DEFAULTS, v) && t.callers == s.callers[0 := Admitted(LATER_ANCHOR, e)]
  {
  }

  lemma {:induction false} EarlierCutoffIsValid()
    ensures Validates(DEFAULTS, EARLIER_CUTOFF)
    ensures Apply(DEFAULTS, EARLIER_CUTOFF) == Some(DEFAULTS.(digest := Digest(1350, 20, 1380)))
    ensures Apply(DEFAULTS.(digest := Digest(1350, 20, 1380)), LATER_ANCHOR)
         == Some(DEFAULTS.(digest := Digest(1389, 20, 1380)))
  {
  }

  /** Naming the version `e` in a change validated against version `v` is safe in every interleaving exactly when that
      version had been reached already. */
  lemma {:induction false} SafeIffReadEarlier(v: nat, e: nat)
    requires v >= 1
    ensures e <= v <==> forall events :: OnlyAhead(events, v, e) ==> DigestsValid(Reach(INITIAL, events).history)
  {
    hide Reach, DigestsValid;
    if e <= v {
      forall events | OnlyAhead(events, v, e)
        ensures DigestsValid(Reach(INITIAL, events).history)
      {
        assert forall i :: 0 <= i < |events| ==> ReadEarlier(events, i);
        DigestsStayValid(events);
      }
    } else {
      AheadRunBreaks(v, e);
      AheadRunIsOnlyAhead(v, e);
    }
  }

  // ---------------------------------------------------------------- the stored row

  datatype Outcome = Written(row: Row) | Conflict | HalfQuietHours

  class GroupRuntimeSettings {
    var row: Option<Row>
    /** All transactions of all callers so far. */
    ghost var events: seq<Event>

    /** The stored row is that of the run. */
    ghost predicate Valid()
      reads this
    {
      row == System().row && OneLine(System()) && AllRemember(System())
    }

    ghost function System(): System
      reads this
    {
      Reach(INITIAL, events)
    }

    constructor ()
      ensures Valid() && events == []
    {
      row, events := None, [];
      new;
      NobodyYet();
    }

    ghost method Log(event: Event)
      requires OneLine(System()) && AllRemember(System()) && row == Advance(System(), event).row
      modifies this`events
      ensures Valid() && events == old(events) + [event] && System() == Advance(old(System()), event)
    {
      hide Advance, OneLine, AllRemember;
      AdvanceKeepsLine(System(), event);
      events := events + [event];
      assert events[..|events| - 1] == old(events);
    }

    method GetPolicy() returns (policy: Row)
      ensures policy == Current(row)
    {
      policy := if row == None then Row(DEFAULTS, 1) else row.value;
    }

    /** The administrator's update begins: the change is validated against the policy of this moment. */
    method AdmitValidated(caller: Id, change: Change, expected: nat) returns (admitted: bool)
      requires Valid() && caller !in System().callers
      modifies this`events
      ensures Valid() && System() == Advance(old(System()), Validate(caller, change, expected))
      ensures events == old(events) + [Validate(caller, change, expected)]
      ensures admitted <==> Validates(Current(row).settings, change)
    {
      hide Validates, OneLine, AllRemember;
      var current := GetPolicy();
      Log(Validate(caller, change, expected));
      return Validates(current.settings, change);
    }

    /** Any other update begins; it leaves the digest alone. */
    method Admit(caller: Id, change: Change, expected: nat)
      requires Valid() && caller !in System().callers && !TouchesDigest(change)
      modifies this`events
      ensures Valid() && System() == Advance(old(System()), Start(caller, change, expected))
      ensures events == old(events) + [Start(caller, change, expected)]
    {
      hide TouchesDigest, OneLine, AllRemember;
      Log(Start(caller, change, expected));
    }

    /** The first transaction of an update. */
    method ReadCurrent(caller: Id) returns (snapshot: Row)
      requires Valid() && caller in System().callers && System().callers[caller].Admitted?
      modifies this`events
      ensures Valid() && System() == Advance(old(System()), Read(caller)) && events == old(events) + [Read(caller)]
      ensures snapshot == Current(row)
    {
      hide OneLine, AllRemember;
      snapshot := GetPolicy();
      Log(Read(caller));
    }

    /** The change is applied to what was read, the version is compared, and the row is looked for. */
    method LookForRow(caller: Id, change: Change, expected: nat, snapshot: Row)
      returns (desired: Option<Settings>, refused: bool, sawRow: bool)
      requires Valid() && caller in System().callers
      requires System().callers[caller] == HasRead(change, expected, snapshot)
      modifies this`events
      ensures Valid() && System() == Advance(old(System()), Look(caller)) && events == old(events) + [Look(caller)]
      ensures desired == Apply(snapshot.settings, change) && sawRow == row.Some?
      ensures refused <==> desired == None || expected != snapshot.version
    {
      hide Apply, OneLine, AllRemember;
      desired := Apply(snapshot.settings, change);
      refused, sawRow := desired == None || expected != snapshot.version, row.Some?;
      Log(Look(caller));
    }

    /** The last transaction of an update: a conditional insert or a conditional update. */
    method CommitWrite(caller: Id, change: Change, desired: Settings, expected: nat, sawRow: bool)
      returns (accepted: bool)
      requires Valid() && caller in System().callers
      requires System().callers[caller] == HasLooked(change, expected, desired, sawRow)
      modifies this
      ensures Valid() && System() == Advance(old(System()), Commit(caller)) && events == old(events) + [Commit(caller)]
      ensures accepted == Commits(old(row), sawRow, expected)
      ensures row == if accepted then Some(Row(desired, expected + 1)) else old(row)
    {
      hide OneLine, AllRemember;
      if !sawRow {
        // The insert fails on the primary key if somebody else has inserted the row since.
        accepted := expected == 1 && row == None;
      } else {
        accepted := row.Some? && row.value.version == expected;
      }
      if accepted {
        row := Some(Row(desired, expected + 1));
      }
      Log(Commit(caller));
    }

    /** An update that nobody interrupts is the caller's three transactions, and succeeds exactly when the expected
        version is the current one and the quiet hours are given whole. */
    method UpdatePolicy(caller: Id, change: Change, expected: nat) returns (outcome: Outcome)
      requires Valid() && caller in System().callers && System().callers[caller] == Admitted(change, expected)
      modifies this
      ensures Valid() && System() == Reach(old(System()), Finishing(caller))
      ensures outcome == HalfQuietHours <==> Apply(Current(old(row)).settings, change) == None
      ensures outcome.Written? <==>
              Apply(Current(old(row)).settings, change).Some? && expected == Current(old(row)).version
      ensures outcome.Written? ==>
                && row == Some(outcome.row)
                && outcome.row == Row(Apply(Current(old(row)).settings, change).value, expected + 1)
                && IsChanged(Current(old(row)).settings, change, outcome.row.settings)
      ensures !outcome.Written? ==> row == old(row)
    {
      hide Apply, OneLine, AllRemember, Reach, IsChanged;
      ChangesAreApplied(Current(row).settings, change);
      FinishingIsThree(System(), caller);
      CurrentIsCounted(System());
      var snapshot := ReadCurrent(caller);
      var desired, refused, sawRow := LookForRow(caller, change, expected, snapshot);
      if refused {
        CommitOfNobody(System(), caller);
        return if desired == None then HalfQuietHours else Conflict;
      }
      var accepted := CommitWrite(caller, change, desired.value, expected, sawRow);
      return if accepted then Written(Row(desired.value, expected + 1)) else Conflict;
    }

    /** Pauses the group, or refuses if the expected version is not the current one. */
    method PauseGroup(caller: Id, reason: string, expected: nat) returns (outcome: Outcome)
      requires Valid() && caller !in System().callers
      modifies this
      ensures Valid() && System() == Reach(old(System()), Round(Start(caller, Pause(reason), expected)))
      ensures outcome.Written? <==> expected == Current(old(row)).version
      ensures outcome.Written? ==>
                row == Some(outcome.row) && outcome.row.version == expected + 1
                && IsChanged(Current(old(row)).settings, Pause(reason), outcome.row.settings)
      ensures !outcome.Written? ==> outcome == Conflict && row == old(row)
    {
      hide OneLine, AllRemember, Reach;
      RoundIsFour(System(), Start(caller, Pause(reason), expected));
      Admit(caller, Pause(reason), expected);
      outcome := UpdatePolicy(caller, Pause(reason), expected);
    }

    method ResumeGroup(caller: Id, expected: nat) returns (outcome: Outcome)
      requires Valid() && caller !in System().callers
      modifies this
      ensures Valid() && System() == Reach(old(System()), Round(Start(caller, Resume, expected)))
      ensures outcome.Written? <==> expected == Current(old(row)).version
      ensures outcome.Written? ==>
                row == Some(outcome.row) && outcome.row.version == expected + 1
                && IsChanged(Current(old(row)).settings, Resume, outcome.row.settings)
      ensures !outcome.Written? ==> outcome == Conflict && row == old(row)
    {
      hide OneLine, AllRemember, Reach;
      RoundIsFour(System(), Start(caller, Resume, expected));
      Admit(caller, Resume, expected);
      outcome := UpdatePolicy(caller, Resume, expected);
    }
  }

  lemma {:induction false} RoundIsFour(s: System, first: Event)
    ensures Reach(s, Round(first)) == Reach(Advance(s, first), Finishing(first.caller))
  {
    hide Advance;
    ReachOne(s, first);
    ReachConcat(s, [first], Finishing(first.caller));
  }

  /** The stored row is in the version that counts the contents so far. */
  lemma {:induction false} CurrentIsCounted(s: System)
    requires OneLine(s)
    ensures Current(s.row).version == |s.history| >= 1
    ensures s.row == None ==> Current(s.row).version == 1
  {
  }

  /** A caller that was refused has nothing to commit. */
  lemma {:induction false} CommitOfNobody(s: System, c: Id)
    requires c in s.callers && s.callers[c].Done?
    ensures Advance(s, Commit(c)) == s
  {
  }
}
