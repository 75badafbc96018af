/** The message origin stored for a chat group: the one of the newest event that carries an origin. */
module GroupOrigin {
  import opened Options

  /** A group event; an event whose origin is missing or empty only refreshes the row. */
  datatype GroupEvent = GroupEvent(origin: Option<string>, at: int)

  predicate Carries(event: GroupEvent) {
    event.origin.Some? && event.origin.value != ""
  }

  datatype Group = Group(origin: Option<string>, refreshedAt: Option<int>, updatedAt: int)

  class ChatGroupRow {
    var row: Option<Group>
    /** All events so far, in order of arrival. */
    ghost var events: seq<GroupEvent>

    ghost predicate Valid()
      reads this
    {
      && (row == None <==> events == [])
      && (row.Some? ==>
            && IsNewestOrigin(events, row.value.origin, row.value.refreshedAt)
            && row.value.updatedAt == events[|events| - 1].at)
    }

    constructor ()
      ensures Valid() && events == []
    {
      row, events := None, [];
    }

    method UpsertGroup(event: GroupEvent)
      modifies this
      requires Valid()
      ensures Valid() && events == old(events) + [event]
      // A missing or empty origin never replaces a stored one.
      ensures old(row).Some? && (event.origin == None || event.origin == Some("")) ==>
                row == Some(old(row).value.(updatedAt := event.at))
    {
      hide IsNewestOrigin;
      NoOriginYet();
      NewestGrows(events, if row.Some? then row.value.origin else None,
                  if row.Some? then row.value.refreshedAt else None, event);
      events := events + [event];
      if row == None {
        row := Some(Group(event.origin, if Carries(event) then Some(event.at) else None, event.at));
        return;
      }
      var existing := row.value.(updatedAt := event.at);
      if Carries(event) && (existing.refreshedAt == None || event.at >= existing.refreshedAt.value) {
        existing := existing.(origin := event.origin, refreshedAt := Some(event.at));
      }
      row := Some(existing);
    }
  }

  /** No event with an origin is newer than event `i`, and none that came later is as new. */
  ghost predicate Wins(events: seq<GroupEvent>, i: int) {
    && 0 <= i < |events| && Carries(events[i])
    && (forall j :: 0 <= j < |events| && Carries(events[j]) ==> events[j].at <= events[i].at)
    && (forall j :: i < j < |events| && Carries(events[j]) ==> events[j].at < events[i].at)
  }

  /** The register's meaning: the origin and the instant of the winning event; until an event carries an origin, what
      the first one had in its place. */
  ghost predicate IsNewestOrigin(events: seq<GroupEvent>, origin: Option<string>, refreshedAt: Option<int>) {
    match refreshedAt
    case None =>
      && (forall i :: 0 <= i < |events| ==> !Carries(events[i]))
      && origin == if events == [] then None else events[0].origin
    case Some(t) => exists i :: Wins(events, i) && events[i] == GroupEvent(origin, t)
  }

  lemma {:induction false} NoOriginYet()
    ensures IsNewestOrigin([], None, None)
  {
  }

  lemma {:induction false} NewestGrows(events: seq<GroupEvent>, origin: Option<string>, refreshedAt: Option<int>,
                                       event: GroupEvent)
    requires IsNewestOrigin(events, origin, refreshedAt)
    ensures var replaced := Carries(event) && (refreshedAt == None || event.at >= refreshedAt.value);
            IsNewestOrigin(events + [event], if replaced || events == [] then event.origin else origin,
                           if replaced then Some(event.at) else refreshedAt)
  {
    var more := events + [event];
    if Carries(event) && (refreshedAt == None || event.at >= refreshedAt.value) {
      assert Wins(more, |events|) && more[|events|] == event;
    } else if refreshedAt.Some? {
      var i :| Wins(events, i) && events[i] == GroupEvent(origin, refreshedAt.value);
      assert Wins(more, i) && more[i] == events[i];
    }
  }

  lemma {:induction false} KnownOnceSomeEventHasAnOrigin(events: seq<GroupEvent>, origin: Option<string>,
                                                         refreshedAt: Option<int>)
    requires IsNewestOrigin(events, origin, refreshedAt)
    ensures refreshedAt.Some? <==> exists e :: e in events && Carries(e)
  {
    if refreshedAt.Some? {
      var i :| Wins(events, i) && events[i] == GroupEvent(origin, refreshedAt.value);
      assert events[i] in events;
    }
  }

  /** With distinct timestamps the register depends only on which events arrived. */
  lemma {:induction false} SetOfEventsDecides(a: seq<GroupEvent>, b: seq<GroupEvent>,
                                              originA: Option<string>, refreshedA: Option<int>,
                                              originB: Option<string>, refreshedB: Option<int>)
    requires forall e :: e in a <==> e in b
    requires forall i, j :: 0 <= i < j < |a| ==> a[i].at != a[j].at
    requires IsNewestOrigin(a, originA, refreshedA) && IsNewestOrigin(b, originB, refreshedB)
    ensures refreshedA == refreshedB && (refreshedA.Some? ==> originA == originB)
  {
    KnownOnceSomeEventHasAnOrigin(a, originA, refreshedA);
    KnownOnceSomeEventHasAnOrigin(b, originB, refreshedB);
    if refreshedA.Some? && refreshedB.Some? {
      var i :| Wins(a, i) && a[i] == GroupEvent(originA, refreshedA.value);
      var j :| Wins(b, j) && b[j] == GroupEvent(originB, refreshedB.value);
      assert a[i] in b && b[j] in a;
      var k :| 0 <= k < |b| && b[k] == a[i];
      var m :| 0 <= m < |a| && a[m] == b[j];
      assert m == i;
    }
  }

  /** With distinct timestamps the register does not depend on the order in which the events arrive. */
  lemma {:induction false} OrderDoesNotMatter(a: seq<GroupEvent>, b: seq<GroupEvent>,
                                              originA: Option<string>, refreshedA: Option<int>,
                                              originB: Option<string>, refreshedB: Option<int>)
    requires multiset(a) == multiset(b)
    requires forall i, j :: 0 <= i < j < |a| ==> a[i].at != a[j].at
    requires IsNewestOrigin(a, originA, refreshedA) && IsNewestOrigin(b, originB, refreshedB)
    ensures refreshedA == refreshedB && (refreshedA.Some? ==> originA == originB)
  {
    hide IsNewestOrigin;
    forall e
      ensures e in a <==> e in b
    {
      assert e in a <==> e in multiset(a);
      assert e in b <==> e in multiset(b);
    }
    SetOfEventsDecides(a, b, originA, refreshedA, originB, refreshedB);
  }

  /** Two events at one instant can leave either origin, so distinct timestamps are needed. */
  lemma {:induction false} TiesDependOnOrder(x: GroupEvent, y: GroupEvent)
    requires Carries(x) && Carries(y) && x.at == y.at
    ensures IsNewestOrigin([x, y], y.origin, Some(y.at)) && IsNewestOrigin([y, x], x.origin, Some(x.at))
  {
    assert Wins([x, y], 1) && Wins([y, x], 1);
    assert [x, y][1] == y && [y, x][1] == x;
  }
}
