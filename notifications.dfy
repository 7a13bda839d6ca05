/** The `notifications` table and the `Notification` model over it. */
module NotificationModel {
  import opened Wrappers
  import opened Seqs

  /** One row of `notifications`; `kind` is the `type` column. */
  datatype Notification = Notification(
    id: nat,
    userId: UserId,
    kind: string,
    message: string,
    eventId: Option<nat>,
    isRead: bool,
    createdAt: Time,
    updatedAt: Time)

  predicate OwnedBy(n: Notification, u: UserId) { n.userId == u }

  predicate UnreadOf(n: Notification, u: UserId) { n.userId == u && !n.isRead }

  /** Newest first: `ORDER BY created_at DESC` is ascending order of the negated time. */
  function NewestFirst(n: Notification): real { -(n.createdAt as real) }

  const DefaultLimit := 50
  const DefaultOffset := 0

  /** The user's rows in `ORDER BY created_at DESC` order. */
  function Inbox(rows: seq<Notification>, u: UserId): seq<Notification> {
    SortBy(Filter(rows, (n: Notification) => OwnedBy(n, u)), NewestFirst)
  }

  predicate NewestFirstOrder(s: seq<Notification>) {
    forall i, j :: 0 <= i < j < |s| ==> s[i].createdAt >= s[j].createdAt
  }

  predicate AllOwned(s: seq<Notification>, rows: seq<Notification>, u: UserId) {
    forall n :: n in s ==> n in rows && OwnedBy(n, u)
  }

  /** The inbox holds every row of the user, only theirs, newest first. */
  lemma InboxSorted(rows: seq<Notification>, u: UserId)
    ensures multiset(Inbox(rows, u)) == multiset(Filter(rows, (n: Notification) => OwnedBy(n, u)))
    ensures |Inbox(rows, u)| == |Filter(rows, (n: Notification) => OwnedBy(n, u))|
    ensures AllOwned(Inbox(rows, u), rows, u)
    ensures NewestFirstOrder(Inbox(rows, u))
  {
    var mine := Filter(rows, (n: Notification) => OwnedBy(n, u));
    SortByCorrect(mine, NewestFirst);
    SortByMembers(mine, NewestFirst);
    var s := Inbox(rows, u);
    forall i, j | 0 <= i < j < |s| ensures s[i].createdAt >= s[j].createdAt {
      assert NewestFirst(s[i]) <= NewestFirst(s[j]);
    }
  }

  /** A page of the inbox keeps its order and its membership. */
  lemma InboxPage(s: seq<Notification>, rows: seq<Notification>, u: UserId, limit: int, offset: int)
    requires AllOwned(s, rows, u) && NewestFirstOrder(s) && Page(s, limit, offset).Ok?
    ensures AllOwned(Page(s, limit, offset).value, rows, u)
    ensures NewestFirstOrder(Page(s, limit, offset).value)
  {
    var p := Page(s, limit, offset).value;
    forall i, j | 0 <= i < j < |p| ensures p[i].createdAt >= p[j].createdAt {
      assert p[i] == s[offset + i] && p[j] == s[offset + j];
    }
    forall x | x in p ensures x in rows && OwnedBy(x, u) {
      var i :| 0 <= i < |p| && p[i] == x;
      assert s[offset + i] == x;
    }
  }

  /** `getByUserId(userId, limit = 50, offset = 0)`. */
  function GetByUserId(rows: seq<Notification>, u: UserId, limit: int := DefaultLimit, offset: int := DefaultOffset)
    : (r: Result<seq<Notification>>)
    ensures r.Err? <==> limit < 0 || offset < 0
    ensures r.Ok? ==> forall n :: n in r.value ==> n in rows && OwnedBy(n, u)
    ensures r.Ok? ==> forall i, j :: 0 <= i < j < |r.value| ==> r.value[i].createdAt >= r.value[j].createdAt
    ensures r.Ok? ==> |r.value| == Min(limit, Max(0, |Filter(rows, (n: Notification) => OwnedBy(n, u))| - offset))
    ensures r.Ok? ==> forall i {:trigger r.value[i]} :: 0 <= i < |r.value| ==> offset + i < |Inbox(rows, u)| && r.value[i] == Inbox(rows, u)[offset + i]
  {
    InboxSorted(rows, u);
    var page := Page(Inbox(rows, u), limit, offset);
    if page.Ok? then
      InboxPage(Inbox(rows, u), rows, u, limit, offset);
      page
    else page
  }

  /** A page of the user's notifications is that page of their inbox. */
  lemma InboxPageOf(rows: seq<Notification>, u: UserId, limit: int, offset: int)
    ensures GetByUserId(rows, u, limit, offset) == Page(Inbox(rows, u), limit, offset)
  {
  }

  /** `getUnreadCount`: the user's rows with `is_read = false`. */
  function GetUnreadCount(rows: seq<Notification>, u: UserId): (n: nat)
    ensures n <= |rows|
    ensures n == 0 <==> forall x :: x in rows && OwnedBy(x, u) ==> x.isRead
  {
    var unread := Filter(rows, (x: Notification) => UnreadOf(x, u));
    assert unread != [] ==> unread[0] in unread;
    |unread|
  }

  /** The row after `SET is_read = true, updated_at = NOW()`. */
  function MarkedRead(n: Notification, now: Time): Notification {
    n.(isRead := true, updatedAt := now)
  }

  /** The table after `markAllAsRead(u)`: each unread row of `u` is marked, every other row is as it was. */
  function MarkAll(rows: seq<Notification>, u: UserId, now: Time): (r: seq<Notification>)
    ensures |r| == |rows|
    ensures forall i :: 0 <= i < |rows| ==> r[i] == (if UnreadOf(rows[i], u) then MarkedRead(rows[i], now) else rows[i])
  {
    Map(rows, (n: Notification) => if UnreadOf(n, u) then MarkedRead(n, now) else n)
  }

  /** After marking all as read the user has no unread notification left. */
  lemma {:induction false} MarkAllClearsUnread(rows: seq<Notification>, u: UserId, now: Time)
    ensures GetUnreadCount(MarkAll(rows, u, now), u) == 0
  {
    var after := MarkAll(rows, u, now);
    forall x | x in after && OwnedBy(x, u) ensures x.isRead {
      var i :| 0 <= i < |after| && after[i] == x;
    }
  }

  /** Marking all as read changes no other user's unread count. */
  lemma MarkAllKeepsOthers(rows: seq<Notification>, u: UserId, v: UserId, now: Time)
    requires u != v
    ensures GetUnreadCount(MarkAll(rows, u, now), v) == GetUnreadCount(rows, v)
  {
    var mark := (n: Notification) => if UnreadOf(n, u) then MarkedRead(n, now) else n;
    var unread := (x: Notification) => UnreadOf(x, v);
    assert MarkAll(rows, u, now) == Map(rows, mark);
    FilterMapLength(rows, mark, unread, unread);
  }

  /** The positions of the user's unread rows. */
  function UnreadIndices(rows: seq<Notification>, u: UserId): set<nat> {
    set i: nat | i < |rows| && UnreadOf(rows[i], u)
  }

  /** Appending a row adds its position to the unread positions exactly when it is unread. */
  lemma UnreadIndicesSnoc(init: seq<Notification>, last: Notification, u: UserId)
    ensures UnreadIndices(init + [last], u) == UnreadIndices(init, u) + (if UnreadOf(last, u) then {|init|} else {})
  {
    var rows := init + [last];
    forall i: nat | i < |init| ensures rows[i] == init[i] { }
  }

  /** The unread count is the number of the user's rows with `is_read = false`. */
  lemma {:induction false} UnreadCountCountsRows(rows: seq<Notification>, u: UserId)
    ensures GetUnreadCount(rows, u) == |UnreadIndices(rows, u)|
    decreases |rows|
  {
    if rows != [] {
      var init := rows[..|rows| - 1];
      var last := rows[|rows| - 1];
      var unread := (x: Notification) => UnreadOf(x, u);
      assert rows == init + [last];
      FilterAppend(init, [last], unread);
      UnreadCountCountsRows(init, u);
      UnreadIndicesSnoc(init, last, u);
      var here: set<nat> := if UnreadOf(last, u) then {|init|} else {};
      assert |init| !in UnreadIndices(init, u);
      assert |UnreadIndices(rows, u)| == |UnreadIndices(init, u)| + |here|;
    }
  }

  /** The first index holding a row with this id and owner. */
  function IndexOfOwned(rows: seq<Notification>, id: int, u: UserId): (k: Option<nat>)
    ensures k.Some? ==> k.value < |rows| && rows[k.value].id == id && rows[k.value].userId == u
    ensures k.None? ==> forall n :: n in rows ==> !(n.id == id && n.userId == u)
  {
    if rows == [] then None
    else if rows[0].id == id && rows[0].userId == u then Some(0)
    else match IndexOfOwned(rows[1..], id, u)
      case None => None
      case Some(k) => Some(k + 1)
  }

  /** Primary keys are positive, increase in insertion order and stay below the sequence. */
  ghost predicate TableInvariant(rows: seq<Notification>, nextId: nat) {
    && nextId >= 1
    && (forall i :: 0 <= i < |rows| ==> 1 <= rows[i].id < nextId)
    && (forall i, j :: 0 <= i < j < |rows| ==> rows[i].id < rows[j].id)
  }

  /** Rows changed in place, keeping their ids, keep the invariant. */
  lemma SameIdsKeepInvariant(rows: seq<Notification>, rows': seq<Notification>, nextId: nat)
    requires TableInvariant(rows, nextId) && |rows'| == |rows|
    requires forall i :: 0 <= i < |rows| ==> rows'[i].id == rows[i].id
    ensures TableInvariant(rows', nextId)
  {
  }

  /** Removing a row keeps the invariant. */
  lemma RemoveKeepsInvariant(rows: seq<Notification>, nextId: nat, k: nat)
    requires TableInvariant(rows, nextId) && k < |rows|
    ensures TableInvariant(rows[..k] + rows[k + 1..], nextId)
  {
    var rest := rows[..k] + rows[k + 1..];
    forall i | 0 <= i < |rest| ensures rest[i] == rows[if i < k then i else i + 1] {
    }
  }

  /** The `notifications` table and its SERIAL primary-key sequence. */
  class NotificationTable {
    var rows: seq<Notification>
    var nextId: nat

    ghost predicate Valid()
      reads this
    {
      TableInvariant(rows, nextId)
    }

    constructor ()
      ensures Valid() && rows == [] && nextId == 1
    {
      rows := [];
      nextId := 1;
    }

    /** `create({userId, type, message, eventId = null, isRead = false})`. */
    method Create(u: UserId, kind: string, message: string, now: Time,
                  eventId: Option<nat> := None, isRead: bool := false) returns (n: Notification)
      requires Valid()
      modifies this
      ensures Valid() && nextId == old(nextId) + 1
      ensures n == Notification(old(nextId), u, kind, message, eventId, isRead, now, now)
      ensures rows == old(rows) + [n]
    {
      n := Notification(nextId, u, kind, message, eventId, isRead, now, now);
      rows := rows + [n];
      nextId := nextId + 1;
    }

    /**
     * An insert whose foreign-key check fails: `nextval` for the SERIAL key has
     * already run, so the sequence moves on although no row is written.
     */
    method Reject()
      requires Valid()
      modifies this
      ensures Valid() && rows == old(rows) && nextId == old(nextId) + 1
    {
      nextId := nextId + 1;
    }

    /** `markAsRead(id, userId)`: marks the row only when both id and owner match. */
    method MarkAsRead(id: int, u: UserId, now: Time) returns (r: Option<Notification>)
      requires Valid()
      modifies this
      ensures Valid() && nextId == old(nextId)
      ensures r.None? <==> IndexOfOwned(old(rows), id, u).None?
      ensures r.None? ==> rows == old(rows)
      ensures r.Some? ==>
        var k := IndexOfOwned(old(rows), id, u).value;
        && rows == old(rows)[k := MarkedRead(old(rows)[k], now)]
        && r.value == rows[k] && r.value.isRead && r.value.userId == u && r.value.id == id
    {
      var k := IndexOfOwned(rows, id, u);
      if k.None? {
        return None;
      }
      SameIdsKeepInvariant(rows, rows[k.value := MarkedRead(rows[k.value], now)], nextId);
      rows := rows[k.value := MarkedRead(rows[k.value], now)];
      r := Some(rows[k.value]);
    }

    /** `markAllAsRead(userId)`: returns the rows it changed, as they are afterwards. */
    method MarkAllAsRead(u: UserId, now: Time) returns (changed: seq<Notification>)
      requires Valid()
      modifies this
      ensures Valid() && nextId == old(nextId)
      ensures rows == MarkAll(old(rows), u, now)
      ensures changed == Map(Filter(old(rows), (n: Notification) => UnreadOf(n, u)), (n: Notification) => MarkedRead(n, now))
      ensures |changed| == old(GetUnreadCount(rows, u))
    {
      changed := Map(Filter(rows, (n: Notification) => UnreadOf(n, u)), (n: Notification) => MarkedRead(n, now));
      SameIdsKeepInvariant(rows, MarkAll(rows, u, now), nextId);
      rows := MarkAll(rows, u, now);
    }

    /** `delete(id, userId)`: removes the row only when both id and owner match. */
    method Delete(id: int, u: UserId) returns (r: Option<Notification>)
      requires Valid()
      modifies this
      ensures Valid() && nextId == old(nextId)
      ensures r.None? <==> IndexOfOwned(old(rows), id, u).None?
      ensures r.None? ==> rows == old(rows)
      ensures r.Some? ==>
        var k := IndexOfOwned(old(rows), id, u).value;
        r.value == old(rows)[k] && rows == old(rows)[..k] + old(rows)[k + 1..]
    {
      var k := IndexOfOwned(rows, id, u);
      if k.None? {
        return None;
      }
      r := Some(rows[k.value]);
      RemoveKeepsInvariant(rows, nextId, k.value);
      rows := rows[..k.value] + rows[k.value + 1..];
    }
  }

  /** Marking a notification read again keeps it read and changes nothing but its timestamp. */
  lemma MarkAsReadAgain(rows: seq<Notification>, id: int, u: UserId, t1: Time, t2: Time)
    requires IndexOfOwned(rows, id, u).Some?
    ensures var k := IndexOfOwned(rows, id, u).value;
      var once := rows[k := MarkedRead(rows[k], t1)];
      && IndexOfOwned(once, id, u) == Some(k)
      && once[k := MarkedRead(once[k], t2)] == rows[k := MarkedRead(rows[k], t2)]
      && once[k].isRead
  {
    var k := IndexOfOwned(rows, id, u).value;
    var once := rows[k := MarkedRead(rows[k], t1)];
    IndexOfOwnedPrefix(rows, once, id, u, k);
  }

  /** Changing only the found row, keeping its id and owner, keeps the lookup where it was. */
  lemma {:induction false} IndexOfOwnedPrefix(rows: seq<Notification>, rows': seq<Notification>, id: int, u: UserId, k: nat)
    requires IndexOfOwned(rows, id, u) == Some(k) && |rows'| == |rows|
    requires forall i :: 0 <= i < |rows| && i != k ==> rows'[i] == rows[i]
    requires rows'[k].id == id && rows'[k].userId == u
    ensures IndexOfOwned(rows', id, u) == Some(k)
    decreases |rows|
  {
    if k > 0 {
      assert !(rows[0].id == id && rows[0].userId == u);
      IndexOfOwnedPrefix(rows[1..], rows'[1..], id, u, k - 1);
    }
  }
}
