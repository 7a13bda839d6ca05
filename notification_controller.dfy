/**
 * `NotificationController`: the HTTP handlers for the current user's
 * notifications. Errors raised by the model are handed on to `next`, that
 * is, to the error handler.
 */
module NotificationController {
  import opened Wrappers
  import opened Strings
  import opened Seqs
  import opened NotificationModel
  import NotificationService
  import opened Redis

  const DefaultPage := 1
  const DefaultPageSize := 10

  /** `parseInt(text) || fallback`: NaN and 0 are falsy. */
  function ParsedOr(text: Option<string>, fallback: int): (r: int)
    ensures r != 0 || fallback == 0
    ensures text.None? ==> r == fallback
    ensures r != fallback ==> text.Some? && ParseInt(text.value) == Some(r)
  {
    var v := if text.Some? then ParseInt(text.value) else None;
    if v.None? || v.value == 0 then fallback else v.value
  }

  /** `parseInt(req.query.page) || 1`. */
  function PageNumber(text: Option<string>): (r: int)
    ensures r != 0
  {
    ParsedOr(text, DefaultPage)
  }

  /** `parseInt(req.query.limit) || 10`. */
  function PageSize(text: Option<string>): (r: int)
    ensures r != 0
  {
    ParsedOr(text, DefaultPageSize)
  }

  /** The rows page `page` skips: none on the first page, never a negative number for a page and size of at least 1. */
  function Offset(page: int, limit: int): (r: int)
    ensures page == 1 ==> r == 0
    ensures page >= 1 && limit >= 1 ==> r >= 0
  {
    (page - 1) * limit
  }

  /** Neither the page nor the page size is ever 0, and a positive number written out is taken as it is. */
  lemma PaginationDefaults(pageText: Option<string>, limitText: Option<string>, n: nat)
    ensures PageNumber(pageText) != 0 && PageSize(limitText) != 0
    ensures pageText.None? ==> PageNumber(pageText) == 1 && Offset(PageNumber(pageText), PageSize(limitText)) == 0
    ensures limitText.None? ==> PageSize(limitText) == 10
    ensures n > 0 ==> PageNumber(Some(NatToString(n))) == n && PageSize(Some(NatToString(n))) == n
  {
    ParseIntOfNat(n);
  }

  datatype Pagination = Pagination(page: int, limit: int, hasMore: bool)

  /** The `data` of a response. */
  datatype Data =
    | Listing(notifications: seq<Notification>, unreadCount: nat, pagination: Pagination)
    | One(notification: Notification)

  /** A status code, the translated message and the data. */
  datatype Reply = Reply(status: int, message: string, data: Option<Data>)

  /**
   * `getNotifications`: the requested page of the caller's notifications,
   * newest first, with the unread count; a negative page or size is
   * rejected by the database and handed on.
   */
  function GetNotifications(rows: seq<Notification>, u: UserId, pageText: Option<string>, limitText: Option<string>)
    : (r: Result<Reply>)
    ensures var page := PageNumber(pageText);
      var limit := PageSize(limitText);
      r.Err? <==> limit < 0 || Offset(page, limit) < 0
    ensures r.Ok? ==>
      && r.value.status == 200 && r.value.data.Some? && r.value.data.value.Listing?
      && var d := r.value.data.value;
      && (forall n :: n in d.notifications ==> n in rows && n.userId == u)
      && (forall i, j :: 0 <= i < j < |d.notifications| ==> d.notifications[i].createdAt >= d.notifications[j].createdAt)
      && |d.notifications| <= PageSize(limitText)
      && d.unreadCount == GetUnreadCount(rows, u)
      && d.pagination == Pagination(PageNumber(pageText), PageSize(limitText), |d.notifications| == PageSize(limitText))
    ensures r.Ok? ==>
      && r.value.data.Some? && r.value.data.value.Listing?
      && r.value.data.value.notifications == Page(Inbox(rows, u), PageSize(limitText), Offset(PageNumber(pageText), PageSize(limitText))).value
  {
    var page := PageNumber(pageText);
    var limit := PageSize(limitText);
    match GetByUserId(rows, u, limit, Offset(page, limit))
    case Err(m) => Err(m)
    case Ok(notes) =>
      Ok(Reply(200, "", Some(Listing(notes, GetUnreadCount(rows, u), Pagination(page, limit, |notes| == limit)))))
  }

  /** The number of the caller's notifications. */
  function OwnedCount(rows: seq<Notification>, u: UserId): nat {
    |Filter(rows, (n: Notification) => OwnedBy(n, u))|
  }

  /** When `hasMore` is false there is nothing after this page. */
  lemma NoMoreMeansLastPage(rows: seq<Notification>, u: UserId, pageText: Option<string>, limitText: Option<string>)
    requires GetNotifications(rows, u, pageText, limitText).Ok?
    ensures var d := GetNotifications(rows, u, pageText, limitText).value.data.value;
      !d.pagination.hasMore ==>
        Offset(d.pagination.page, d.pagination.limit) + |d.notifications| >= OwnedCount(rows, u)
  {
    var page := PageNumber(pageText);
    var limit := PageSize(limitText);
    assert GetByUserId(rows, u, limit, Offset(page, limit)).Ok?;
  }

  /** `hasMore` can be true on the last page: a user with exactly one page of notifications is told there is more. */
  lemma FullLastPageClaimsMore(rows: seq<Notification>, u: UserId)
    requires OwnedCount(rows, u) == DefaultPageSize
    ensures GetNotifications(rows, u, None, None).Ok?
    ensures GetNotifications(rows, u, None, None).value.data.value.pagination.hasMore
    ensures GetNotifications(rows, u, Some("2"), None).Ok?
    ensures GetNotifications(rows, u, Some("2"), None).value.data.value.notifications == []
  {
    PageTwo();
    var first := GetByUserId(rows, u, 10, 0);
    var second := GetByUserId(rows, u, 10, 10);
    assert |first.value| == 10;
    assert |second.value| == 0;
  }

  lemma PageTwo()
    ensures PageNumber(Some("2")) == 2
  {
    ParseIntOfNat(2);
    assert NatToString(2) == "2";
  }

  /** Each page starts where the one before it ends. */
  lemma OffsetStep(page: nat, limit: nat)
    requires page >= 1
    ensures Offset(page, limit) >= 0 && Offset(page + 1, limit) == Offset(page, limit) + limit
  {
  }

  /** Page `p + 1` starts where page `p` ends: the two together are one page twice as long. */
  lemma ConsecutivePages(rows: seq<Notification>, u: UserId, page: nat, limit: nat)
    requires page >= 1 && limit >= 1
    ensures var first := GetByUserId(rows, u, limit, Offset(page, limit));
      var second := GetByUserId(rows, u, limit, Offset(page + 1, limit));
      var both := GetByUserId(rows, u, 2 * limit, Offset(page, limit));
      && first.Ok? && second.Ok? && both.Ok?
      && first.value + second.value == both.value
  {
    var offset := Offset(page, limit);
    OffsetStep(page, limit);
    InboxPageOf(rows, u, limit, offset);
    InboxPageOf(rows, u, limit, offset + limit);
    InboxPageOf(rows, u, 2 * limit, offset);
    PageSplit(Inbox(rows, u), limit, offset);
  }

  class Controller {
    const service: NotificationService.Service

    ghost predicate Valid()
      reads this, service, service.table
    {
      service.Valid()
    }

    constructor (service: NotificationService.Service)
      requires service.Valid()
      ensures Valid() && this.service == service
    {
      this.service := service;
    }

    /** `markAsRead`: 404 unless the notification exists and belongs to the caller. */
    method MarkAsRead(id: int, u: UserId, lang: string, now: Time, t: NotificationService.Translate) returns (r: Reply)
      requires Valid()
      modifies service.table
      ensures Valid() && service.table.nextId == old(service.table.nextId)
      ensures IndexOfOwned(old(service.table.rows), id, u).None? ==>
        r == Reply(404, t("notifications.notFound", map[], lang), None) && service.table.rows == old(service.table.rows)
      ensures IndexOfOwned(old(service.table.rows), id, u).Some? ==>
        var k := IndexOfOwned(old(service.table.rows), id, u).value;
        && service.table.rows == old(service.table.rows)[k := MarkedRead(old(service.table.rows)[k], now)]
        && r == Reply(200, "", Some(One(service.table.rows[k])))
    {
      var n := service.table.MarkAsRead(id, u, now);
      if n.None? {
        return Reply(404, t("notifications.notFound", map[], lang), None);
      }
      r := Reply(200, "", Some(One(n.value)));
    }

    /** `markAllAsRead`: always 200; afterwards the caller has no unread notification. */
    method MarkAllAsRead(u: UserId, lang: string, now: Time, t: NotificationService.Translate) returns (r: Reply)
      requires Valid()
      modifies service.table
      ensures Valid() && service.table.nextId == old(service.table.nextId)
      ensures service.table.rows == MarkAll(old(service.table.rows), u, now)
      ensures r == Reply(200, t("notifications.allMarkedAsRead", map[], lang), None)
      ensures GetUnreadCount(service.table.rows, u) == 0
    {
      var _ := service.table.MarkAllAsRead(u, now);
      MarkAllClearsUnread(old(service.table.rows), u, now);
      r := Reply(200, t("notifications.allMarkedAsRead", map[], lang), None);
    }

    /** `deleteNotification`: 404 unless the notification exists and belongs to the caller. */
    method DeleteNotification(id: int, u: UserId, lang: string, t: NotificationService.Translate) returns (r: Reply)
      requires Valid()
      modifies service.table
      ensures Valid() && service.table.nextId == old(service.table.nextId)
      ensures IndexOfOwned(old(service.table.rows), id, u).None? ==>
        r == Reply(404, t("notifications.notFound", map[], lang), None) && service.table.rows == old(service.table.rows)
      ensures IndexOfOwned(old(service.table.rows), id, u).Some? ==>
        var k := IndexOfOwned(old(service.table.rows), id, u).value;
        && service.table.rows == old(service.table.rows)[..k] + old(service.table.rows)[k + 1..]
        && r == Reply(200, t("notifications.deleted", map[], lang), None)
    {
      var n := service.table.Delete(id, u);
      if n.None? {
        return Reply(404, t("notifications.notFound", map[], lang), None);
      }
      r := Reply(200, t("notifications.deleted", map[], lang), None);
    }

    /**
     * `createTestNotification`: 403 for a non-admin before anything else is
     * looked at, 400 when the user, type or message is falsy, otherwise a
     * direct notification (whose failure is swallowed) and 201.
     */
    method CreateTestNotification(isAdmin: bool, userId: Option<UserId>, kind: Option<string>, message: Option<string>,
                                  eventId: Option<nat>, lang: string, db: NotificationService.Db, now: Time,
                                  t: NotificationService.Translate) returns (r: Reply)
      requires Valid()
      modifies service.table, service.bus
      ensures Valid()
      ensures service.bus.connected == old(service.bus.connected) && service.bus.listeners == old(service.bus.listeners)
      ensures !isAdmin ==>
        r == Reply(403, t("auth.forbidden", map[], lang), None)
        && service.table.rows == old(service.table.rows) && service.bus.published == old(service.bus.published)
      ensures isAdmin && !CompleteRequest(userId, kind, message) ==>
        r == Reply(400, t("validation.missingFields", map[], lang), None)
        && service.table.rows == old(service.table.rows) && service.bus.published == old(service.bus.published)
      ensures isAdmin && CompleteRequest(userId, kind, message) ==>
        var e := EventIdOrNull(eventId);
        var fails := NotificationService.InsertFails(db, userId.value, e);
        && r == Reply(201, t("notifications.created", map[], lang), None)
        && service.table.rows == old(service.table.rows) +
             (if fails then [] else [Notification(old(service.table.nextId), userId.value, kind.value, message.value, e, false, now, now)])
        && service.bus.published == old(service.bus.published) +
             (if fails || !service.bus.connected then []
              else [Message(NotificationService.RealtimeChannel(userId.value),
                            NotificationService.Realtime(kind.value, message.value, e))])
    {
      if !isAdmin {
        return Reply(403, t("auth.forbidden", map[], lang), None);
      }
      if !CompleteRequest(userId, kind, message) {
        return Reply(400, t("validation.missingFields", map[], lang), None);
      }
      var _ := service.SendDirectNotification(userId.value, kind.value, message.value, db, now, EventIdOrNull(eventId));
      r := Reply(201, t("notifications.created", map[], lang), None);
    }
  }

  /** `!userId || !type || !message` fails: each is present and truthy. */
  predicate CompleteRequest(userId: Option<UserId>, kind: Option<string>, message: Option<string>) {
    userId.Some? && userId.value != 0 && kind.Some? && kind.value != "" && message.Some? && message.value != ""
  }

  /** `eventId || null`. */
  function EventIdOrNull(eventId: Option<nat>): Option<nat> {
    if eventId.Some? && eventId.value != 0 then eventId else None
  }
}
