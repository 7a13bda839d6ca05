/**
 * `NotificationService`: resolves who is interested in an event, fans
 * notifications out to them, publishes event updates, and schedules reminders.
 */
module NotificationService {
  import opened Wrappers
  import opened Strings
  import opened Seqs
  import EventModel
  import UserModel
  import opened NotificationModel
  import opened Redis

  const EventUpdatesChannel := "event-updates"
  const EventRemindersChannel := "event-reminders"
  const DefaultReminderLeadMs := 24 * 60 * 60 * 1000

  /** An `event_registrations` row. */
  datatype Registration = Registration(userId: UserId, eventId: nat)

  /**
   * What the service's queries can see: the users, registrations and events
   * tables, and whether the database answers at all.
   */
  datatype Db = Db(
    users: seq<UserModel.User>,
    registrations: seq<Registration>,
    events: seq<EventModel.Row>,
    up: bool)

  /** The messages the service publishes, by channel. */
  datatype Payload =
    | EventUpdate(id: nat, title: string, category: string, changes: string)
    | EventReminder(id: nat, title: string, formattedTime: string, userIds: seq<UserId>)
    | Realtime(kind: string, message: string, eventId: Option<nat>)

  /** A `setTimeout` that will publish `payload` on the reminders channel after `delayMs`. */
  datatype PendingReminder = PendingReminder(delayMs: int, payload: Payload)

  /** A row of `findInterestedUsers`: `SELECT DISTINCT u.id, u.language`. */
  datatype Interested = Interested(id: UserId, language: string)

  /**
   * The i18n layer as the services call it: a key, the variables and a
   * language. `LanguageUtils.translate` forwards only the key and the
   * variables, so the language reaches nothing; every contract here holds for
   * a `Translate` that ignores its third argument, as that one does.
   */
  type Translate = (string, map<string, string>, string) -> string

  // ---------------------------------------------------------------------------
  // Queries

  /** The resolver's WHERE clause: preference, registration or creatorship, and an active account. */
  predicate IsInterested(db: Db, u: UserModel.User, eventId: nat, category: string) {
    && (category in u.preferredCategories
        || (exists r :: r in db.registrations && r.userId == u.id && r.eventId == eventId)
        || (exists e :: e in db.events && e.id == eventId && e.createdBy == Some(u.id)))
    && u.status == "active"
  }

  function InterestedIn(db: Db, eventId: nat, category: string): UserModel.User -> bool {
    (u: UserModel.User) => IsInterested(db, u, eventId, category)
  }

  /** `findInterestedUsers(eventId, category)`; empty when the query fails. */
  function FindInterestedUsers(db: Db, eventId: nat, category: string): (r: seq<Interested>)
    ensures !db.up ==> r == []
    ensures db.up ==> forall x :: x in r <==>
      exists u :: u in db.users && IsInterested(db, u, eventId, category) && x == Interested(u.id, u.language)
  {
    if !db.up then []
    else
      var hits := Filter(db.users, InterestedIn(db, eventId, category));
      var r := Map(hits, (u: UserModel.User) => Interested(u.id, u.language));
      assert forall x :: x in r <==> exists u :: u in hits && x == Interested(u.id, u.language) by {
        forall x | x in r ensures exists u :: u in hits && x == Interested(u.id, u.language) {
          var i :| 0 <= i < |r| && r[i] == x;
          assert hits[i] in hits;
        }
        forall x | (exists u :: u in hits && x == Interested(u.id, u.language)) ensures x in r {
          var u :| u in hits && x == Interested(u.id, u.language);
          var i :| 0 <= i < |hits| && hits[i] == u;
          assert r[i] == x;
        }
      }
      r
  }

  /** With distinct user ids the resolver lists each user at most once. */
  lemma InterestedDistinct(db: Db, eventId: nat, category: string)
    requires db.up
    requires forall i, j :: 0 <= i < j < |db.users| ==> db.users[i].id != db.users[j].id
    ensures forall i, j :: 0 <= i < j < |FindInterestedUsers(db, eventId, category)| ==>
      FindInterestedUsers(db, eventId, category)[i].id != FindInterestedUsers(db, eventId, category)[j].id
  {
    var hits := Filter(db.users, InterestedIn(db, eventId, category));
    FilterDistinct(db.users, InterestedIn(db, eventId, category), (u: UserModel.User) => u.id);
    var r := FindInterestedUsers(db, eventId, category);
    assert |r| == |hits| && forall i :: 0 <= i < |r| ==> r[i].id == hits[i].id;
  }

  /** `getUserLanguage`: the stored language of the row with that id (any status), else 'en'. */
  function GetUserLanguage(db: Db, u: UserId): (lang: string)
    ensures lang != ""
    ensures !db.up || UserModel.IndexOf(db.users, u).None? ==> lang == "en"
    ensures db.up && UserModel.IndexOf(db.users, u).Some? ==>
      var stored := db.users[UserModel.IndexOf(db.users, u).value].language;
      lang == (if stored == "" then "en" else stored)
  {
    if !db.up then "en"
    else match UserModel.IndexOf(db.users, u)
      case None => "en"
      case Some(k) => if db.users[k].language == "" then "en" else db.users[k].language
  }

  /** `getEventTitle`: the title of the row with that id (any status), else ''. */
  function GetEventTitle(db: Db, eventId: int): (title: string)
    ensures !db.up || EventModel.IndexOf(db.events, eventId).None? ==> title == ""
    ensures db.up && EventModel.IndexOf(db.events, eventId).Some? ==>
      title == db.events[EventModel.IndexOf(db.events, eventId).value].title
  {
    if !db.up then ""
    else match EventModel.IndexOf(db.events, eventId)
      case None => ""
      case Some(k) => db.events[k].title
  }

  /**
   * `Notification.create` throws: the database is down, or a foreign key
   * (`user_id` to users, `event_id` to events) names no row.
   */
  predicate InsertFails(db: Db, u: UserId, eventId: Option<nat>) {
    || !db.up
    || UserModel.IndexOf(db.users, u).None?
    || (eventId.Some? && EventModel.IndexOf(db.events, eventId.value).None?)
  }

  /**
   * The failed insert took a value of the id sequence: the database answered,
   * so the key was drawn before the foreign-key check rejected the row.
   */
  function IdsTaken(db: Db, failed: bool): nat {
    if failed && db.up then 1 else 0
  }

  /** The channel of one user's real-time notifications. */
  function RealtimeChannel(u: UserId): (c: string)
    ensures c == "user-" + NatToString(u) + "-notifications"
  {
    "user-" + NatToString(u) + "-notifications"
  }

  /** Different users listen on different channels. */
  lemma RealtimeChannelInjective(u: UserId, v: UserId)
    requires RealtimeChannel(u) == RealtimeChannel(v)
    ensures u == v
  {
    var a := NatToString(u);
    var b := NatToString(v);
    var ca := RealtimeChannel(u);
    assert |a| == |b|;
    assert a == ca[5..5 + |a|];
    assert b == ca[5..5 + |b|];
    ParseIntOfNat(u);
    ParseIntOfNat(v);
  }

  /** The ids of the resolver's rows, in order. */
  function Recipients(users: seq<Interested>): (r: seq<UserId>)
    ensures |r| == |users| && forall j :: 0 <= j < |users| ==> r[j] == users[j].id
  {
    seq(|users|, j requires 0 <= j < |users| => users[j].id)
  }

  /** The EVENT_UPDATE text for each interested user, asked for in that user's language. */
  function UpdateTexts(t: Translate, p: Payload, users: seq<Interested>): (r: seq<string>)
    requires p.EventUpdate?
    ensures |r| == |users| && forall j :: 0 <= j < |users| ==>
      r[j] == t("events.updated", map["event" := p.title, "changes" := p.changes], users[j].language)
  {
    seq(|users|, j requires 0 <= j < |users| =>
      t("events.updated", map["event" := p.title, "changes" := p.changes], users[j].language))
  }

  /** The EVENT_REMINDER text for each recipient, asked for in the language `getUserLanguage` finds. */
  function ReminderTexts(t: Translate, p: Payload, db: Db): (r: seq<string>)
    requires p.EventReminder?
    ensures |r| == |p.userIds| && forall j :: 0 <= j < |p.userIds| ==>
      r[j] == t("events.reminder", map["event" := p.title, "time" := p.formattedTime], GetUserLanguage(db, p.userIds[j]))
  {
    seq(|p.userIds|, j requires 0 <= j < |p.userIds| =>
      t("events.reminder", map["event" := p.title, "time" := p.formattedTime], GetUserLanguage(db, p.userIds[j])))
  }

  /** The unread rows a fan-out inserts, one per recipient, with consecutive ids from `firstId`. */
  function Notes(who: seq<UserId>, texts: seq<string>, firstId: nat, kind: string, eventId: Option<nat>, now: Time)
    : (r: seq<Notification>)
    requires |texts| == |who|
    ensures |r| == |who|
  {
    seq(|who|, j requires 0 <= j < |who| => Notification(firstId + j, who[j], kind, texts[j], eventId, false, now, now))
  }

  /** The real-time messages a fan-out publishes, one per recipient on that recipient's channel. */
  function Pushes(who: seq<UserId>, texts: seq<string>, kind: string, eventId: Option<nat>): (r: seq<Message<Payload>>)
    requires |texts| == |who|
    ensures |r| == |who|
  {
    seq(|who|, j requires 0 <= j < |who| => Message(RealtimeChannel(who[j]), Realtime(kind, texts[j], eventId)))
  }

  /** Serving one more recipient adds its notification and its message at the end. */
  lemma FanOutStep(who: seq<UserId>, texts: seq<string>, n: nat, firstId: nat, kind: string, eventId: Option<nat>, now: Time)
    requires |texts| == |who| && n < |who|
    ensures Notes(who[..n + 1], texts[..n + 1], firstId, kind, eventId, now) ==
      Notes(who[..n], texts[..n], firstId, kind, eventId, now) +
      [Notification(firstId + n, who[n], kind, texts[n], eventId, false, now, now)]
    ensures Pushes(who[..n + 1], texts[..n + 1], kind, eventId) ==
      Pushes(who[..n], texts[..n], kind, eventId) + [Message(RealtimeChannel(who[n]), Realtime(kind, texts[n], eventId))]
  {
  }

  /** What `scheduleEventReminder` does for an event: nothing, arm a timer, or publish at once. */
  datatype ReminderPlan = NoReminder | Timer(pending: PendingReminder) | PublishNow(reminder: Payload)

  /**
   * The reminder decision: no interested users means nothing to do; otherwise
   * the reminder is due `leadMs` before the start, as a timer while that
   * moment is still ahead and as an immediate message once it has passed.
   */
  function PlanReminder(e: EventModel.Event, db: Db, now: Time, formatTime: Time -> string, leadMs: int)
    : (plan: ReminderPlan)
    ensures var users := FindInterestedUsers(db, e.id, e.category);
      var reminder := EventReminder(e.id, e.title, formatTime(e.startTime), Recipients(users));
      && (plan.NoReminder? <==> users == [])
      && (plan.Timer? <==> users != [] && e.startTime - leadMs > now)
      && (plan.Timer? ==> plan.pending == PendingReminder(e.startTime - leadMs - now, reminder) && plan.pending.delayMs > 0)
      && (plan.PublishNow? ==> plan.reminder == reminder)
  {
    var users := FindInterestedUsers(db, e.id, e.category);
    var reminder := EventReminder(e.id, e.title, formatTime(e.startTime), Recipients(users));
    if users == [] then NoReminder
    else if e.startTime - leadMs > now then Timer(PendingReminder(e.startTime - leadMs - now, reminder))
    else PublishNow(reminder)
  }

  function PlanTimers(plan: ReminderPlan): seq<PendingReminder> {
    if plan.Timer? then [plan.pending] else []
  }

  function PlanMessages(plan: ReminderPlan, connected: bool): seq<Message<Payload>> {
    if plan.PublishNow? && connected then [Message(EventRemindersChannel, plan.reminder)] else []
  }

  // ---------------------------------------------------------------------------
  // The service

  class Service {
    const table: NotificationTable
    const bus: PubSub<Payload>
    var timers: seq<PendingReminder>

    ghost predicate Valid()
      reads this, table
    {
      table.Valid()
    }

    constructor (table: NotificationTable, bus: PubSub<Payload>)
      requires table.Valid()
      ensures Valid() && this.table == table && this.bus == bus && timers == []
    {
      this.table := table;
      this.bus := bus;
      timers := [];
    }

    /** Inserts one notification and sends it to the user's real-time channel; a failed publish is ignored. */
    method Deliver(u: UserId, kind: string, message: string, eventId: Option<nat>, now: Time)
      requires Valid()
      modifies table, bus
      ensures Valid() && bus.listeners == old(bus.listeners) && bus.connected == old(bus.connected)
      ensures table.nextId == old(table.nextId) + 1
      ensures table.rows == old(table.rows) + [Notification(old(table.nextId), u, kind, message, eventId, false, now, now)]
      ensures bus.published == old(bus.published) +
        (if bus.connected then [Message(RealtimeChannel(u), Realtime(kind, message, eventId))] else [])
    {
      var _ := table.Create(u, kind, message, now, eventId);
      var _ := bus.Publish(RealtimeChannel(u), Realtime(kind, message, eventId));
    }

    /**
     * The loop both handlers share: for each recipient in order, insert its
     * notification and send it in real time; the first insert that throws
     * ends the loop, and `n` recipients were served. A foreign-key failure
     * still draws an id from the sequence.
     */
    method FanOut(who: seq<UserId>, texts: seq<string>, kind: string, eventId: Option<nat>, db: Db, now: Time)
      returns (n: nat)
      requires Valid() && |texts| == |who|
      modifies table, bus
      ensures Valid() && bus.connected == old(bus.connected) && bus.listeners == old(bus.listeners)
      ensures n <= |who|
      ensures forall j :: 0 <= j < n ==> !InsertFails(db, who[j], eventId)
      ensures n < |who| ==> InsertFails(db, who[n], eventId)
      ensures table.nextId == old(table.nextId) + n + IdsTaken(db, n < |who|)
      ensures table.rows == old(table.rows) + Notes(who[..n], texts[..n], old(table.nextId), kind, eventId, now)
      ensures bus.published == old(bus.published) +
        (if bus.connected then Pushes(who[..n], texts[..n], kind, eventId) else [])
    {
      ghost var rows0 := table.rows;
      ghost var id0 := table.nextId;
      ghost var pub0 := bus.published;
      n := 0;
      while n < |who| && !InsertFails(db, who[n], eventId)
        invariant 0 <= n <= |who|
        invariant forall j :: 0 <= j < n ==> !InsertFails(db, who[j], eventId)
        invariant table.Valid() && table.nextId == id0 + n
        invariant table.rows == rows0 + Notes(who[..n], texts[..n], id0, kind, eventId, now)
        invariant bus.connected == old(bus.connected) && bus.listeners == old(bus.listeners)
        invariant bus.published == pub0 + (if bus.connected then Pushes(who[..n], texts[..n], kind, eventId) else [])
      {
        Deliver(who[n], kind, texts[n], eventId, now);
        FanOutStep(who, texts, n, id0, kind, eventId, now);
        n := n + 1;
      }
      if n < |who| && db.up {
        table.Reject();
      }
    }

    /**
     * `handleEventUpdate`: one EVENT_UPDATE notification per interested user,
     * in resolver order, with the text of `UpdateTexts`, each followed by its
     * real-time message; the first insert that throws ends the loop.
     */
    method HandleEventUpdate(p: Payload, db: Db, t: Translate, now: Time) returns (n: nat)
      requires Valid() && p.EventUpdate?
      modifies table, bus
      ensures Valid() && bus.connected == old(bus.connected) && bus.listeners == old(bus.listeners)
      ensures var who := Recipients(FindInterestedUsers(db, p.id, p.category));
        var texts := UpdateTexts(t, p, FindInterestedUsers(db, p.id, p.category));
        && n <= |who|
        && (forall j :: 0 <= j < n ==> !InsertFails(db, who[j], Some(p.id)))
        && (n < |who| ==> InsertFails(db, who[n], Some(p.id)))
        && table.nextId == old(table.nextId) + n + IdsTaken(db, n < |who|)
        && table.rows == old(table.rows) + Notes(who[..n], texts[..n], old(table.nextId), "EVENT_UPDATE", Some(p.id), now)
        && bus.published == old(bus.published) +
             (if bus.connected then Pushes(who[..n], texts[..n], "EVENT_UPDATE", Some(p.id)) else [])
    {
      var users := FindInterestedUsers(db, p.id, p.category);
      n := FanOut(Recipients(users), UpdateTexts(t, p, users), "EVENT_UPDATE", Some(p.id), db, now);
    }

    /**
     * `handleEventReminder`: one EVENT_REMINDER notification per id in the
     * payload, in order, with the text of `ReminderTexts`, each followed by
     * its real-time message; the first insert that throws ends the loop.
     */
    method HandleEventReminder(p: Payload, db: Db, t: Translate, now: Time) returns (n: nat)
      requires Valid() && p.EventReminder?
      modifies table, bus
      ensures Valid() && bus.connected == old(bus.connected) && bus.listeners == old(bus.listeners)
      ensures var texts := ReminderTexts(t, p, db);
        && n <= |p.userIds|
        && (forall j :: 0 <= j < n ==> !InsertFails(db, p.userIds[j], Some(p.id)))
        && (n < |p.userIds| ==> InsertFails(db, p.userIds[n], Some(p.id)))
        && table.nextId == old(table.nextId) + n + IdsTaken(db, n < |p.userIds|)
        && table.rows == old(table.rows) +
             Notes(p.userIds[..n], texts[..n], old(table.nextId), "EVENT_REMINDER", Some(p.id), now)
        && bus.published == old(bus.published) +
             (if bus.connected then Pushes(p.userIds[..n], texts[..n], "EVENT_REMINDER", Some(p.id)) else [])
    {
      n := FanOut(p.userIds, ReminderTexts(t, p, db), "EVENT_REMINDER", Some(p.id), db, now);
    }

    /** `publishEventUpdate`: true exactly when the publish succeeds. */
    method PublishEventUpdate(p: Payload) returns (ok: bool)
      requires p.EventUpdate?
      modifies bus
      ensures ok <==> old(bus.connected)
      ensures ok ==> bus.published == old(bus.published) + [Message(EventUpdatesChannel, p)]
      ensures !ok ==> bus.published == old(bus.published)
      ensures bus.listeners == old(bus.listeners) && bus.connected == old(bus.connected)
    {
      var r := bus.Publish(EventUpdatesChannel, p);
      ok := r.Ok?;
    }

    /** `scheduleEventReminder`: carries out `PlanReminder`; false only when an immediate publish is rejected. */
    method ScheduleEventReminder(e: EventModel.Event, db: Db, now: Time, formatTime: Time -> string,
                                 leadMs: int := DefaultReminderLeadMs) returns (ok: bool)
      modifies this, bus
      ensures bus.listeners == old(bus.listeners) && bus.connected == old(bus.connected)
      ensures var plan := PlanReminder(e, db, now, formatTime, leadMs);
        && timers == old(timers) + PlanTimers(plan)
        && bus.published == old(bus.published) + PlanMessages(plan, old(bus.connected))
        && (ok <==> !(plan.PublishNow? && !old(bus.connected)))
    {
      var users := FindInterestedUsers(db, e.id, e.category);
      if users == [] {
        return true;
      }
      var reminderTime := e.startTime - leadMs;
      var reminder := EventReminder(e.id, e.title, formatTime(e.startTime), Recipients(users));
      if reminderTime > now {
        timers := timers + [PendingReminder(reminderTime - now, reminder)];
        ok := true;
      } else {
        var r := bus.Publish(EventRemindersChannel, reminder);
        ok := r.Ok?;
      }
    }

    /**
     * `sendDirectNotification`: persists one record, then sends it in real
     * time; false, with no row written, when the insert throws (a foreign-key
     * failure still uses up an id).
     */
    method SendDirectNotification(u: UserId, kind: string, message: string, db: Db, now: Time,
                                  eventId: Option<nat> := None) returns (ok: bool)
      requires Valid()
      modifies table, bus
      ensures Valid() && bus.listeners == old(bus.listeners) && bus.connected == old(bus.connected)
      ensures ok <==> !InsertFails(db, u, eventId)
      ensures !ok ==> table.rows == old(table.rows) && bus.published == old(bus.published)
      ensures table.nextId == old(table.nextId) + (if ok then 1 else IdsTaken(db, true))
      ensures ok ==>
        && table.rows == old(table.rows) + [Notification(old(table.nextId), u, kind, message, eventId, false, now, now)]
        && bus.published == old(bus.published) +
             (if bus.connected then [Message(RealtimeChannel(u), Realtime(kind, message, eventId))] else [])
    {
      if InsertFails(db, u, eventId) {
        if db.up {
          table.Reject();
        }
        return false;
      }
      Deliver(u, kind, message, eventId, now);
      ok := true;
    }
  }
}
