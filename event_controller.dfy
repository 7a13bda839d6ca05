/**
 * `EventController`: the HTTP handlers for events. Each handler works on the
 * events table, the Redis cache and the notification service, and answers
 * with a status code and a body.
 */
module EventController {
  import opened Wrappers
  import opened Strings
  import opened Seqs
  import opened EventModel
  import opened Redis
  import NotificationModel
  import NotificationService

  const CacheExpiration := 60 * 15
  const CachePrefix := "event:"

  /** The keys `createEvent` and `updateEvent` copy from the request body, in this order. */
  const ValidFields := ["title", "description", "address", "start_time", "end_time", "category",
                        "longitude", "latitude", "ticket_price", "status"]

  /** The keys `createEvent` insists on, in the order the error message lists them. */
  const RequiredFields := ["title", "address", "start_time", "end_time", "category", "longitude", "latitude"]

  /** The names `updateEvent` reports changes under, in the order it checks them. */
  const ChangeNames := ["title", "description", "time", "location"]

  /** The authenticated caller, as `authenticate` attached it. */
  datatype Caller = Caller(id: UserId, role: string)

  /** The `data` of a response; also what the cache holds. */
  datatype Body =
    | EventList(events: seq<Event>, total: nat, limit: Option<int>, offset: Option<int>, hasMore: bool)
    | OneEvent(event: Event)
    | NearbyList(hits: seq<Nearby>, latitude: real, longitude: real, radius: real, count: nat)
    | Categories(names: seq<string>)

  /** A status code, a message (an i18n key or an error text), the data and the `fromCache` flag. */
  datatype Response = Response(status: int, message: string, data: Option<Body>, fromCache: bool)

  // ---------------------------------------------------------------------------
  // The request body

  /** `body[key]` when it is defined, as a one-entry object. */
  function EntryOf(body: seq<Field>, key: string): seq<Field> {
    match Lookup(body, key)
    case None => []
    case Some(f) => [f]
  }

  /** `eventData` after copying every defined `body[key]` for `key` in `keys`, in the order of `keys`. */
  function Picked(body: seq<Field>, keys: seq<string>): seq<Field>
    decreases |keys|
  {
    if keys == [] then [] else Picked(body, keys[..|keys| - 1]) + EntryOf(body, keys[|keys| - 1])
  }

  /** In an object with distinct keys, looking up an entry's own key finds that entry. */
  lemma {:induction false} LookupOwnKey(body: seq<Field>, f: Field)
    requires DistinctKeys(body) && f in body
    ensures Lookup(body, Key(f)) == Some(f)
    decreases |body|
  {
    if body[0] != f {
      assert Key(body[0]) != Key(f) by {
        var k :| 0 <= k < |body| && body[k] == f;
      }
      assert DistinctKeys(body[1..]) by {
        forall i, j | 0 <= i < j < |body[1..]| ensures Key(body[1..][i]) != Key(body[1..][j]) {
          assert body[1..][i] == body[i + 1] && body[1..][j] == body[j + 1];
        }
      }
      LookupOwnKey(body[1..], f);
    }
  }

  /** The copy holds exactly the body's entries whose keys are listed, keyed as listed. */
  lemma {:induction false} PickedMembers(body: seq<Field>, keys: seq<string>)
    requires DistinctKeys(body)
    ensures forall f :: f in Picked(body, keys) <==> f in body && Key(f) in keys
    ensures forall i :: 0 <= i < |Picked(body, keys)| ==> Key(Picked(body, keys)[i]) in keys
    decreases |keys|
  {
    if keys != [] {
      var init := keys[..|keys| - 1];
      var last := keys[|keys| - 1];
      PickedMembers(body, init);
      assert keys == init + [last];
      forall f | f in body && Key(f) in keys ensures f in Picked(body, keys) {
        if Key(f) !in init {
          LookupOwnKey(body, f);
        }
      }
    }
  }

  /** Copying distinct keys yields distinct keys. */
  lemma {:induction false} PickedDistinct(body: seq<Field>, keys: seq<string>)
    requires DistinctKeys(body)
    requires forall i, j :: 0 <= i < j < |keys| ==> keys[i] != keys[j]
    ensures DistinctKeys(Picked(body, keys))
    decreases |keys|
  {
    if keys != [] {
      var init := keys[..|keys| - 1];
      var last := keys[|keys| - 1];
      PickedDistinct(body, init);
      PickedMembers(body, init);
      var p := Picked(body, init);
      forall i | 0 <= i < |p| ensures Key(p[i]) != last {
        var k :| 0 <= k < |init| && init[k] == Key(p[i]);
      }
    }
  }

  /** The whitelist keeps a well-formed body well formed and lets no unknown key, id or creator through. */
  lemma PickedWellFormed(body: seq<Field>)
    requires WellFormed(body)
    ensures WellFormed(Picked(body, ValidFields))
    ensures forall f :: f in Picked(body, ValidFields) ==> !f.Other? && !f.Id? && !f.CreatedBy?
  {
    ValidFieldsDistinct();
    ValidFieldsKnown();
    PickedDistinct(body, ValidFields);
    PickedMembers(body, ValidFields);
    var p := Picked(body, ValidFields);
    assert forall f :: f in body && f.Other? ==> !IsKnownKey(f.name) by {
      forall f | f in body && f.Other? ensures !IsKnownKey(f.name) {
        var i :| 0 <= i < |body| && body[i] == f;
      }
    }
    forall f | f in p ensures !f.Other? && !f.Id? && !f.CreatedBy? {
      assert f in body && Key(f) in ValidFields;
    }
  }

  lemma ValidFieldsDistinct()
    ensures forall i, j :: 0 <= i < j < |ValidFields| ==> ValidFields[i] != ValidFields[j]
  {
  }

  /** Every whitelisted key is a column, and neither the id nor the creator is whitelisted. */
  lemma ValidFieldsKnown()
    ensures forall k :: k in ValidFields ==> IsKnownKey(k) && k != "id" && k != "created_by"
  {
  }

  /** The whitelist loop of `createEvent` and `updateEvent`. */
  method Whitelist(body: seq<Field>) returns (data: seq<Field>)
    ensures data == Picked(body, ValidFields)
  {
    data := [];
    for i := 0 to |ValidFields|
      invariant data == Picked(body, ValidFields[..i])
    {
      assert ValidFields[..i + 1][..i] == ValidFields[..i];
      var v := Lookup(body, ValidFields[i]);
      if v.Some? {
        data := data + [v.value];
      }
    }
    assert ValidFields[..|ValidFields|] == ValidFields;
  }

  /** `requiredFields.filter(field => !eventData[field])`. */
  function MissingFields(data: seq<Field>): (r: seq<string>)
    ensures forall k :: k in r <==> k in RequiredFields && !Present(data, k)
  {
    Filter(RequiredFields, (k: string) => !Present(data, k))
  }

  function MissingMessage(missing: seq<string>): string {
    "Missing required fields: " + Join(missing, ", ")
  }

  /**
   * A body that passes the required-field check can only be rejected by the
   * status constraint, and its row always has a location.
   */
  lemma CompleteBodyInserts(body: seq<Field>, creator: UserId, id: nat, now: Time)
    requires WellFormed(body) && MissingFields(Picked(body, ValidFields)) == []
    ensures var data := Picked(body, ValidFields) + [CreatedBy(creator)];
      && (Inserted(data, id, now).Err? <==>
            Lookup(data, "status").Some? && ParseStatus(Lookup(data, "status").value.text).None?)
      && (Inserted(data, id, now).Ok? ==> Inserted(data, id, now).value.location.Some?)
  {
    var picked := Picked(body, ValidFields);
    CreatorAppended(body, creator);
    assert forall k :: k in RequiredFields ==> Present(picked, k);
    CompleteInserts(picked + [CreatedBy(creator)], id, now);
  }

  /** With every required key set, only the status can reject an insert, and the row has a location. */
  lemma CompleteInserts(data: seq<Field>, id: nat, now: Time)
    requires WellFormed(data) && forall k :: k in RequiredFields ==> Lookup(data, k).Some?
    ensures Inserted(data, id, now).Err? <==>
      Lookup(data, "status").Some? && ParseStatus(Lookup(data, "status").value.text).None?
    ensures Inserted(data, id, now).Ok? ==> Inserted(data, id, now).value.location.Some?
  {
    RequiredLookups(data);
    InsertedFails(data, id, now);
    if Inserted(data, id, now).Ok? {
      InsertedRow(data, id, now);
    }
  }

  lemma RequiredLookups(data: seq<Field>)
    requires forall k :: k in RequiredFields ==> Lookup(data, k).Some?
    ensures Lookup(data, "title").Some? && Lookup(data, "address").Some? && Lookup(data, "start_time").Some?
    ensures Lookup(data, "end_time").Some? && Lookup(data, "category").Some?
    ensures Lookup(data, "longitude").Some? && Lookup(data, "latitude").Some?
  {
    assert RequiredFields[0] == "title" && RequiredFields[1] == "address" && RequiredFields[2] == "start_time";
    assert RequiredFields[3] == "end_time" && RequiredFields[4] == "category";
    assert RequiredFields[5] == "longitude" && RequiredFields[6] == "latitude";
  }

  /** Adding the creator to the whitelisted copy keeps it well formed and changes no whitelisted lookup. */
  lemma CreatorAppended(body: seq<Field>, creator: UserId)
    requires WellFormed(body)
    ensures var picked := Picked(body, ValidFields);
      && WellFormed(picked + [CreatedBy(creator)])
      && forall k :: k in ValidFields ==> Lookup(picked + [CreatedBy(creator)], k) == Lookup(picked, k)
  {
    var picked := Picked(body, ValidFields);
    var data := picked + [CreatedBy(creator)];
    PickedWellFormed(body);
    PickedMembers(body, ValidFields);
    forall k | k in ValidFields ensures Lookup(data, k) == Lookup(picked, k) {
      LookupAppendOther(picked, CreatedBy(creator), k);
    }
    forall i, j | 0 <= i < j < |data| ensures Key(data[i]) != Key(data[j]) {
      if j == |picked| {
        assert data[i] == picked[i];
      } else {
        assert data[i] == picked[i] && data[j] == picked[j];
      }
    }
    forall i | 0 <= i < |data| && data[i].Other? ensures !IsKnownKey(data[i].name) {
      assert data[i] == picked[i];
    }
  }

  /** Appending an entry under another key does not change a lookup. */
  lemma {:induction false} LookupAppendOther(data: seq<Field>, f: Field, k: string)
    requires Key(f) != k
    ensures Lookup(data + [f], k) == Lookup(data, k)
    decreases |data|
  {
    if data != [] {
      assert (data + [f])[1..] == data[1..] + [f];
      LookupAppendOther(data[1..], f, k);
    }
  }

  // ---------------------------------------------------------------------------
  // Authorisation and change tracking

  /** The ownership test of `updateEvent` and `deleteEvent`. */
  predicate Authorized(c: Caller, e: Event) {
    c.role == "admin" || CreatedByOf(e) == Some(c.id)
  }

  /** The event objects carry no creator, so only admins pass; a creator is refused their own event. */
  lemma OnlyAdminsAuthorized(c: Caller, e: Event)
    ensures Authorized(c, e) <==> c.role == "admin"
  {
  }

  /** The aspects of an event `updateEvent` reports changes of, and the name it reports each under. */
  datatype Aspect = TitleAspect | DescriptionAspect | TimeAspect | LocationAspect

  function AspectName(a: Aspect): string {
    match a
    case TitleAspect => "title"
    case DescriptionAspect => "description"
    case TimeAspect => "time"
    case LocationAspect => "location"
  }

  /**
   * Whether the update request changes the aspect: a truthy new value that
   * differs from the stored one. A stored start time is a `Date` object,
   * never `===` to the request's value, so a supplied start time always
   * counts as a change of time.
   */
  predicate Changes(data: seq<Field>, e: Event, a: Aspect) {
    match a
    case TitleAspect => Present(data, "title") && TextAt(data, "title") != Some(e.title)
    case DescriptionAspect => Present(data, "description") && TextAt(data, "description") != Some(e.description)
    case TimeAspect => Present(data, "start_time")
    case LocationAspect => Present(data, "address") && TextAt(data, "address") != Some(e.address)
  }

  /** One push of `changedFields`. */
  function PushIf(changed: seq<string>, data: seq<Field>, e: Event, a: Aspect): seq<string> {
    if Changes(data, e, a) then changed + [AspectName(a)] else changed
  }

  /** The position of a change name in `ChangeNames`. */
  function NameRank(k: string): (n: nat)
    ensures k in ChangeNames ==> n < |ChangeNames| && ChangeNames[n] == k
  {
    if k == "title" then 0 else if k == "description" then 1 else if k == "time" then 2 else 3
  }

  /** `changedFields`: the names of the changed aspects, in the order title, description, time, location. */
  function ChangedFields(data: seq<Field>, e: Event): (r: seq<string>)
    ensures forall a: Aspect :: AspectName(a) in r <==> Changes(data, e, a)
    ensures forall k :: k in r ==> k in ChangeNames
  {
    PushIf(PushIf(PushIf(PushIf([], data, e, TitleAspect), data, e, DescriptionAspect), data, e, TimeAspect),
           data, e, LocationAspect)
  }

  /** The changes are listed in the order of `ChangeNames`, none twice. */
  lemma ChangedFieldsRanked(data: seq<Field>, e: Event)
    ensures Ranked(ChangedFields(data, e))
  {
    var title := PushIf([], data, e, TitleAspect);
    PushRanked([], data, e, TitleAspect);
    var description := PushIf(title, data, e, DescriptionAspect);
    PushRanked(title, data, e, DescriptionAspect);
    var time := PushIf(description, data, e, TimeAspect);
    PushRanked(description, data, e, TimeAspect);
    PushRanked(time, data, e, LocationAspect);
  }

  /** The names stand in the order of `ChangeNames`, each at most once. */
  predicate Ranked(names: seq<string>) {
    forall i, j :: 0 <= i < j < |names| ==> NameRank(names[i]) < NameRank(names[j])
  }

  /** A push of a name ranked after every name so far keeps the list ranked. */
  lemma PushRanked(changed: seq<string>, data: seq<Field>, e: Event, a: Aspect)
    requires Ranked(changed) && forall k :: k in changed ==> NameRank(k) < NameRank(AspectName(a))
    ensures Ranked(PushIf(changed, data, e, a))
    ensures forall k :: k in PushIf(changed, data, e, a) ==> k in changed || k == AspectName(a)
  {
    var r := PushIf(changed, data, e, a);
    if Changes(data, e, a) {
      forall i, j | 0 <= i < j < |r| ensures NameRank(r[i]) < NameRank(r[j]) {
        assert r[i] == changed[i];
        if j == |changed| {
          assert r[i] in changed;
        } else {
          assert r[j] == changed[j];
        }
      }
    }
  }

  /** A reminder is rescheduled when the request carries a (necessarily truthy) start time. */
  predicate Reschedules(data: seq<Field>) {
    Present(data, "start_time")
  }

  /** A start time in the request is always reported as a change of time and always reschedules. */
  lemma StartTimeAlwaysChanges(data: seq<Field>, e: Event)
    requires WellFormed(data) && Lookup(data, "start_time").Some?
    ensures "time" in ChangedFields(data, e) && Reschedules(data)
  {
    LookupKind(data, "start_time");
  }

  // ---------------------------------------------------------------------------
  // Cache keys

  /** An optional query parameter: `None` is undefined. */
  datatype Query = Query(
    category: Option<string>,
    startDate: Option<string>,
    endDate: Option<string>,
    limit: Option<string>,
    offset: Option<string>,
    name: Option<string>,
    address: Option<string>,
    createdBy: Option<string>)

  /** `value || ""` for a query parameter. */
  function OrEmpty(s: Option<string>): string {
    if s.Some? then s.value else ""
  }

  /** The category after `if (category) category = category.trim()`, as text. */
  function CategoryText(q: Query): string {
    Trim(OrEmpty(q.category))
  }

  /** `limit = 20` and `offset = 0` are the destructuring defaults; template strings render them as text. */
  function LimitText(q: Query): string { if q.limit.Some? then q.limit.value else "20" }
  function OffsetText(q: Query): string { if q.offset.Some? then q.offset.value else "0" }

  /** The eight query-dependent parts of a list key. */
  function ListParts(q: Query): (r: seq<string>)
    ensures |r| == 8
  {
    var category := if CategoryText(q) == "" then "all" else CategoryText(q);
    [OrEmpty(q.name), category, OrEmpty(q.startDate), OrEmpty(q.endDate), OrEmpty(q.address),
     OrEmpty(q.createdBy), LimitText(q), OffsetText(q)]
  }

  /** The key `getEvents` caches a page under. */
  function ListKey(q: Query): string {
    CachePrefix + "list:" + Join(ListParts(q), ":")
  }

  function ItemKey(id: nat): string { CachePrefix + NatToString(id) }

  const AllListKey := CachePrefix + "list:all:"

  function CategoryListKey(category: string): string { CachePrefix + "list:" + category + ":" }

  const CategoriesKey := CachePrefix + "categories"

  /** The category an update moves the event to, when it moves it. */
  predicate NewCategory(data: seq<Field>, e: Event) {
    Present(data, "category") && TextAt(data, "category") != Some(e.category)
  }

  /** The keys `updateEvent` deletes: every key a delete drops, and the new category's list key when the category changes. */
  function UpdateInvalidates(id: nat, e: Event, data: seq<Field>): (r: set<string>)
    ensures DeleteInvalidates(id, e) <= r
  {
    {ItemKey(id), AllListKey, CategoryListKey(e.category)} +
      (if NewCategory(data, e) then {CategoryListKey(TextAt(data, "category").value)} else {})
  }

  /** The keys `deleteEvent` deletes. */
  function DeleteInvalidates(id: nat, e: Event): set<string> {
    {ItemKey(id), AllListKey, CategoryListKey(e.category)}
  }

  lemma {:induction false} JoinColons(parts: seq<string>)
    requires |parts| >= 1
    ensures CountChar(Join(parts, ":"), ':') >= |parts| - 1
    decreases |parts|
  {
    if |parts| > 1 {
      JoinColons(parts[1..]);
      CountCharAppend(parts[0], ":", ':');
      CountCharAppend(parts[0] + ":", Join(parts[1..], ":"), ':');
    }
  }

  lemma ListPrefixColons()
    ensures CountChar(CachePrefix + "list:", ':') == 2
  {
    assert CachePrefix + "list:" == "event" + ":" + "list" + ":";
    CountCharAbsent("event", ':');
    CountCharAbsent("list", ':');
    CountCharAppend("event", ":", ':');
    CountCharAppend("event" + ":", "list", ':');
    CountCharAppend("event" + ":" + "list", ":", ':');
  }

  lemma ListKeyColons(q: Query)
    ensures CountChar(ListKey(q), ':') >= 9
  {
    JoinColons(ListParts(q));
    ListPrefixColons();
    CountCharAppend(CachePrefix + "list:", Join(ListParts(q), ":"), ':');
  }

  lemma CategoryListKeyColons(c: string)
    ensures CountChar(CategoryListKey(c), ':') == 3 + CountChar(c, ':')
  {
    ListPrefixColons();
    CountCharAppend(CachePrefix + "list:", c, ':');
    CountCharAppend(CachePrefix + "list:" + c, ":", ':');
  }

  lemma ItemKeyColons(id: nat)
    ensures CountChar(ItemKey(id), ':') == 1
  {
    CountCharAbsent(NatToString(id), ':');
    CountCharAppend(CachePrefix, NatToString(id), ':');
  }

  lemma AllListKeyColons()
    ensures CountChar(AllListKey, ':') == 3
  {
    CategoryListKeyColons("all");
    CountCharAbsent("all", ':');
    assert AllListKey == CategoryListKey("all");
  }

  /**
   * Invalidation never reaches a cached page: every deleted key has fewer
   * separators than any list key, unless a category holds six colons or more.
   */
  lemma InvalidationMissesLists(q: Query, id: nat, e: Event, data: seq<Field>)
    requires CountChar(e.category, ':') < 6
    requires NewCategory(data, e) ==> CountChar(TextAt(data, "category").value, ':') < 6
    ensures ListKey(q) !in UpdateInvalidates(id, e, data)
    ensures ListKey(q) !in DeleteInvalidates(id, e)
  {
    var key := ListKey(q);
    ListKeyColons(q);
    ItemKeyColons(id);
    AllListKeyColons();
    CategoryListKeyColons(e.category);
    assert key != ItemKey(id) && key != AllListKey && key != CategoryListKey(e.category);
    if NewCategory(data, e) {
      CategoryListKeyColons(TextAt(data, "category").value);
      assert key != CategoryListKey(TextAt(data, "category").value);
    }
  }

  /** Only `createEvent` clears the categories list: no update or delete key is the categories key. */
  lemma CategoriesKeyKept(id: nat, e: Event, data: seq<Field>)
    ensures CategoriesKey !in UpdateInvalidates(id, e, data)
  {
    assert ItemKey(id)[6] == NatToString(id)[0];
    assert CategoriesKey[6] == 'c';
    assert AllListKey[6] == 'l';
    assert CategoryListKey(e.category)[6] == 'l';
    if NewCategory(data, e) {
      assert CategoryListKey(TextAt(data, "category").value)[6] == 'l';
    }
  }

  // ---------------------------------------------------------------------------
  // Query results

  /** `hasMore: total > parseInt(offset) + parseInt(limit)`; a NaN makes it false. */
  function HasMore(total: nat, offset: Option<int>, limit: Option<int>): bool {
    offset.Some? && limit.Some? && total > offset.value + limit.value
  }

  /** A date filter: absent when falsy, rejected by the database when its text is not a timestamp. */
  function DateFilter(text: Option<string>, castTime: string -> Option<Time>): (r: Result<Option<Time>>)
    ensures OrEmpty(text) == "" ==> r == Ok(None)
    ensures OrEmpty(text) != "" ==> (r.Err? <==> castTime(text.value).None?)
    ensures r.Ok? && r.value.Some? ==> text.Some? && castTime(text.value) == r.value
  {
    if OrEmpty(text) == "" then Ok(None)
    else match castTime(text.value)
      case None => Err("invalid input syntax for type timestamp: \"" + text.value + "\"")
      case Some(t) => Ok(Some(t))
  }

  /** The `filters` object the handlers pass to the model. */
  function FiltersOf(q: Query, castTime: string -> Option<Time>): (r: Result<Filters>)
    ensures r.Err? <==> DateFilter(q.startDate, castTime).Err? || DateFilter(q.endDate, castTime).Err?
    ensures r.Ok? ==> Bare(r.value.category) && r.value.category == Trim(OrEmpty(q.category))
  {
    TrimmedBare(OrEmpty(q.category));
    var start := DateFilter(q.startDate, castTime);
    var end := DateFilter(q.endDate, castTime);
    if start.Err? then Err(start.message)
    else if end.Err? then Err(end.message)
    else Ok(Filters(OrEmpty(q.name), CategoryText(q), start.value, end.value, OrEmpty(q.address),
                    OrEmpty(q.createdBy), ParseInt(LimitText(q)), ParseInt(OffsetText(q))))
  }

  /** The `data` of a `getEvents` response computed from the tables, or the error that ends it. */
  function ListBody(rows: seq<Row>, q: Query, castTime: string -> Option<Time>): Result<Body> {
    match FiltersOf(q, castTime)
    case Err(m) => Err(m)
    case Ok(f) =>
      match GetAll(rows, f)
      case Err(m) => Err(m)
      case Ok(events) =>
        var total := Count(rows, f);
        Ok(EventList(events, total, f.limit, f.offset, HasMore(total, f.offset, f.limit)))
  }

  /** A computed page never holds more events than the count, and `hasMore` means the count goes past the page. */
  lemma ListBodyBounds(rows: seq<Row>, q: Query, castTime: string -> Option<Time>)
    requires ListBody(rows, q, castTime).Ok?
    ensures var b := ListBody(rows, q, castTime).value;
      && b.EventList?
      && |b.events| <= b.total
      && (b.hasMore <==> b.offset.Some? && b.limit.Some? && b.total > b.offset.value + b.limit.value)
  {
    var f := FiltersOf(q, castTime).value;
    TrimIdempotent(OrEmpty(q.category));
    ListNeverExceedsCount(rows, f);
  }

  /** The radius query's own parameters. */
  datatype Place = Place(latitude: Option<string>, longitude: Option<string>, radius: Option<string>)

  function RadiusText(p: Place): string { if p.radius.Some? then p.radius.value else "10" }

  /** The key `findEventsNearby` caches a result under. */
  function NearbyKey(p: Place, q: Query): string {
    CachePrefix + "nearby:" + OrEmpty(p.latitude) + ":" + OrEmpty(p.longitude) + ":" + RadiusText(p) + ":"
      + Join(ListParts(q), ":")
  }

  // ---------------------------------------------------------------------------
  // The handlers

  class Controller {
    const store: EventStore
    const cache: Cache<Body>
    const service: NotificationService.Service

    ghost predicate Valid()
      reads this, store, service, service.table
    {
      store.Valid() && service.Valid()
    }

    constructor (store: EventStore, cache: Cache<Body>, service: NotificationService.Service)
      requires store.Valid() && service.Valid()
      ensures Valid() && this.store == store && this.cache == cache && this.service == service
    {
      this.store := store;
      this.cache := cache;
      this.service := service;
    }

    /** What the notification service's queries see: the given tables, and the events as they are now. */
    function Db(ctx: NotificationService.Db): NotificationService.Db
      reads store
    {
      ctx.(events := store.rows)
    }

    /**
     * `createEvent`: copies the whitelisted fields, answers 400 naming the
     * missing required fields (writing nothing), otherwise adds the caller as
     * creator and goes on as `Insert` does.
     */
    method CreateEvent(body: seq<Field>, caller: Caller, ctx: NotificationService.Db, now: Time,
                       formatTime: Time -> string) returns (resp: Response)
      requires Valid() && WellFormed(body)
      modifies store, cache, service, service.bus
      ensures Valid()
      ensures service.bus.connected == old(service.bus.connected) && service.bus.listeners == old(service.bus.listeners)
      ensures var missing := MissingFields(Picked(body, ValidFields));
        missing != [] ==>
          && resp == Response(400, MissingMessage(missing), None, false)
          && store.rows == old(store.rows) && store.nextId == old(store.nextId)
          && cache.entries == old(cache.entries)
          && service.timers == old(service.timers) && service.bus.published == old(service.bus.published)
      ensures MissingFields(Picked(body, ValidFields)) == [] ==>
        Inserts(Picked(body, ValidFields) + [CreatedBy(caller.id)], ctx, now, formatTime, resp,
                old(store.rows), old(store.nextId), old(cache.entries), old(service.timers), old(service.bus.published))
    {
      var data := Whitelist(body);
      var missing := MissingFields(data);
      if |missing| > 0 {
        return Response(400, MissingMessage(missing), None, false);
      }
      resp := Insert(data + [CreatedBy(caller.id)], ctx, now, formatTime);
    }

    /**
     * What inserting `data` leaves behind: on a rejected row, a 500 and only
     * the sequence advanced; otherwise the row appended, its reminder
     * planned, the cached category list dropped, and a 201 with the event.
     */
    ghost predicate Inserts(data: seq<Field>, ctx: NotificationService.Db, now: Time, formatTime: Time -> string,
                           resp: Response, rows0: seq<Row>, nextId0: nat, entries0: map<string, Entry<Body>>,
                           timers0: seq<NotificationService.PendingReminder>,
                           published0: seq<Message<NotificationService.Payload>>)
      reads this, store, cache, service, service.bus
    {
      var row := Inserted(data, nextId0, now);
      && store.nextId == nextId0 + 1
      && (row.Err? ==>
            && resp == Response(500, row.message, None, false)
            && store.rows == rows0 && cache.entries == entries0
            && service.timers == timers0 && service.bus.published == published0)
      && (row.Ok? ==>
            var e := ToEvent(row.value, true);
            var plan := NotificationService.PlanReminder(e, Db(ctx), now, formatTime, NotificationService.DefaultReminderLeadMs);
            && resp == Response(201, "events.created", Some(OneEvent(e)), false)
            && store.rows == rows0 + [row.value]
            && cache.entries == entries0 - {CategoriesKey}
            && service.timers == timers0 + NotificationService.PlanTimers(plan)
            && service.bus.published == published0 + NotificationService.PlanMessages(plan, service.bus.connected))
    }

    /** The insert, reminder and cache steps of `createEvent`. */
    method Insert(data: seq<Field>, ctx: NotificationService.Db, now: Time, formatTime: Time -> string)
      returns (resp: Response)
      requires Valid()
      modifies store, cache, service, service.bus
      ensures Valid()
      ensures service.bus.connected == old(service.bus.connected) && service.bus.listeners == old(service.bus.listeners)
      ensures Inserts(data, ctx, now, formatTime, resp, old(store.rows), old(store.nextId), old(cache.entries),
                      old(service.timers), old(service.bus.published))
    {
      var created := store.Create(data, now);
      if created.Err? {
        return Response(500, created.message, None, false);
      }
      var _ := service.ScheduleEventReminder(created.value, Db(ctx), now, formatTime);
      var _ := cache.Delete(CategoriesKey);
      resp := Response(201, "events.created", Some(OneEvent(created.value)), false);
    }

    /**
     * `getEvents`: a cached page is returned as it is, marked `fromCache`,
     * without touching the tables; otherwise the page is computed, cached
     * under the same key for 900 seconds, and returned.
     */
    method GetEvents(q: Query, castTime: string -> Option<Time>) returns (resp: Response)
      modifies cache
      ensures var key := ListKey(q);
        && (key in old(cache.entries) ==>
              resp == Response(200, "", Some(old(cache.entries)[key].value), true) && cache.entries == old(cache.entries))
        && (key !in old(cache.entries) && ListBody(store.rows, q, castTime).Err? ==>
              resp == Response(500, ListBody(store.rows, q, castTime).message, None, false)
              && cache.entries == old(cache.entries))
        && (key !in old(cache.entries) && ListBody(store.rows, q, castTime).Ok? ==>
              var b := ListBody(store.rows, q, castTime).value;
              resp == Response(200, "", Some(b), false)
              && cache.entries == old(cache.entries)[key := Entry(b, CacheExpiration)])
    {
      var key := ListKey(q);
      var cached := cache.Get(key);
      if cached.Some? {
        return Response(200, "", cached, true);
      }
      var b := ListBody(store.rows, q, castTime);
      if b.Err? {
        return Response(500, b.message, None, false);
      }
      var _ := cache.Set(key, b.value, CacheExpiration);
      resp := Response(200, "", Some(b.value), false);
    }

    /** `getEventById`: read-through caching of one event; 404 when there is no live event with that id. */
    method GetEventById(id: nat) returns (resp: Response)
      modifies cache
      ensures var key := ItemKey(id);
        && (key in old(cache.entries) ==>
              resp == Response(200, "", Some(old(cache.entries)[key].value), true) && cache.entries == old(cache.entries))
        && (key !in old(cache.entries) && GetById(store.rows, id).None? ==>
              resp == Response(404, "events.notFound", None, false) && cache.entries == old(cache.entries))
        && (key !in old(cache.entries) && GetById(store.rows, id).Some? ==>
              var b := OneEvent(GetById(store.rows, id).value);
              resp == Response(200, "", Some(b), false)
              && cache.entries == old(cache.entries)[key := Entry(b, CacheExpiration)])
    {
      var key := ItemKey(id);
      var cached := cache.Get(key);
      if cached.Some? {
        return Response(200, "", cached, true);
      }
      var e := GetById(store.rows, id);
      if e.None? {
        return Response(404, "events.notFound", None, false);
      }
      var _ := cache.Set(key, OneEvent(e.value), CacheExpiration);
      resp := Response(200, "", Some(OneEvent(e.value)), false);
    }

    /**
     * The notifications an update or delete sends: the event-update message,
     * then the caller's own direct notification.
     */
    method Announce(p: NotificationService.Payload, caller: UserId, kind: string, message: string,
                    db: NotificationService.Db, now: Time)
      requires Valid() && p.EventUpdate?
      modifies service.table, service.bus
      ensures Valid()
      ensures service.bus.connected == old(service.bus.connected) && service.bus.listeners == old(service.bus.listeners)
      ensures service.table.rows == old(service.table.rows) + CreatorNote(caller, kind, message, Some(p.id), db, old(service.table.nextId), now)
      ensures service.bus.published == old(service.bus.published) + AnnounceMessages(p, caller, kind, message, db, service.bus.connected)
    {
      var _ := service.PublishEventUpdate(p);
      var _ := service.SendDirectNotification(caller, kind, message, db, now, Some(p.id));
    }

    /**
     * `updateEvent`: 404 for no live event and 403 for anyone but an admin,
     * both without effect; otherwise the changes are collected and the update
     * goes on as `ApplyUpdate` does.
     */
    method UpdateEvent(id: nat, body: seq<Field>, caller: Caller, lang: string, ctx: NotificationService.Db,
                       now: Time, t: NotificationService.Translate, formatTime: Time -> string) returns (resp: Response)
      requires Valid() && WellFormed(body)
      modifies store, cache, service, service.table, service.bus
      ensures Valid()
      ensures service.bus.connected == old(service.bus.connected) && service.bus.listeners == old(service.bus.listeners)
      ensures var existing := GetById(old(store.rows), id);
        !(existing.Some? && Authorized(caller, existing.value)) ==>
          && resp == (if existing.None? then Response(404, "events.notFound", None, false)
                      else Response(403, "events.unauthorized", None, false))
          && store.rows == old(store.rows) && cache.entries == old(cache.entries)
          && service.table.rows == old(service.table.rows) && service.timers == old(service.timers)
          && service.bus.published == old(service.bus.published)
      ensures var existing := GetById(old(store.rows), id);
        existing.Some? && Authorized(caller, existing.value) ==>
          && IndexOf(old(store.rows), id).Some?
          && Applies(id, Picked(body, ValidFields), existing.value, ChangedFields(Picked(body, ValidFields), existing.value),
                     caller.id, lang, ctx, now, t, formatTime, resp, old(store.rows), old(cache.entries),
                     old(service.table.rows), old(service.table.nextId), old(service.timers), old(service.bus.published))
    {
      var data := Whitelist(body);
      PickedWellFormed(body);
      var existing := GetById(store.rows, id);
      if existing.None? {
        return Response(404, "events.notFound", None, false);
      }
      if caller.role != "admin" && CreatedByOf(existing.value) != Some(caller.id) {
        return Response(403, "events.unauthorized", None, false);
      }
      var changed := CollectChanges(data, existing.value);
      resp := ApplyUpdate(id, data, existing.value, changed, caller.id, lang, ctx, now, t, formatTime);
    }

    /**
     * What updating event `id` with `data` leaves behind: on a rejected
     * patch, a 500 and nothing changed; otherwise the row patched, the
     * changes announced when there are any, the reminder rescheduled when a
     * start time was supplied, the item and list keys dropped, and a 200.
     */
    ghost predicate Applies(id: nat, data: seq<Field>, before: Event, changed: seq<string>, caller: UserId,
                            lang: string, ctx: NotificationService.Db, now: Time, t: NotificationService.Translate,
                            formatTime: Time -> string, resp: Response, rows0: seq<Row>,
                            entries0: map<string, Entry<Body>>, notes0: seq<NotificationModel.Notification>,
                            nextNote0: nat, timers0: seq<NotificationService.PendingReminder>,
                            published0: seq<Message<NotificationService.Payload>>)
      requires IndexOf(rows0, id).Some?
      reads this, store, cache, service, service.table, service.bus
    {
      var k := IndexOf(rows0, id).value;
      var updated := Updated(rows0[k], data, now);
      && (updated.Err? ==>
            && resp == Response(500, resp.message, None, false)
            && store.rows == rows0 && cache.entries == entries0
            && service.table.rows == notes0 && service.timers == timers0 && service.bus.published == published0)
      && (updated.Ok? ==>
            var e := ToEvent(updated.value, true);
            var message := CreatorUpdateText(t, e, changed, lang);
            var p := NotificationService.EventUpdate(e.id, e.title, e.category, Join(changed, ", "));
            var plan := NotificationService.PlanReminder(e, Db(ctx), now, formatTime, NotificationService.DefaultReminderLeadMs);
            && resp == Response(200, "events.updated", Some(OneEvent(e)), false)
            && store.rows == rows0[k := updated.value]
            && cache.entries == entries0 - UpdateInvalidates(id, before, data)
            && service.table.rows == notes0 +
                 (if changed == [] then [] else CreatorNote(caller, "EVENT_UPDATE", message, Some(e.id), Db(ctx), nextNote0, now))
            && service.timers == timers0 + (if Reschedules(data) then NotificationService.PlanTimers(plan) else [])
            && service.bus.published == published0 +
                 (if changed == [] then [] else AnnounceMessages(p, caller, "EVENT_UPDATE", message, Db(ctx), service.bus.connected)) +
                 (if Reschedules(data) then NotificationService.PlanMessages(plan, service.bus.connected) else []))
    }

    /** The patch, announcement, reminder and cache steps of `updateEvent`. */
    method ApplyUpdate(id: nat, data: seq<Field>, before: Event, changed: seq<string>, caller: UserId, lang: string,
                       ctx: NotificationService.Db, now: Time, t: NotificationService.Translate,
                       formatTime: Time -> string) returns (resp: Response)
      requires Valid() && IndexOf(store.rows, id).Some?
      requires forall f :: f in data ==> !f.Other?
      modifies store, cache, service, service.table, service.bus
      ensures Valid()
      ensures service.bus.connected == old(service.bus.connected) && service.bus.listeners == old(service.bus.listeners)
      ensures Applies(id, data, before, changed, caller, lang, ctx, now, t, formatTime, resp, old(store.rows),
                      old(cache.entries), old(service.table.rows), old(service.table.nextId), old(service.timers),
                      old(service.bus.published))
    {
      assert !UnknownColumn(Assignments(data));
      var result := store.Update(id, data, now);
      if result.Err? {
        return Response(500, result.message, None, false);
      }
      var e := result.value.value;
      NotifyUpdate(e, data, changed, caller, lang, Db(ctx), now, t, formatTime);
      Invalidate(id, before, data);
      resp := Response(200, "events.updated", Some(OneEvent(e)), false);
    }

    /** The announcement and the rescheduled reminder of `updateEvent`. */
    method NotifyUpdate(e: Event, data: seq<Field>, changed: seq<string>, caller: UserId, lang: string,
                        db: NotificationService.Db, now: Time, t: NotificationService.Translate,
                        formatTime: Time -> string)
      requires Valid()
      modifies service, service.table, service.bus
      ensures Valid()
      ensures service.bus.connected == old(service.bus.connected) && service.bus.listeners == old(service.bus.listeners)
      ensures var message := CreatorUpdateText(t, e, changed, lang);
        var p := NotificationService.EventUpdate(e.id, e.title, e.category, Join(changed, ", "));
        var plan := NotificationService.PlanReminder(e, db, now, formatTime, NotificationService.DefaultReminderLeadMs);
        && service.table.rows == old(service.table.rows) +
             (if changed == [] then [] else CreatorNote(caller, "EVENT_UPDATE", message, Some(e.id), db, old(service.table.nextId), now))
        && service.timers == old(service.timers) + (if Reschedules(data) then NotificationService.PlanTimers(plan) else [])
        && service.bus.published == old(service.bus.published) +
             (if changed == [] then [] else AnnounceMessages(p, caller, "EVENT_UPDATE", message, db, service.bus.connected)) +
             (if Reschedules(data) then NotificationService.PlanMessages(plan, service.bus.connected) else [])
    {
      if |changed| > 0 {
        var message := CreatorUpdateText(t, e, changed, lang);
        Announce(NotificationService.EventUpdate(e.id, e.title, e.category, Join(changed, ", ")),
                 caller, "EVENT_UPDATE", message, db, now);
      }
      if Present(data, "start_time") {
        var _ := service.ScheduleEventReminder(e, db, now, formatTime);
      }
    }

    /** The `changedFields` pushes of `updateEvent`. */
    static method CollectChanges(data: seq<Field>, before: Event) returns (changed: seq<string>)
      ensures changed == ChangedFields(data, before)
    {
      changed := [];
      if Present(data, "title") && TextAt(data, "title") != Some(before.title) {
        changed := changed + ["title"];
      }
      assert changed == PushIf([], data, before, TitleAspect);
      if Present(data, "description") && TextAt(data, "description") != Some(before.description) {
        changed := changed + ["description"];
      }
      if Present(data, "start_time") {
        changed := changed + ["time"];
      }
      if Present(data, "address") && TextAt(data, "address") != Some(before.address) {
        changed := changed + ["location"];
      }
    }

    /** The cache deletes of `updateEvent`. */
    method Invalidate(id: nat, before: Event, data: seq<Field>)
      modifies cache
      ensures cache.entries == old(cache.entries) - UpdateInvalidates(id, before, data)
    {
      var _ := cache.Delete(ItemKey(id));
      var _ := cache.Delete(AllListKey);
      var _ := cache.Delete(CategoryListKey(before.category));
      if NewCategory(data, before) {
        var _ := cache.Delete(CategoryListKey(TextAt(data, "category").value));
      }
    }

    /**
     * `deleteEvent`: 404 and 403 as for an update; otherwise the event is
     * cancelled, the cancellation announced, and the item and list keys dropped.
     */
    method DeleteEvent(id: nat, caller: Caller, lang: string, ctx: NotificationService.Db, now: Time,
                       t: NotificationService.Translate) returns (resp: Response)
      requires Valid()
      modifies store, cache, service.table, service.bus
      ensures Valid()
      ensures service.bus.connected == old(service.bus.connected) && service.bus.listeners == old(service.bus.listeners)
      ensures var existing := GetById(old(store.rows), id);
        !(existing.Some? && Authorized(caller, existing.value)) ==>
          && resp == (if existing.None? then Response(404, "events.notFound", None, false)
                      else Response(403, "events.unauthorized", None, false))
          && store.rows == old(store.rows) && cache.entries == old(cache.entries)
          && service.table.rows == old(service.table.rows) && service.bus.published == old(service.bus.published)
      ensures var existing := GetById(old(store.rows), id);
        existing.Some? && Authorized(caller, existing.value) ==>
          var k := IndexOf(old(store.rows), id).value;
          var message := t("events.creatorDelete", map["title" := existing.value.title], lang);
          var p := NotificationService.EventUpdate(existing.value.id, existing.value.title, existing.value.category, "cancelled");
          && IndexOf(old(store.rows), id).Some?
          && resp == Response(200, "events.deleted", None, false)
          && store.rows == old(store.rows)[k := old(store.rows)[k].(status := Cancelled, updatedAt := now)]
          && cache.entries == old(cache.entries) - DeleteInvalidates(id, existing.value)
          && service.table.rows == old(service.table.rows) +
               CreatorNote(caller.id, "EVENT_DELETE", message, Some(existing.value.id), Db(ctx), old(service.table.nextId), now)
          && service.bus.published == old(service.bus.published) +
               AnnounceMessages(p, caller.id, "EVENT_DELETE", message, Db(ctx), service.bus.connected)
    {
      var existing := GetById(store.rows, id);
      if existing.None? {
        return Response(404, "events.notFound", None, false);
      }
      if caller.role != "admin" && CreatedByOf(existing.value) != Some(caller.id) {
        return Response(403, "events.unauthorized", None, false);
      }
      var before := existing.value;
      ghost var k := IndexOf(store.rows, id);
      assert k.Some?;
      var _ := store.Delete(id, now);
      var message := t("events.creatorDelete", map["title" := before.title], lang);
      Announce(NotificationService.EventUpdate(before.id, before.title, before.category, "cancelled"),
               caller.id, "EVENT_DELETE", message, Db(ctx), now);
      Forget(id, before);
      resp := Response(200, "events.deleted", None, false);
    }

    /** The cache deletes of `deleteEvent`. */
    method Forget(id: nat, before: Event)
      modifies cache
      ensures cache.entries == old(cache.entries) - DeleteInvalidates(id, before)
    {
      var _ := cache.Delete(ItemKey(id));
      var _ := cache.Delete(AllListKey);
      var _ := cache.Delete(CategoryListKey(before.category));
    }

    /**
     * `findEventsNearby`: 400 without both coordinates; otherwise read-through
     * caching of the radius search, whose `count` is the number of hits.
     */
    method FindEventsNearby(p: Place, q: Query, castTime: string -> Option<Time>, parseFloat: string -> real,
                            dist: (real, real, real, real) -> real) returns (resp: Response)
      modifies cache
      ensures OrEmpty(p.latitude) == "" || OrEmpty(p.longitude) == "" ==>
        resp == Response(400, "Latitude and longitude are required", None, false) && cache.entries == old(cache.entries)
      ensures OrEmpty(p.latitude) != "" && OrEmpty(p.longitude) != "" ==>
        var key := NearbyKey(p, q);
        && (key in old(cache.entries) ==>
              resp == Response(200, "", Some(old(cache.entries)[key].value), true) && cache.entries == old(cache.entries))
        && (key !in old(cache.entries) && FiltersOf(q.(endDate := None), castTime).Err? ==>
              resp == Response(500, FiltersOf(q.(endDate := None), castTime).message, None, false)
              && cache.entries == old(cache.entries))
        && (key !in old(cache.entries) && FiltersOf(q.(endDate := None), castTime).Ok? ==>
              var lat := parseFloat(p.latitude.value);
              var lon := parseFloat(p.longitude.value);
              var radius := parseFloat(RadiusText(p));
              var hits := FindNearby(store.rows, lat, lon, radius, FiltersOf(q.(endDate := None), castTime).value, dist);
              var b := NearbyList(hits, lat, lon, radius, |hits|);
              && resp == Response(200, "", Some(b), false)
              && cache.entries == old(cache.entries)[key := Entry(b, CacheExpiration)])
    {
      if OrEmpty(p.latitude) == "" || OrEmpty(p.longitude) == "" {
        return Response(400, "Latitude and longitude are required", None, false);
      }
      var key := NearbyKey(p, q);
      var cached := cache.Get(key);
      if cached.Some? {
        return Response(200, "", cached, true);
      }
      var f := FiltersOf(q.(endDate := None), castTime);
      if f.Err? {
        return Response(500, f.message, None, false);
      }
      var lat := parseFloat(p.latitude.value);
      var lon := parseFloat(p.longitude.value);
      var radius := parseFloat(RadiusText(p));
      var hits := FindNearby(store.rows, lat, lon, radius, f.value, dist);
      var b := NearbyList(hits, lat, lon, radius, |hits|);
      var _ := cache.Set(key, b, CacheExpiration);
      resp := Response(200, "", Some(b), false);
    }

    /** `getCategories`: read-through caching of the category list, kept twice as long. */
    method GetCategories() returns (resp: Response)
      modifies cache
      ensures CategoriesKey in old(cache.entries) ==>
        resp == Response(200, "", Some(old(cache.entries)[CategoriesKey].value), true) && cache.entries == old(cache.entries)
      ensures CategoriesKey !in old(cache.entries) ==>
        var b := Categories(EventModel.GetCategories(store.rows));
        resp == Response(200, "", Some(b), false)
        && cache.entries == old(cache.entries)[CategoriesKey := Entry(b, 2 * CacheExpiration)]
    {
      var cached := cache.Get(CategoriesKey);
      if cached.Some? {
        return Response(200, "", cached, true);
      }
      var b := Categories(EventModel.GetCategories(store.rows));
      var _ := cache.Set(CategoriesKey, b, 2 * CacheExpiration);
      resp := Response(200, "", Some(b), false);
    }
  }

  /** The creator's message after an update. */
  function CreatorUpdateText(t: NotificationService.Translate, e: Event, changed: seq<string>, lang: string): string {
    t("events.creatorUpdate", map["title" := e.title, "changes" := Join(changed, ", ")], lang)
  }

  /** The row `sendDirectNotification` adds for the caller: one, unless the insert throws. */
  function CreatorNote(caller: UserId, kind: string, message: string, eventId: Option<nat>,
                       db: NotificationService.Db, id: nat, now: Time): seq<NotificationModel.Notification> {
    if NotificationService.InsertFails(db, caller, eventId) then []
    else [NotificationModel.Notification(id, caller, kind, message, eventId, false, now, now)]
  }

  /** The messages an announcement publishes while the publisher is connected. */
  function AnnounceMessages(p: NotificationService.Payload, caller: UserId, kind: string, message: string,
                            db: NotificationService.Db, connected: bool): seq<Message<NotificationService.Payload>>
    requires p.EventUpdate?
  {
    var push := Message(NotificationService.RealtimeChannel(caller), NotificationService.Realtime(kind, message, Some(p.id)));
    if !connected then []
    else if NotificationService.InsertFails(db, caller, Some(p.id)) then [Message(NotificationService.EventUpdatesChannel, p)]
    else [Message(NotificationService.EventUpdatesChannel, p), push]
  }
}
