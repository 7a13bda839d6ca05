/**
 * The `events` table and the `Event` model over it: insertion, lookup, filtered
 * listing, counting, radius search, patch update, soft delete and categories.
 * The table is a sequence of rows in insertion (primary-key) order.
 */
module EventModel {
  import opened Wrappers
  import opened Strings
  import opened Seqs

  /** The values the `status` column's CHECK constraint admits. */
  datatype EventStatus = Active | Cancelled | Completed

  function StatusName(s: EventStatus): string {
    match s
    case Active => "active"
    case Cancelled => "cancelled"
    case Completed => "completed"
  }

  /** The CHECK constraint: only the three names are accepted. */
  function ParseStatus(s: string): (r: Option<EventStatus>)
    ensures r.Some? <==> s in {"active", "cancelled", "completed"}
    ensures r.Some? ==> StatusName(r.value) == s
  {
    if s == "active" then Some(Active)
    else if s == "cancelled" then Some(Cancelled)
    else if s == "completed" then Some(Completed)
    else None
  }

  /** One stored row; nullable columns are `Option`s. */
  datatype Row = Row(
    id: nat,
    title: string,
    description: Option<string>,
    location: Option<Point>,
    address: string,
    startTime: Time,
    endTime: Time,
    category: string,
    createdBy: Option<UserId>,
    ticketPrice: Option<real>,
    status: EventStatus,
    createdAt: Time,
    updatedAt: Time)

  /**
   * The object the `Event` constructor builds: a fixed set of properties, with
   * '' / 0 / 'active' for absent values. It has no `created_by`, `longitude`
   * or `latitude` property.
   */
  datatype Event = Event(
    id: nat,
    title: string,
    description: string,
    location: Option<Point>,
    address: string,
    startTime: Time,
    endTime: Time,
    category: string,
    ticketPrice: real,
    status: EventStatus,
    createdAt: Time,
    updatedAt: Time)

  /**
   * The `Event` view of a row. `withLocation` is true when the query returned
   * the `location` column (`RETURNING *`); the SELECT queries return
   * `longitude`/`latitude` instead, which the constructor drops.
   */
  function ToEvent(r: Row, withLocation: bool): (e: Event)
    ensures e.id == r.id && e.title == r.title && e.address == r.address && e.category == r.category
    ensures e.status == r.status && e.startTime == r.startTime && e.endTime == r.endTime
    ensures e.description == (if r.description.Some? then r.description.value else "")
    ensures e.location == (if withLocation then r.location else None)
    ensures e.ticketPrice == (if r.ticketPrice.Some? then r.ticketPrice.value else 0.0)
  {
    Event(r.id, r.title,
          if r.description.Some? then r.description.value else "",
          if withLocation then r.location else None,
          r.address, r.startTime, r.endTime, r.category,
          if r.ticketPrice.Some? then r.ticketPrice.value else 0.0,
          r.status, r.createdAt, r.updatedAt)
  }

  /**
   * The `created_by` property of an `Event` object: always undefined, because
   * the constructor does not copy it.
   */
  function CreatedByOf(e: Event): (r: Option<UserId>)
    ensures r.None?
  {
    None
  }

  // ---------------------------------------------------------------------------
  // Request payloads: the entries of a JavaScript object, in insertion order.

  /** One `key: value` entry of an event payload; `Other` is any key that is not a column. */
  datatype Field =
    | Title(text: string)
    | Description(text: string)
    | Address(text: string)
    | StartTime(time: Time)
    | EndTime(time: Time)
    | Category(text: string)
    | Longitude(number: real)
    | Latitude(number: real)
    | TicketPrice(number: real)
    | Status(text: string)
    | CreatedBy(user: UserId)
    | Id(id: int)
    | Other(name: string, text: string)

  function Key(f: Field): string {
    match f
    case Title(_) => "title"
    case Description(_) => "description"
    case Address(_) => "address"
    case StartTime(_) => "start_time"
    case EndTime(_) => "end_time"
    case Category(_) => "category"
    case Longitude(_) => "longitude"
    case Latitude(_) => "latitude"
    case TicketPrice(_) => "ticket_price"
    case Status(_) => "status"
    case CreatedBy(_) => "created_by"
    case Id(_) => "id"
    case Other(name, _) => name
  }

  /**
   * JavaScript truthiness of the value: '' and 0 are falsy. The model carries
   * timestamps already cast, so an empty or uncastable time text cannot be
   * written and a time is always truthy; numbers are numbers, never numeric text.
   */
  predicate Truthy(f: Field) {
    match f
    case StartTime(_) => true
    case EndTime(_) => true
    case Longitude(n) => n != 0.0
    case Latitude(n) => n != 0.0
    case TicketPrice(n) => n != 0.0
    case CreatedBy(u) => u != 0
    case Id(i) => i != 0
    case _ => f.text != ""
  }

  /** The keys of an object are distinct. */
  predicate DistinctKeys(data: seq<Field>) {
    forall i, j :: 0 <= i < j < |data| ==> Key(data[i]) != Key(data[j])
  }

  /** The payload keys that have a constructor of their own, and the table's other columns. */
  predicate IsKnownKey(k: string) {
    k in {"longitude", "latitude", "id", "title", "description", "location", "address", "start_time", "end_time",
          "category", "created_by", "ticket_price", "status", "created_at", "updated_at"}
  }

  /** An object payload: distinct keys, and `Other` only for keys that are not columns. */
  predicate WellFormed(data: seq<Field>) {
    DistinctKeys(data) && forall i :: 0 <= i < |data| && data[i].Other? ==> !IsKnownKey(data[i].name)
  }

  /** `data[key]`: the entry with that key, or undefined. */
  function Lookup(data: seq<Field>, key: string): (r: Option<Field>)
    ensures r.Some? ==> r.value in data && Key(r.value) == key
    ensures r.None? ==> forall f :: f in data ==> Key(f) != key
  {
    if data == [] then None
    else if Key(data[0]) == key then Some(data[0])
    else Lookup(data[1..], key)
  }

  /** `data[key]` is set to a truthy value. */
  predicate Present(data: seq<Field>, key: string) {
    Lookup(data, key).Some? && Truthy(Lookup(data, key).value)
  }

  function TextOf(f: Field): Option<string> {
    if f.Title? || f.Description? || f.Address? || f.Category? || f.Status? || f.Other? then Some(f.text) else None
  }

  function TimeOf(f: Field): Option<Time> {
    if f.StartTime? || f.EndTime? then Some(f.time) else None
  }

  function NumberOf(f: Field): Option<real> {
    if f.Longitude? || f.Latitude? || f.TicketPrice? then Some(f.number) else None
  }

  function TextAt(data: seq<Field>, key: string): Option<string> {
    match Lookup(data, key)
    case None => None
    case Some(f) => TextOf(f)
  }

  function TimeAt(data: seq<Field>, key: string): Option<Time> {
    match Lookup(data, key)
    case None => None
    case Some(f) => TimeOf(f)
  }

  function NumberAt(data: seq<Field>, key: string): Option<real> {
    match Lookup(data, key)
    case None => None
    case Some(f) => NumberOf(f)
  }

  function NotNull(column: string): string {
    "null value in column \"" + column + "\" of relation \"events\" violates not-null constraint"
  }

  const CheckViolation := "new row for relation \"events\" violates check constraint \"events_status_check\""

  // ---------------------------------------------------------------------------
  // Event.create

  /**
   * The row `INSERT … RETURNING *` stores for `data` under primary key `id`:
   * unset columns become NULL (`created_by` is not in the column list at all),
   * the location is NULL unless both coordinates are given, and the status
   * defaults to 'active' only when the key is absent.
   */
  function Inserted(data: seq<Field>, id: nat, now: Time): Result<Row> {
    var title := TextAt(data, "title");
    var address := TextAt(data, "address");
    var start := TimeAt(data, "start_time");
    var end := TimeAt(data, "end_time");
    var category := TextAt(data, "category");
    var status := if Lookup(data, "status").None? then Some(Active)
                  else if TextAt(data, "status").None? then None
                  else ParseStatus(TextAt(data, "status").value);
    var lon := NumberAt(data, "longitude");
    var lat := NumberAt(data, "latitude");
    if title.None? then Err(NotNull("title"))
    else if address.None? then Err(NotNull("address"))
    else if start.None? then Err(NotNull("start_time"))
    else if end.None? then Err(NotNull("end_time"))
    else if category.None? then Err(NotNull("category"))
    else if status.None? then Err(CheckViolation)
    else Ok(Row(id, title.value, TextAt(data, "description"),
                if lon.Some? && lat.Some? then Some(Point(lon.value, lat.value)) else None,
                address.value, start.value, end.value, category.value,
                None, NumberAt(data, "ticket_price"), status.value, now, now))
  }

  /** The insert fails exactly when a NOT NULL column is unset or the status is not admitted. */
  lemma InsertedFails(data: seq<Field>, id: nat, now: Time)
    requires WellFormed(data)
    ensures Inserted(data, id, now).Err? <==>
      Lookup(data, "title").None? || Lookup(data, "address").None? ||
      Lookup(data, "start_time").None? || Lookup(data, "end_time").None? ||
      Lookup(data, "category").None? ||
      (Lookup(data, "status").Some? && ParseStatus(Lookup(data, "status").value.text).None?)
  {
    LookupKind(data, "title");
    LookupKind(data, "address");
    LookupKind(data, "start_time");
    LookupKind(data, "end_time");
    LookupKind(data, "category");
    LookupKind(data, "status");
  }

  /**
   * A stored row records the supplied values, has no creator, defaults the
   * status to active, and has a location exactly when both coordinates are given.
   */
  lemma InsertedRow(data: seq<Field>, id: nat, now: Time)
    requires WellFormed(data)
    requires Inserted(data, id, now).Ok?
    ensures var r := Inserted(data, id, now).value;
      && r.id == id && r.createdAt == now && r.updatedAt == now
      && r.createdBy.None?
      && Lookup(data, "title") == Some(Title(r.title))
      && Lookup(data, "address") == Some(Address(r.address))
      && Lookup(data, "start_time") == Some(StartTime(r.startTime))
      && Lookup(data, "end_time") == Some(EndTime(r.endTime))
      && Lookup(data, "category") == Some(Category(r.category))
      && (Lookup(data, "status").None? ==> r.status == Active)
      && (Lookup(data, "status").Some? ==> Lookup(data, "status") == Some(Status(StatusName(r.status))))
      && (r.location.Some? <==> Lookup(data, "longitude").Some? && Lookup(data, "latitude").Some?)
      && (r.location.Some? ==>
            Lookup(data, "longitude") == Some(Longitude(r.location.value.longitude)) &&
            Lookup(data, "latitude") == Some(Latitude(r.location.value.latitude)))
  {
    LookupKind(data, "title");
    LookupKind(data, "address");
    LookupKind(data, "start_time");
    LookupKind(data, "end_time");
    LookupKind(data, "category");
    LookupKind(data, "status");
    LookupKind(data, "longitude");
    LookupKind(data, "latitude");
  }

  /** In a well-formed payload the entry found under a column key has that column's kind. */
  lemma LookupKind(data: seq<Field>, key: string)
    requires WellFormed(data)
    ensures Lookup(data, key).Some? ==> !Lookup(data, key).value.Other? || !IsKnownKey(key)
    ensures key == "title" && Lookup(data, key).Some? ==> Lookup(data, key).value.Title?
    ensures key == "address" && Lookup(data, key).Some? ==> Lookup(data, key).value.Address?
    ensures key == "start_time" && Lookup(data, key).Some? ==> Lookup(data, key).value.StartTime?
    ensures key == "end_time" && Lookup(data, key).Some? ==> Lookup(data, key).value.EndTime?
    ensures key == "category" && Lookup(data, key).Some? ==> Lookup(data, key).value.Category?
    ensures key == "status" && Lookup(data, key).Some? ==> Lookup(data, key).value.Status?
    ensures key == "longitude" && Lookup(data, key).Some? ==> Lookup(data, key).value.Longitude?
    ensures key == "latitude" && Lookup(data, key).Some? ==> Lookup(data, key).value.Latitude?
  {
    if Lookup(data, key).Some? {
      var f := Lookup(data, key).value;
      var i :| 0 <= i < |data| && data[i] == f;
      assert f.Other? ==> !IsKnownKey(f.name);
      assert IsKnownKey("title") && IsKnownKey("address") && IsKnownKey("start_time") && IsKnownKey("end_time");
      assert IsKnownKey("category") && IsKnownKey("status") && IsKnownKey("longitude") && IsKnownKey("latitude");
    }
  }

  // ---------------------------------------------------------------------------
  // Event.update

  /** Keys the update loop skips; the coordinates are handled afterwards. */
  predicate Skipped(f: Field) {
    f.Id? || f.Longitude? || f.Latitude?
  }

  /** The `SET key = value` assignments the update loop collects, in entry order. */
  function Assignments(data: seq<Field>): seq<Field> {
    Filter(data, (f: Field) => !Skipped(f))
  }

  /** Some assignment names a column the table does not have. */
  predicate UnknownColumn(sets: seq<Field>) {
    exists f :: f in sets && f.Other?
  }

  /** One assignment applied to a row. */
  function Assign(r: Row, f: Field): Result<Row> {
    match f
    case Title(t) => Ok(r.(title := t))
    case Description(t) => Ok(r.(description := Some(t)))
    case Address(t) => Ok(r.(address := t))
    case StartTime(t) => Ok(r.(startTime := t))
    case EndTime(t) => Ok(r.(endTime := t))
    case Category(t) => Ok(r.(category := t))
    case TicketPrice(p) => Ok(r.(ticketPrice := Some(p)))
    case CreatedBy(u) => Ok(r.(createdBy := Some(u)))
    case Status(s) =>
      if ParseStatus(s).Some? then Ok(r.(status := ParseStatus(s).value)) else Err(CheckViolation)
    case Other(k, _) => Err("column \"" + k + "\" of relation \"events\" does not exist")
    case _ => Ok(r)
  }

  /** All assignments applied in order; the first failing one aborts the statement. */
  function AssignAll(r: Row, sets: seq<Field>): Result<Row>
    decreases |sets|
  {
    if sets == [] then Ok(r)
    else match Assign(r, sets[0])
      case Err(m) => Err(m)
      case Ok(r') => AssignAll(r', sets[1..])
  }

  /** The location changes only when both coordinates are truthy. */
  function Relocated(r: Row, data: seq<Field>): Row {
    if Present(data, "longitude") && Present(data, "latitude")
       && NumberAt(data, "longitude").Some? && NumberAt(data, "latitude").Some?
    then r.(location := Some(Point(NumberAt(data, "longitude").value, NumberAt(data, "latitude").value)))
    else r
  }

  /** The row `UPDATE events SET …, updated_at = NOW() WHERE id = …` leaves behind. */
  function Updated(r: Row, data: seq<Field>, now: Time): Result<Row> {
    match AssignAll(r, Assignments(data))
    case Err(m) => Err(m)
    case Ok(r') => Ok(Relocated(r', data).(updatedAt := now))
  }

  /** `row`'s column for `f` holds `f`'s value (trivially true for keys the loop skips). */
  predicate Holds(r: Row, f: Field) {
    match f
    case Title(t) => r.title == t
    case Description(t) => r.description == Some(t)
    case Address(t) => r.address == t
    case StartTime(t) => r.startTime == t
    case EndTime(t) => r.endTime == t
    case Category(t) => r.category == t
    case TicketPrice(p) => r.ticketPrice == Some(p)
    case CreatedBy(u) => r.createdBy == Some(u)
    case Status(s) => ParseStatus(s) == Some(r.status)
    case _ => true
  }

  /** The two rows agree on the column named `k`. */
  predicate SameColumn(a: Row, b: Row, k: string) {
    match k
    case "id" => a.id == b.id
    case "title" => a.title == b.title
    case "description" => a.description == b.description
    case "location" => a.location == b.location
    case "address" => a.address == b.address
    case "start_time" => a.startTime == b.startTime
    case "end_time" => a.endTime == b.endTime
    case "category" => a.category == b.category
    case "created_by" => a.createdBy == b.createdBy
    case "ticket_price" => a.ticketPrice == b.ticketPrice
    case "status" => a.status == b.status
    case "created_at" => a.createdAt == b.createdAt
    case "updated_at" => a.updatedAt == b.updatedAt
    case _ => true
  }

  lemma AssignOthers(r: Row, f: Field, k: string)
    requires Assign(r, f).Ok? && Key(f) != k && IsKnownKey(k)
    ensures SameColumn(r, Assign(r, f).value, k)
  {
  }

  lemma {:induction false} AssignAllOthers(r: Row, sets: seq<Field>, k: string)
    requires AssignAll(r, sets).Ok? && IsKnownKey(k)
    requires forall f :: f in sets ==> Key(f) != k
    ensures SameColumn(r, AssignAll(r, sets).value, k)
    decreases |sets|
  {
    if sets != [] {
      AssignOthers(r, sets[0], k);
      AssignAllOthers(Assign(r, sets[0]).value, sets[1..], k);
    }
  }

  lemma {:induction false} AssignAllWrites(r: Row, sets: seq<Field>)
    requires AssignAll(r, sets).Ok? && DistinctKeys(sets)
    requires forall f :: f in sets ==> !f.Other?
    ensures forall f :: f in sets ==> Holds(AssignAll(r, sets).value, f)
    decreases |sets|
  {
    if sets != [] {
      var r' := Assign(r, sets[0]).value;
      var rest := sets[1..];
      AssignAllWrites(r', rest);
      assert forall f :: f in rest ==> Key(f) != Key(sets[0]) by {
        forall f | f in rest ensures Key(f) != Key(sets[0]) {
          var i :| 0 <= i < |rest| && rest[i] == f;
          assert sets[i + 1] == f;
        }
      }
      AssignHolds(r, sets[0]);
      if IsKnownKey(Key(sets[0])) {
        AssignAllOthers(r', rest, Key(sets[0]));
        HoldsSameColumn(r', AssignAll(r, sets).value, sets[0]);
      }
    }
  }

  lemma AssignHolds(r: Row, f: Field)
    requires Assign(r, f).Ok?
    ensures Holds(Assign(r, f).value, f)
  {
  }

  lemma HoldsSameColumn(a: Row, b: Row, f: Field)
    requires Holds(a, f) && SameColumn(a, b, Key(f))
    ensures Holds(b, f)
  {
  }

  lemma {:induction false} AssignAllFails(r: Row, sets: seq<Field>)
    ensures AssignAll(r, sets).Err? <==>
      exists f :: f in sets && (f.Other? || (f.Status? && ParseStatus(f.text).None?))
    decreases |sets|
  {
    if sets != [] {
      if Assign(r, sets[0]).Ok? {
        AssignAllFails(Assign(r, sets[0]).value, sets[1..]);
        assert sets == [sets[0]] + sets[1..];
      }
    }
  }

  lemma {:induction false} AssignmentsDistinct(data: seq<Field>)
    requires DistinctKeys(data)
    ensures DistinctKeys(Assignments(data))
    decreases |data|
  {
    if data != [] {
      AssignmentsDistinct(data[1..]);
      assert Assignments(data) == (if Skipped(data[0]) then [] else [data[0]]) + Assignments(data[1..]);
      forall f | f in Assignments(data[1..]) ensures Key(f) != Key(data[0]) {
        var i :| 0 <= i < |data[1..]| && data[1..][i] == f;
        assert data[i + 1] == f;
      }
    }
  }

  /**
   * What an update writes: every supplied key except id and the coordinates
   * holds its new value, the location is replaced only when both coordinates
   * are truthy, and `updated_at` is the current time.
   */
  lemma UpdatedWrites(r: Row, data: seq<Field>, now: Time)
    requires WellFormed(data) && Updated(r, data, now).Ok?
    ensures var u := Updated(r, data, now).value;
      && (forall f :: f in data ==> Holds(u, f))
      && u.updatedAt == now
      && (u.location != r.location ==> Present(data, "longitude") && Present(data, "latitude"))
      && (Present(data, "longitude") && Present(data, "latitude") ==>
            && NumberAt(data, "longitude").Some? && NumberAt(data, "latitude").Some?
            && u.location == Some(Point(NumberAt(data, "longitude").value, NumberAt(data, "latitude").value)))
  {
    CoordinateNumbers(data);
    var sets := Assignments(data);
    AssignmentsDistinct(data);
    AssignAllFails(r, sets);
    AssignAllWrites(r, sets);
    AssignAllOthers(r, sets, "location");
    var a := AssignAll(r, sets).value;
    forall f | f in data ensures Holds(Updated(r, data, now).value, f) {
      if !Skipped(f) {
        assert f in sets;
        HoldsAfterRelocating(a, data, now, f);
      }
    }
  }

  /** In an object payload the coordinate keys carry numbers. */
  lemma CoordinateNumbers(data: seq<Field>)
    requires WellFormed(data)
    ensures Lookup(data, "longitude").Some? ==> NumberAt(data, "longitude").Some?
    ensures Lookup(data, "latitude").Some? ==> NumberAt(data, "latitude").Some?
  {
    forall k | k == "longitude" || k == "latitude"
      ensures Lookup(data, k).Some? ==> NumberAt(data, k).Some?
    {
      if Lookup(data, k).Some? {
        var f := Lookup(data, k).value;
        var i :| 0 <= i < |data| && data[i] == f;
        assert !f.Other?;
      }
    }
  }

  /** Moving the row and stamping it leave the assigned columns alone. */
  lemma HoldsAfterRelocating(a: Row, data: seq<Field>, now: Time, f: Field)
    requires Holds(a, f)
    ensures Holds(Relocated(a, data).(updatedAt := now), f)
  {
  }

  /** Nothing else changes: a column no entry names keeps its value, and so does the id. */
  lemma UpdatedKeeps(r: Row, data: seq<Field>, now: Time, k: string)
    requires WellFormed(data) && Updated(r, data, now).Ok?
    requires IsKnownKey(k) && k != "location" && k != "updated_at"
    requires k == "id" || Lookup(data, k).None?
    ensures SameColumn(r, Updated(r, data, now).value, k)
  {
    var sets := Assignments(data);
    forall f | f in sets ensures Key(f) != k {
      var i :| 0 <= i < |data| && data[i] == f;
    }
    AssignAllOthers(r, sets, k);
    SameColumnAfterRelocating(r, AssignAll(r, sets).value, data, now, k);
  }

  lemma SameColumnAfterRelocating(r: Row, a: Row, data: seq<Field>, now: Time, k: string)
    requires SameColumn(r, a, k) && k != "location" && k != "updated_at"
    ensures SameColumn(r, Relocated(a, data).(updatedAt := now), k)
  {
  }

  /** An update fails exactly when a key is not a column or a status is not admitted. */
  lemma UpdatedFails(r: Row, data: seq<Field>, now: Time)
    ensures Updated(r, data, now).Err? <==>
      exists f :: f in data && (f.Other? || (f.Status? && ParseStatus(f.text).None?))
  {
    AssignAllFails(r, Assignments(data));
  }

  // ---------------------------------------------------------------------------
  // Read-only queries

  predicate Live(r: Row) { r.status != Cancelled }

  /** The first index holding primary key `id`. */
  function IndexOf(rows: seq<Row>, id: int): (k: Option<nat>)
    ensures k.Some? ==> k.value < |rows| && rows[k.value].id == id
    ensures k.Some? ==> forall i :: 0 <= i < k.value ==> rows[i].id != id
    ensures k.None? ==> forall i :: 0 <= i < |rows| ==> rows[i].id != id
  {
    if rows == [] then None
    else if rows[0].id == id then Some(0)
    else match IndexOf(rows[1..], id)
      case None => None
      case Some(k) => Some(k + 1)
  }

  /** `getById`: `WHERE id = $1 AND status != 'cancelled'`. */
  function GetById(rows: seq<Row>, id: int): (e: Option<Event>)
    ensures e.Some? <==> exists r :: r in rows && r.id == id && Live(r)
    ensures e.Some? ==> exists r :: r in rows && r.id == id && Live(r) && e.value == ToEvent(r, false)
  {
    var hits := Filter(rows, (r: Row) => r.id == id && Live(r));
    if hits == [] then None
    else assert hits[0] in hits; Some(ToEvent(hits[0], false))
  }

  /**
   * Query-string filters. An empty string is an absent (falsy) filter; a date
   * is `None` when absent; `limit`/`offset` are `parseInt` results, `None`
   * standing for NaN.
   */
  datatype Filters = Filters(
    name: string,
    category: string,
    startDate: Option<Time>,
    endDate: Option<Time>,
    address: string,
    createdBy: string,
    limit: Option<int>,
    offset: Option<int>)

  /** JavaScript truthiness of a `parseInt` result: NaN and 0 are falsy. */
  predicate TruthyInt(n: Option<int>) { n.Some? && n.value != 0 }

  /** `LOWER(column) LIKE LOWER('%' || part || '%')`; an empty filter matches everything. */
  predicate LikeMatch(column: string, part: string) {
    part == "" || Contains(Lower(column), Lower(part))
  }

  /** The WHERE clause of `getAll` (`created_by` is never consulted). */
  predicate Listed(r: Row, f: Filters) {
    && Live(r)
    && LikeMatch(r.title, f.name)
    && (f.category == "" || r.category == f.category)
    && (f.startDate.None? || r.startTime >= f.startDate.value)
    && (f.endDate.None? || r.endTime <= f.endDate.value)
    && LikeMatch(r.address, f.address)
  }

  /** The WHERE clause of `count`: the category is trimmed and there is no end-date clause. */
  predicate Counted(r: Row, f: Filters) {
    && Live(r)
    && LikeMatch(r.title, f.name)
    && (Trim(f.category) == "" || r.category == Trim(f.category))
    && (f.startDate.None? || r.startTime >= f.startDate.value)
    && LikeMatch(r.address, f.address)
  }

  function StartKey(r: Row): real { r.startTime as real }

  /** The OFFSET `getAll` applies: only inside the LIMIT branch, and only when truthy. */
  function OffsetUsed(f: Filters): int {
    if TruthyInt(f.offset) then f.offset.value else 0
  }

  /** Every row the WHERE clause of `getAll` admits, in `ORDER BY start_time ASC` order. */
  function Matches(rows: seq<Row>, f: Filters): seq<Row> {
    SortBy(Filter(rows, (x: Row) => Listed(x, f)), StartKey)
  }

  /** The rows `getAll` returns, before the `Event` constructor is applied. */
  function ListRows(rows: seq<Row>, f: Filters): (r: Result<seq<Row>>)
    ensures r.Err? <==> TruthyInt(f.limit) && (f.limit.value < 0 || OffsetUsed(f) < 0)
    ensures r.Ok? ==> forall x :: x in r.value ==> x in rows && Listed(x, f)
    ensures r.Ok? ==> SortedBy(r.value, StartKey)
    ensures r.Ok? && TruthyInt(f.limit) ==> |r.value| == Min(f.limit.value, Max(0, |Matches(rows, f)| - OffsetUsed(f)))
    ensures r.Ok? && TruthyInt(f.limit) ==> forall i :: 0 <= i < |r.value| ==>
      OffsetUsed(f) + i < |Matches(rows, f)| && r.value[i] == Matches(rows, f)[OffsetUsed(f) + i]
    ensures r.Ok? && !TruthyInt(f.limit) ==> r.value == Matches(rows, f)
    ensures r.Ok? && !TruthyInt(f.limit) ==> multiset(r.value) == multiset(Filter(rows, (x: Row) => Listed(x, f)))
  {
    var matching := Filter(rows, (x: Row) => Listed(x, f));
    var sorted := Matches(rows, f);
    SortByCorrect(matching, StartKey);
    SortByMembers(matching, StartKey);
    if TruthyInt(f.limit) then
      var page := Page(sorted, f.limit.value, OffsetUsed(f));
      if page.Ok? then PageOfSorted(sorted, f.limit.value, OffsetUsed(f), StartKey); page
      else page
    else
      Ok(sorted)
  }

  /** `getAll`: the listed rows as `Event` objects. */
  function GetAll(rows: seq<Row>, f: Filters): (r: Result<seq<Event>>)
    ensures r.Ok? <==> ListRows(rows, f).Ok?
    ensures r.Ok? ==> |r.value| == |ListRows(rows, f).value|
    ensures r.Ok? ==> forall i :: 0 <= i < |r.value| ==> r.value[i] == ToEvent(ListRows(rows, f).value[i], false)
  {
    match ListRows(rows, f)
    case Err(m) => Err(m)
    case Ok(rs) => Ok(Map(rs, (x: Row) => ToEvent(x, false)))
  }

  /** `count`: the number of rows its own WHERE clause admits; no pagination. */
  function Count(rows: seq<Row>, f: Filters): (n: nat)
    ensures n <= |rows|
  {
    |Filter(rows, (x: Row) => Counted(x, f))|
  }

  /** Listing and counting agree exactly when neither the end date nor the limit is in play. */
  lemma CountMatchesList(rows: seq<Row>, f: Filters)
    requires f.endDate.None? && !TruthyInt(f.limit) && f.category == Trim(f.category)
    ensures ListRows(rows, f).Ok?
    ensures Count(rows, f) == |ListRows(rows, f).value|
  {
    FilterCongruent(rows, (x: Row) => Listed(x, f), (x: Row) => Counted(x, f));
    var l := ListRows(rows, f).value;
    assert |multiset(l)| == |multiset(Filter(rows, (x: Row) => Listed(x, f)))|;
  }

  /** A list filter never admits more rows than the count for the same query: the count ignores the end date. */
  lemma ListNeverExceedsCount(rows: seq<Row>, f: Filters)
    requires f.category == Trim(f.category) && ListRows(rows, f).Ok?
    ensures |ListRows(rows, f).value| <= Count(rows, f)
  {
    TrimmedBare(f.category);
    ListedAllCounted(rows, f);
    FilterStronger(rows, (x: Row) => Listed(x, f), (x: Row) => Counted(x, f));
    var matching := Filter(rows, (x: Row) => Listed(x, f));
    SortByCorrect(matching, StartKey);
    if !TruthyInt(f.limit) {
      assert |multiset(ListRows(rows, f).value)| == |multiset(matching)|;
    }
  }

  /**
   * The two queries disagree on every row that ends after the end date but
   * meets the other filters: `count` has no end-date clause, so it counts the
   * row, and `getAll` leaves it out; the total then exceeds what the list can hold.
   */
  lemma EndDateDisagreement(rows: seq<Row>, f: Filters, r: Row)
    requires f.endDate.Some? && Bare(f.category)
    requires Listed(r, f.(endDate := None)) && r.endTime > f.endDate.value
    ensures Counted(r, f)
    ensures r in rows && ListRows(rows, f).Ok? ==> r !in ListRows(rows, f).value
    ensures r in rows ==> |Filter(rows, (x: Row) => Listed(x, f))| < Count(rows, f)
    ensures !Listed(r, f)
  {
    ListedCounted(r, f.(endDate := None));
    if r in rows {
      CountExceedsList(rows, f, r);
    }
  }

  /** A counted row past the end date makes the count exceed the number of listed rows. */
  lemma CountExceedsList(rows: seq<Row>, f: Filters, r: Row)
    requires f.endDate.Some? && Bare(f.category)
    requires r in rows && Counted(r, f) && r.endTime > f.endDate.value
    ensures |Filter(rows, (x: Row) => Listed(x, f))| < Count(rows, f)
  {
    ListedAllCounted(rows, f);
    ListedEndBefore(rows, f, r);
    FilterStrictlyStronger(rows, (x: Row) => Listed(x, f), (x: Row) => Counted(x, f), r);
  }

  /** With a trimmed category, whatever `getAll` admits `count` admits too. */
  lemma ListedCounted(r: Row, f: Filters)
    requires Bare(f.category) && Listed(r, f)
    ensures Counted(r, f)
  {
    BareTrimmed(f.category);
  }

  /** A row past the end date is none of the listed rows. */
  lemma ListedEndBefore(rows: seq<Row>, f: Filters, r: Row)
    requires f.endDate.Some? && r.endTime > f.endDate.value
    ensures forall x :: x in rows && Listed(x, f) ==> x != r
  {
  }

  lemma ListedAllCounted(rows: seq<Row>, f: Filters)
    requires Bare(f.category)
    ensures forall x :: x in rows && Listed(x, f) ==> Counted(x, f)
  {
    forall x | x in rows && Listed(x, f) ensures Counted(x, f) {
      ListedCounted(x, f);
    }
  }

  /** `getAll` ignores `created_by`: the same page whatever creator was asked for. */
  lemma ListIgnoresCreator(rows: seq<Row>, f: Filters, creator: string)
    ensures ListRows(rows, f) == ListRows(rows, f.(createdBy := creator))
  {
    var g := f.(createdBy := creator);
    FilterCongruent(rows, (x: Row) => Listed(x, f), (x: Row) => Listed(x, g));
  }

  /** One radius-search hit: the event and its distance from the centre in km. */
  datatype Nearby = Nearby(event: Event, distanceKm: real)

  /** Distance in km from the centre to the row's location (rows without one are never in range). */
  function DistanceTo(r: Row, lat: real, lon: real, dist: (real, real, real, real) -> real): real {
    if r.location.Some? then dist(lat, lon, r.location.value.latitude, r.location.value.longitude) else 0.0
  }

  /** The WHERE clause of `findNearby`: in range, live, name, trimmed category, start date, address. */
  predicate InRange(r: Row, lat: real, lon: real, radiusKm: real, f: Filters, dist: (real, real, real, real) -> real) {
    && r.location.Some?
    && DistanceTo(r, lat, lon, dist) <= radiusKm
    && Counted(r, f)
  }

  /** The rows `findNearby` returns, nearest first; no end date, limit or offset. */
  function NearbyRows(rows: seq<Row>, lat: real, lon: real, radiusKm: real, f: Filters,
                      dist: (real, real, real, real) -> real): (r: seq<Row>)
    ensures forall x :: x in r ==> x in rows && InRange(x, lat, lon, radiusKm, f, dist)
    ensures multiset(r) == multiset(Filter(rows, (x: Row) => InRange(x, lat, lon, radiusKm, f, dist)))
    ensures SortedBy(r, (x: Row) => DistanceTo(x, lat, lon, dist))
  {
    var matching := Filter(rows, (x: Row) => InRange(x, lat, lon, radiusKm, f, dist));
    SortByCorrect(matching, (x: Row) => DistanceTo(x, lat, lon, dist));
    SortByMembers(matching, (x: Row) => DistanceTo(x, lat, lon, dist));
    SortBy(matching, (x: Row) => DistanceTo(x, lat, lon, dist))
  }

  /** `findNearby`: each hit is the `Event` object spread with its `distance_km`. */
  function FindNearby(rows: seq<Row>, lat: real, lon: real, radiusKm: real, f: Filters,
                      dist: (real, real, real, real) -> real): (r: seq<Nearby>)
    ensures |r| == |NearbyRows(rows, lat, lon, radiusKm, f, dist)|
    ensures forall i :: 0 <= i < |r| ==>
      var x := NearbyRows(rows, lat, lon, radiusKm, f, dist)[i];
      r[i] == Nearby(ToEvent(x, false), DistanceTo(x, lat, lon, dist))
  {
    var rs := NearbyRows(rows, lat, lon, radiusKm, f, dist);
    Map(rs, (x: Row) => Nearby(ToEvent(x, false), DistanceTo(x, lat, lon, dist)))
  }

  /** Radius-search hits are live, within the radius, and nearest first. */
  lemma FindNearbySound(rows: seq<Row>, lat: real, lon: real, radiusKm: real, f: Filters,
                        dist: (real, real, real, real) -> real)
    ensures var r := FindNearby(rows, lat, lon, radiusKm, f, dist);
      && (forall i :: 0 <= i < |r| ==> r[i].event.status != Cancelled && r[i].distanceKm <= radiusKm)
      && (forall i, j :: 0 <= i < j < |r| ==> r[i].distanceKm <= r[j].distanceKm)
  {
    var rs := NearbyRows(rows, lat, lon, radiusKm, f, dist);
    var r := FindNearby(rows, lat, lon, radiusKm, f, dist);
    forall i | 0 <= i < |r| ensures r[i].event.status != Cancelled && r[i].distanceKm <= radiusKm {
      assert rs[i] in rs;
    }
  }

  /** `getCategories`: `SELECT DISTINCT category … WHERE status != 'cancelled' ORDER BY category`. */
  function GetCategories(rows: seq<Row>): (r: seq<string>)
    ensures StrictlySorted(r)
    ensures forall c :: c in r <==> exists x :: x in rows && Live(x) && x.category == c
  {
    var live := Filter(rows, Live);
    var cats := Map(live, (x: Row) => x.category);
    SortedDistinctCorrect(cats);
    assert forall c :: c in cats <==> exists x :: x in live && x.category == c by {
      forall c | c in cats ensures exists x :: x in live && x.category == c {
        var i :| 0 <= i < |cats| && cats[i] == c;
        assert live[i] in live;
      }
      forall c | (exists x :: x in live && x.category == c) ensures c in cats {
        var x :| x in live && x.category == c;
        var i :| 0 <= i < |live| && live[i] == x;
        assert cats[i] == c;
      }
    }
    SortedDistinct(cats)
  }

  // ---------------------------------------------------------------------------
  // The table

  /** Primary keys are positive, increase in insertion order and stay below the sequence. */
  ghost predicate StoreInvariant(rows: seq<Row>, nextId: nat) {
    && nextId >= 1
    && (forall i :: 0 <= i < |rows| ==> 1 <= rows[i].id < nextId)
    && (forall i, j :: 0 <= i < j < |rows| ==> rows[i].id < rows[j].id)
  }

  lemma StoreNextId(rows: seq<Row>, nextId: nat)
    requires StoreInvariant(rows, nextId)
    ensures StoreInvariant(rows, nextId + 1)
  {
  }

  lemma StoreAppend(rows: seq<Row>, nextId: nat, row: Row)
    requires StoreInvariant(rows, nextId) && row.id == nextId
    ensures StoreInvariant(rows + [row], nextId + 1)
  {
    var rows' := rows + [row];
    forall i | 0 <= i < |rows'| ensures 1 <= rows'[i].id < nextId + 1 {
      if i < |rows| {
        assert rows'[i] == rows[i];
      }
    }
    forall i, j | 0 <= i < j < |rows'| ensures rows'[i].id < rows'[j].id {
      assert rows'[i] == rows[i];
      if j < |rows| {
        assert rows'[j] == rows[j];
      }
    }
  }

  lemma StoreReplace(rows: seq<Row>, nextId: nat, k: nat, row: Row)
    requires StoreInvariant(rows, nextId) && k < |rows| && row.id == rows[k].id
    ensures StoreInvariant(rows[k := row], nextId)
  {
    var rows' := rows[k := row];
    assert forall i :: 0 <= i < |rows'| ==> rows'[i].id == rows[i].id;
  }

  /** No assignment touches the primary key. */
  lemma AssignKeepsId(r: Row, f: Field)
    requires Assign(r, f).Ok?
    ensures Assign(r, f).value.id == r.id
  {
  }

  lemma {:induction false} AssignAllKeepsId(r: Row, sets: seq<Field>)
    requires AssignAll(r, sets).Ok?
    ensures AssignAll(r, sets).value.id == r.id
    decreases |sets|
  {
    if sets != [] {
      AssignKeepsId(r, sets[0]);
      AssignAllKeepsId(Assign(r, sets[0]).value, sets[1..]);
    }
  }

  /** The `events` table and its SERIAL primary-key sequence. */
  class EventStore {
    var rows: seq<Row>
    var nextId: nat

    ghost predicate Valid()
      reads this
    {
      StoreInvariant(rows, nextId)
    }

    constructor ()
      ensures Valid() && rows == [] && nextId == 1
    {
      rows := [];
      nextId := 1;
    }

    /**
     * `Event.create`: inserts the row for `data`. The sequence advances even
     * when the insert is rejected, as PostgreSQL's `nextval` does.
     */
    method Create(data: seq<Field>, now: Time) returns (r: Result<Event>)
      requires Valid()
      modifies this
      ensures Valid()
      ensures nextId == old(nextId) + 1
      ensures r.Ok? <==> Inserted(data, old(nextId), now).Ok?
      ensures r.Ok? ==>
        rows == old(rows) + [Inserted(data, old(nextId), now).value] &&
        r.value == ToEvent(Inserted(data, old(nextId), now).value, true)
      ensures r.Err? ==> rows == old(rows) && r.message == Inserted(data, old(nextId), now).message
    {
      var id := nextId;
      var row := Inserted(data, id, now);
      if row.Err? {
        StoreNextId(rows, nextId);
        nextId := nextId + 1;
        return Err(row.message);
      }
      StoreAppend(rows, nextId, row.value);
      nextId := nextId + 1;
      rows := rows + [row.value];
      r := Ok(ToEvent(row.value, true));
    }

    /**
     * `Event.update`: collects the assignments by walking the entries, then
     * patches the row with that id, whatever its status.
     */
    method Update(id: int, data: seq<Field>, now: Time) returns (r: Result<Option<Event>>)
      requires Valid()
      modifies this
      ensures Valid() && nextId == old(nextId)
      ensures r.Err? <==>
        UnknownColumn(Assignments(data)) ||
        (IndexOf(old(rows), id).Some? && Updated(old(rows)[IndexOf(old(rows), id).value], data, now).Err?)
      ensures r == Ok(None) <==> !UnknownColumn(Assignments(data)) && IndexOf(old(rows), id).None?
      ensures r.Ok? && r.value.Some? ==>
        var k := IndexOf(old(rows), id).value;
        var u := Updated(old(rows)[k], data, now).value;
        rows == old(rows)[k := u] && r.value.value == ToEvent(u, true)
      ensures !(r.Ok? && r.value.Some?) ==> rows == old(rows)
    {
      var sets: seq<Field> := [];
      var i := 0;
      while i < |data|
        invariant 0 <= i <= |data|
        invariant sets == Assignments(data[..i])
        invariant rows == old(rows) && nextId == old(nextId)
      {
        FilterAppend(data[..i], [data[i]], (f: Field) => !Skipped(f));
        assert data[..i + 1] == data[..i] + [data[i]];
        if !Skipped(data[i]) {
          sets := sets + [data[i]];
        }
        i := i + 1;
      }
      assert data[..i] == data;
      if exists f :: f in sets && f.Other? {
        var f :| f in sets && f.Other?;
        return Err("column \"" + f.name + "\" of relation \"events\" does not exist");
      }
      var k := IndexOf(rows, id);
      if k.None? {
        return Ok(None);
      }
      var res := AssignAll(rows[k.value], sets);
      if res.Err? {
        return Err(res.message);
      }
      AssignAllKeepsId(rows[k.value], sets);
      var cur := res.value;
      var u := Relocated(cur, data).(updatedAt := now);
      StoreReplace(rows, nextId, k.value, u);
      rows := rows[k.value := u];
      r := Ok(Some(ToEvent(u, true)));
    }

    /**
     * `Event.delete`: a soft delete. The row with that id, cancelled or not,
     * gets status 'cancelled'; the result says whether there was one.
     */
    method Delete(id: int, now: Time) returns (found: bool)
      requires Valid()
      modifies this
      ensures Valid() && nextId == old(nextId)
      ensures found <==> exists x :: x in old(rows) && x.id == id
      ensures found ==> var k := IndexOf(old(rows), id).value;
        rows == old(rows)[k := old(rows)[k].(status := Cancelled, updatedAt := now)]
      ensures !found ==> rows == old(rows)
    {
      var k := IndexOf(rows, id);
      if k.None? {
        return false;
      }
      StoreReplace(rows, nextId, k.value, rows[k.value].(status := Cancelled, updatedAt := now));
      rows := rows[k.value := rows[k.value].(status := Cancelled, updatedAt := now)];
      found := true;
    }
  }

  /** Primary keys are distinct in a valid table. */
  predicate UniqueIds(rows: seq<Row>) {
    forall i, j :: 0 <= i < j < |rows| ==> rows[i].id != rows[j].id
  }

  /** After a soft delete the event can no longer be looked up. */
  lemma DeletedNotFound(rows: seq<Row>, id: int, now: Time)
    requires UniqueIds(rows) && IndexOf(rows, id).Some?
    ensures var k := IndexOf(rows, id).value;
      GetById(rows[k := rows[k].(status := Cancelled, updatedAt := now)], id).None?
  {
    var k := IndexOf(rows, id).value;
    var after := rows[k := rows[k].(status := Cancelled, updatedAt := now)];
    forall x | x in after && x.id == id ensures !Live(x) {
      var i :| 0 <= i < |after| && after[i] == x;
    }
  }
}
