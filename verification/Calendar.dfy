/** The slot calendar of the fields: creating, moving, deleting and bulk-creating time slots. */
module Calendar {
  import opened Wrappers

  type UserId = nat
  type FieldId = nat
  type SlotId = nat

  datatype Status = Available | Booked | Blocked

  /** `date` is a day number, `start` and `end` are minutes of that day, `price` is in cents. */
  datatype Slot = Slot(field: FieldId, date: int, start: int, end: int, price: int, status: Status)

  datatype Field = Field(owner: UserId, deleted: bool)

  /** New rows get the next id, which stands for a random UUID. */
  datatype Table = Table(slots: map<SlotId, Slot>, nextId: SlotId)

  datatype Range = Range(start: int, end: int, price: int)

  // ---------- the overlap filter ----------

  /** The filter's three clauses: the new slot starts during, ends during, or contains the existing one. */
  predicate Clashes(stored: Slot, start: int, end: int) {
    || (stored.start <= start && stored.end > start)
    || (stored.start < end && stored.end >= end)
    || (stored.start >= start && stored.end <= end)
  }

  /** Half-open intervals of the same field and day that do not meet. */
  predicate Apart(a: Slot, b: Slot) {
    a.field != b.field || a.date != b.date || a.end <= b.start || b.end <= a.start
  }

  predicate Covers(s: Slot, minute: int) {
    s.start <= minute < s.end
  }

  /** For proper intervals the filter finds exactly the slots that intersect the new one. */
  lemma FilterIsIntersection(stored: Slot, s: Slot)
    requires stored.start < stored.end && s.start < s.end && stored.field == s.field && stored.date == s.date
    ensures Clashes(stored, s.start, s.end) <==> !Apart(stored, s)
    ensures Clashes(stored, s.start, s.end) <==> exists minute :: Covers(stored, minute) && Covers(s, minute)
  {
    if !Apart(stored, s) {
      var minute := if stored.start <= s.start then s.start else stored.start;
      assert Covers(stored, minute) && Covers(s, minute);
    }
  }

  /** The filter is wrong only for intervals that are not proper, which every writer refuses. */
  lemma FilterNeedsProperIntervals()
    ensures Clashes(Slot(0, 0, 5, 5, 1, Available), 5, 9) && Apart(Slot(0, 0, 5, 5, 1, Available), Slot(0, 0, 5, 9, 1, Available))
  {
  }

  predicate Finds(t: Table, id: SlotId, field: FieldId, date: int, start: int, end: int)
    requires id in t.slots
  {
    t.slots[id].field == field && t.slots[id].date == date && Clashes(t.slots[id], start, end)
  }

  predicate AnyClash(t: Table, except: Option<SlotId>, field: FieldId, date: int, start: int, end: int) {
    exists id :: id in t.slots && Some(id) != except && Finds(t, id, field, date, start, end)
  }

  // ---------- the operations ----------

  predicate OwnsField(fields: map<FieldId, Field>, field: FieldId, user: UserId) {
    field in fields && fields[field].owner == user && !fields[field].deleted
  }

  function FieldError(fields: map<FieldId, Field>, field: FieldId, user: UserId): Error {
    if field !in fields then NotFound else if fields[field].owner != user then Forbidden else BadRequest
  }

  function Insert(t: Table, s: Slot): Table {
    Table(t.slots[t.nextId := s], t.nextId + 1)
  }

  function Create(t: Table, fields: map<FieldId, Field>, user: UserId, s: Slot, today: int): Result<Table> {
    if !OwnsField(fields, s.field, user) then Err(FieldError(fields, s.field, user))
    else if s.date < today || s.start >= s.end || s.price <= 0 then Err(BadRequest)
    else if AnyClash(t, None, s.field, s.date, s.start, s.end) then Err(BadRequest)
    else Ok(Insert(t, s.(status := Available)))
  }

  /** The fields of an update that are absent keep their value. */
  datatype Change = Change(date: Option<int>, start: Option<int>, end: Option<int>, price: Option<int>)

  function Or<T>(o: Option<T>, default: T): T {
    if o.Some? then o.value else default
  }

  function Changed(s: Slot, c: Change): Slot {
    s.(date := Or(c.date, s.date), start := Or(c.start, s.start), end := Or(c.end, s.end), price := Or(c.price, s.price))
  }

  function Update(t: Table, fields: map<FieldId, Field>, user: UserId, id: SlotId, c: Change, today: int): Result<Table> {
    if id !in t.slots then Err(NotFound)
    else if !OwnsField(fields, t.slots[id].field, user) then Err(FieldError(fields, t.slots[id].field, user))
    else
      var stored := t.slots[id];
      var s := Changed(stored, c);
      if stored.status == Booked || s.start >= s.end then Err(BadRequest)
      else if c.date.Some? && c.date.value < today then Err(BadRequest)
      else if (c.date.Some? || c.start.Some? || c.end.Some?)
              && AnyClash(t, Some(id), s.field, s.date, s.start, s.end) then Err(BadRequest)
      else if c.price.Some? && c.price.value <= 0 then Err(BadRequest)
      else Ok(t.(slots := t.slots[id := s]))
  }

  /** `referenced` says whether a booking, live or not, refers to the slot; the foreign key refuses to delete it then. */
  function Delete(t: Table, fields: map<FieldId, Field>, user: UserId, id: SlotId, today: int, referenced: bool): Result<Table> {
    if id !in t.slots then Err(NotFound)
    else if !OwnsField(fields, t.slots[id].field, user) then Err(FieldError(fields, t.slots[id].field, user))
    else if t.slots[id].status == Booked || t.slots[id].date < today then Err(BadRequest)
    else if referenced then Err(Conflict)
    else Ok(t.(slots := t.slots - {id}))
  }

  /** Date.getDay: 0 is Sunday; day 0, the first of January 1970, was a Thursday. */
  function DayOfWeek(date: int): int {
    (date + 4) % 7
  }

  function Dates(first: int, last: int, days: seq<int>): seq<int>
    decreases last - first
  {
    if last < first then []
    else Dates(first, last - 1, days) + if DayOfWeek(last) in days then [last] else []
  }

  function DayRows(field: FieldId, date: int, ranges: seq<Range>): seq<Slot> {
    if ranges == [] then []
    else
      var r := ranges[|ranges| - 1];
      DayRows(field, date, ranges[..|ranges| - 1]) + [Slot(field, date, r.start, r.end, r.price, Available)]
  }

  function Rows(field: FieldId, dates: seq<int>, ranges: seq<Range>): seq<Slot> {
    if dates == [] then []
    else Rows(field, dates[..|dates| - 1], ranges) + DayRows(field, dates[|dates| - 1], ranges)
  }

  function InsertAll(t: Table, rows: seq<Slot>): Table {
    if rows == [] then t else Insert(InsertAll(t, rows[..|rows| - 1]), rows[|rows| - 1])
  }

  /** The column set of the table's unique index. */
  predicate SameKey(a: Slot, b: Slot) {
    a.field == b.field && a.date == b.date && a.start == b.start
  }

  predicate HasDuplicateKey(rows: seq<Slot>) {
    exists i, j :: 0 <= i < j < |rows| && SameKey(rows[i], rows[j])
  }

  predicate ClashesWithTable(t: Table, rows: seq<Slot>) {
    exists i :: 0 <= i < |rows| && RowClashes(t, rows[i])
  }

  predicate RowClashes(t: Table, s: Slot) {
    AnyClash(t, None, s.field, s.date, s.start, s.end)
  }

  predicate RangeOk(r: Range) {
    r.start < r.end && r.price > 0
  }

  /** bulkCreateTimeSlots checks the new slots against the stored ones, but not against each other. */
  function BulkCreate(t: Table, fields: map<FieldId, Field>, user: UserId, field: FieldId,
                      first: int, last: int, days: seq<int>, ranges: seq<Range>, today: int): Result<Table>
  {
    if !OwnsField(fields, field, user) then Err(FieldError(fields, field, user))
    else if first < today || first > last then Err(BadRequest)
    else if exists i :: 0 <= i < |days| && !(0 <= days[i] <= 6) then Err(BadRequest)
    else if exists i :: 0 <= i < |ranges| && !RangeOk(ranges[i]) then Err(BadRequest)
    else
      var dates := Dates(first, last, days);
      var rows := Rows(field, dates, ranges);
      if dates == [] || ClashesWithTable(t, rows) then Err(BadRequest)
      else if HasDuplicateKey(rows) then Err(Conflict)
      else Ok(InsertAll(t, rows))
  }

  // ---------- slots never overlap ----------

  ghost predicate Disjoint(t: Table) {
    && (forall id :: id in t.slots ==> id < t.nextId && t.slots[id].start < t.slots[id].end)
    && (forall a, b :: a in t.slots && b in t.slots && a != b ==> Apart(t.slots[a], t.slots[b]))
  }

  lemma NoClashMeansApart(t: Table, s: Slot, except: Option<SlotId>)
    requires Disjoint(t) && s.start < s.end
    ensures AnyClash(t, except, s.field, s.date, s.start, s.end)
      <==> exists id :: id in t.slots && Some(id) != except && !Apart(t.slots[id], s)
  {
  }

  lemma InsertKeepsIff(t: Table, s: Slot)
    requires Disjoint(t) && s.start < s.end
    ensures Disjoint(Insert(t, s)) <==> forall id :: id in t.slots ==> Apart(t.slots[id], s)
  {
    var u := Insert(t, s);
    assert u.slots[t.nextId] == s;
    if Disjoint(u) {
      forall id | id in t.slots
        ensures Apart(t.slots[id], s)
      {
        assert u.slots[id] == t.slots[id];
        assert Apart(u.slots[id], u.slots[t.nextId]);
      }
    }
  }

  /** A slot that starts after it ends or meets another is refused; any other leaves the calendar disjoint. */
  lemma CreateKeeps(t: Table, fields: map<FieldId, Field>, user: UserId, s: Slot, today: int)
    requires Disjoint(t)
    ensures Create(t, fields, user, s, today).Ok? ==> Disjoint(Create(t, fields, user, s, today).value)
    ensures Create(t, fields, user, s, today).Ok? <==>
      && OwnsField(fields, s.field, user) && s.date >= today && s.start < s.end && s.price > 0
      && forall id :: id in t.slots ==> Apart(t.slots[id], s)
  {
    if s.start < s.end {
      NoClashMeansApart(t, s, None);
      InsertKeepsIff(t, s.(status := Available));
      assert forall id :: id in t.slots ==> (Apart(t.slots[id], s) <==> Apart(t.slots[id], s.(status := Available)));
    }
  }

  /**
   An update is accepted if and only if it is permitted and the changed slot is proper, not moved into
   the past and apart from all others; so the calendar stays disjoint, whichever fields it changes.
   */
  lemma UpdateKeeps(t: Table, fields: map<FieldId, Field>, user: UserId, id: SlotId, c: Change, today: int)
    requires Disjoint(t)
    ensures Update(t, fields, user, id, c, today).Ok? ==> Disjoint(Update(t, fields, user, id, c, today).value)
    ensures Update(t, fields, user, id, c, today).Ok? <==>
      && id in t.slots && OwnsField(fields, t.slots[id].field, user) && t.slots[id].status != Booked
      && Changed(t.slots[id], c).start < Changed(t.slots[id], c).end
      && (c.date.Some? ==> c.date.value >= today) && (c.price.Some? ==> c.price.value > 0)
      && forall a :: a in t.slots && a != id ==> Apart(t.slots[a], Changed(t.slots[id], c))
  {
    if id in t.slots {
      var s := Changed(t.slots[id], c);
      if s.start < s.end {
        NoClashMeansApart(t, s, Some(id));
        ChangedKeeps(t, id, s);
      }
      assert c.date.None? && c.start.None? && c.end.None? ==> forall a :: Apart(a, s) <==> Apart(a, t.slots[id]);
    }
  }

  lemma ChangedKeeps(t: Table, id: SlotId, s: Slot)
    requires Disjoint(t) && id in t.slots && s.start < s.end
    ensures (forall a :: a in t.slots && a != id ==> Apart(t.slots[a], s)) ==> Disjoint(t.(slots := t.slots[id := s]))
  {
  }

  lemma DeleteKeeps(t: Table, fields: map<FieldId, Field>, user: UserId, id: SlotId, today: int, referenced: bool)
    requires Disjoint(t) && Delete(t, fields, user, id, today, referenced).Ok?
    ensures Disjoint(Delete(t, fields, user, id, today, referenced).value)
  {
  }

  // ---------- what each operation writes ----------

  /** A new slot is stored as requested, and available; no other slot changes. */
  lemma CreateOutcome(t: Table, fields: map<FieldId, Field>, user: UserId, s: Slot, today: int)
    requires Create(t, fields, user, s, today).Ok?
    ensures Create(t, fields, user, s, today).value
         == Table(t.slots[t.nextId := Slot(s.field, s.date, s.start, s.end, s.price, Available)], t.nextId + 1)
  {
  }

  /** An update writes the fields it names, keeps the others, and changes no other slot. */
  lemma UpdateOutcome(t: Table, fields: map<FieldId, Field>, user: UserId, id: SlotId, c: Change, today: int)
    requires Update(t, fields, user, id, c, today).Ok?
    ensures var u := Update(t, fields, user, id, c, today).value;
      && id in t.slots && id in u.slots && u == Table(t.slots[id := u.slots[id]], t.nextId)
      && var was, now := t.slots[id], u.slots[id];
      && now.field == was.field && now.status == was.status
      && (c.date == Some(now.date) || (c.date == None && now.date == was.date))
      && (c.start == Some(now.start) || (c.start == None && now.start == was.start))
      && (c.end == Some(now.end) || (c.end == None && now.end == was.end))
      && (c.price == Some(now.price) || (c.price == None && now.price == was.price))
  {
  }

  /** A deletion removes exactly the slot, and is refused for a booked, past or referenced one. */
  lemma DeleteOutcome(t: Table, fields: map<FieldId, Field>, user: UserId, id: SlotId, today: int, referenced: bool)
    ensures Delete(t, fields, user, id, today, referenced).Ok? <==>
      && id in t.slots && t.slots[id].field in fields && fields[t.slots[id].field] == Field(user, false)
      && t.slots[id].status != Booked && t.slots[id].date >= today && !referenced
    ensures Delete(t, fields, user, id, today, referenced).Ok? ==>
      Delete(t, fields, user, id, today, referenced).value == Table(t.slots - {id}, t.nextId)
  {
  }

  /** A missing slot or field is not found, and a stranger's is forbidden. */
  lemma Refusals(t: Table, fields: map<FieldId, Field>, user: UserId, s: Slot, id: SlotId, c: Change, today: int, referenced: bool)
    ensures s.field !in fields ==> Create(t, fields, user, s, today) == Err(NotFound)
    ensures s.field in fields && fields[s.field].owner != user ==> Create(t, fields, user, s, today) == Err(Forbidden)
    ensures id !in t.slots ==>
      Update(t, fields, user, id, c, today) == Err(NotFound) == Delete(t, fields, user, id, today, referenced)
    ensures id in t.slots && t.slots[id].field in fields && fields[t.slots[id].field].owner != user ==>
      Update(t, fields, user, id, c, today) == Err(Forbidden) == Delete(t, fields, user, id, today, referenced)
  {
  }

  /** Day numbers count from a Thursday, weekdays from Sunday as zero; the first of January 2024, day 19723, was a Monday. */
  lemma Weekdays(date: int)
    ensures 0 <= DayOfWeek(date) <= 6 && DayOfWeek(date + 1) == (if DayOfWeek(date) == 6 then 0 else DayOfWeek(date) + 1)
    ensures DayOfWeek(0) == 4 && DayOfWeek(19_723) == 1
  {
  }

  // ---------- bulk creation ----------

  lemma {:induction false} DatesExact(first: int, last: int, days: seq<int>)
    ensures forall d :: d in Dates(first, last, days) <==> first <= d <= last && DayOfWeek(d) in days
    ensures forall i, j :: 0 <= i < j < |Dates(first, last, days)| ==> Dates(first, last, days)[i] < Dates(first, last, days)[j]
    decreases last - first
  {
    if first <= last {
      DatesExact(first, last - 1, days);
      var shorter := Dates(first, last - 1, days);
      forall i | 0 <= i < |shorter|
        ensures shorter[i] < last
      {
        assert shorter[i] in shorter;
      }
    }
  }

  ghost predicate PairwiseApart(rows: seq<Slot>) {
    forall i, j :: 0 <= i < j < |rows| ==> Apart(rows[i], rows[j])
  }

  ghost predicate RangesApart(ranges: seq<Range>) {
    forall i, j :: 0 <= i < j < |ranges| ==> ranges[i].end <= ranges[j].start || ranges[j].end <= ranges[i].start
  }

  lemma {:induction false} DayRowsAt(field: FieldId, date: int, ranges: seq<Range>)
    ensures |DayRows(field, date, ranges)| == |ranges|
    ensures forall i :: 0 <= i < |ranges| ==>
      DayRows(field, date, ranges)[i] == Slot(field, date, ranges[i].start, ranges[i].end, ranges[i].price, Available)
  {
    if ranges != [] {
      DayRowsAt(field, date, ranges[..|ranges| - 1]);
    }
  }

  lemma DayRowsApartIff(field: FieldId, date: int, ranges: seq<Range>)
    ensures PairwiseApart(DayRows(field, date, ranges)) <==> RangesApart(ranges)
  {
    DayRowsAt(field, date, ranges);
    var rows := DayRows(field, date, ranges);
    forall i, j | 0 <= i < j < |ranges|
      ensures Apart(rows[i], rows[j]) <==> ranges[i].end <= ranges[j].start || ranges[j].end <= ranges[i].start
    {
    }
    if PairwiseApart(rows) {
      forall i, j | 0 <= i < j < |ranges|
        ensures ranges[i].end <= ranges[j].start || ranges[j].end <= ranges[i].start
      {
        assert Apart(rows[i], rows[j]);
      }
    }
  }

  lemma {:induction false} ApartConcat(a: seq<Slot>, b: seq<Slot>)
    requires forall i, j :: 0 <= i < |a| && 0 <= j < |b| ==> Apart(a[i], b[j])
    ensures PairwiseApart(a + b) <==> PairwiseApart(a) && PairwiseApart(b)
  {
    var c := a + b;
    if PairwiseApart(c) {
      forall i, j | 0 <= i < j < |a|
        ensures Apart(a[i], a[j])
      {
        assert Apart(c[i], c[j]);
      }
      forall i, j | 0 <= i < j < |b|
        ensures Apart(b[i], b[j])
      {
        assert Apart(c[|a| + i], c[|a| + j]);
      }
    }
  }

  lemma {:induction false} RowsCount(field: FieldId, dates: seq<int>, ranges: seq<Range>)
    ensures |Rows(field, dates, ranges)| == |dates| * |ranges|
    ensures forall i :: 0 <= i < |Rows(field, dates, ranges)| ==> Rows(field, dates, ranges)[i].date in dates
    decreases |dates|
  {
    if dates != [] {
      var n := |dates| - 1;
      RowsCount(field, dates[..n], ranges);
      DayRowsAt(field, dates[n], ranges);
      assert |dates| * |ranges| == n * |ranges| + |ranges|;
    }
  }

  /** The generated rows are pairwise apart exactly when the ranges are. */
  lemma {:induction false} RowsApartIff(field: FieldId, dates: seq<int>, ranges: seq<Range>)
    requires forall i, j :: 0 <= i < j < |dates| ==> dates[i] < dates[j]
    ensures PairwiseApart(Rows(field, dates, ranges)) <==> dates == [] || RangesApart(ranges)
    decreases |dates|
  {
    hide PairwiseApart, RangesApart;
    if dates != [] {
      var n := |dates| - 1;
      var a, b := Rows(field, dates[..n], ranges), DayRows(field, dates[n], ranges);
      RowsApartIff(field, dates[..n], ranges);
      RowsCount(field, dates[..n], ranges);
      DayRowsAt(field, dates[n], ranges);
      DayRowsApartIff(field, dates[n], ranges);
      forall i, j | 0 <= i < |a| && 0 <= j < |b|
        ensures Apart(a[i], b[j])
      {
        assert a[i].date in dates[..n];
      }
      ApartConcat(a, b);
    } else {
      NoRowsApart();
    }
  }

  ghost predicate IsRowOf(s: Slot, field: FieldId, dates: seq<int>, ranges: seq<Range>) {
    exists i, j :: 0 <= i < |dates| && 0 <= j < |ranges| && IsRow(s, field, dates[i], ranges[j])
  }

  predicate IsRow(s: Slot, field: FieldId, date: int, r: Range) {
    s == Slot(field, date, r.start, r.end, r.price, Available)
  }

  /** The rows are those of all matching days and ranges, with the range's times and price, and available. */
  lemma {:induction false} RowsExact(field: FieldId, dates: seq<int>, ranges: seq<Range>, s: Slot)
    ensures s in Rows(field, dates, ranges) <==> IsRowOf(s, field, dates, ranges)
    decreases |dates|
  {
    if dates != [] {
      RowsExact(field, dates[..|dates| - 1], ranges, s);
      RowsOneMoreDay(field, dates, ranges, s);
    }
  }

  lemma RowsOneMoreDay(field: FieldId, dates: seq<int>, ranges: seq<Range>, s: Slot)
    requires dates != [] && (s in Rows(field, dates[..|dates| - 1], ranges) <==> IsRowOf(s, field, dates[..|dates| - 1], ranges))
    ensures s in Rows(field, dates, ranges) <==> IsRowOf(s, field, dates, ranges)
  {
    var n := |dates| - 1;
    DayRowsAt(field, dates[n], ranges);
    if IsRowOf(s, field, dates, ranges) {
      var i, j :| 0 <= i < |dates| && 0 <= j < |ranges| && IsRow(s, field, dates[i], ranges[j]);
      if i < n {
        assert dates[..n][i] == dates[i];
      } else {
        assert DayRows(field, dates[n], ranges)[j] == s;
      }
    }
    if IsRowOf(s, field, dates[..n], ranges) {
      var i, j :| 0 <= i < n && 0 <= j < |ranges| && IsRow(s, field, dates[..n][i], ranges[j]);
      assert IsRow(s, field, dates[i], ranges[j]);
    }
    if j :| 0 <= j < |ranges| && DayRows(field, dates[n], ranges)[j] == s {
      assert IsRow(s, field, dates[n], ranges[j]);
    }
  }

  lemma NoRowsApart()
    ensures PairwiseApart([])
  {
  }

  /** The inserted rows get consecutive new ids, and the stored ones stay. */
  lemma {:induction false} InsertAllRows(t: Table, rows: seq<Slot>)
    requires forall id :: id in t.slots ==> id < t.nextId
    ensures InsertAll(t, rows).nextId == t.nextId + |rows|
    ensures forall id :: id in InsertAll(t, rows).slots <==> id in t.slots || t.nextId <= id < t.nextId + |rows|
    ensures forall id :: id in t.slots ==> InsertAll(t, rows).slots[id] == t.slots[id]
    ensures forall i :: 0 <= i < |rows| ==> InsertAll(t, rows).slots[t.nextId + i] == rows[i]
    decreases |rows|
  {
    if rows != [] {
      InsertAllRows(t, rows[..|rows| - 1]);
    }
  }

  /** Inserting proper slots that are apart from the stored ones leaves the calendar disjoint iff they are apart from each other. */
  lemma {:induction false} InsertAllKeepsIff(t: Table, rows: seq<Slot>)
    requires Disjoint(t) && forall i :: 0 <= i < |rows| ==> rows[i].start < rows[i].end
    requires forall i, id :: 0 <= i < |rows| && id in t.slots ==> Apart(t.slots[id], rows[i])
    ensures Disjoint(InsertAll(t, rows)) <==> PairwiseApart(rows)
  {
    InsertAllRows(t, rows);
    var u := InsertAll(t, rows);
    if Disjoint(u) {
      forall i, j | 0 <= i < j < |rows|
        ensures Apart(rows[i], rows[j])
      {
        assert u.slots[t.nextId + i] == rows[i] && u.slots[t.nextId + j] == rows[j];
        assert Apart(u.slots[t.nextId + i], u.slots[t.nextId + j]);
      }
    }
    if PairwiseApart(rows) {
      forall a, b | a in u.slots && b in u.slots && a < b
        ensures Apart(u.slots[a], u.slots[b]) && Apart(u.slots[b], u.slots[a])
      {
        InsertedApart(t, rows, a, b);
      }
      forall id | id in u.slots
        ensures u.slots[id].start < u.slots[id].end
      {
        if id !in t.slots {
          assert u.slots[t.nextId + (id - t.nextId)] == rows[id - t.nextId];
        }
      }
    }
  }

  lemma {:induction false} InsertedApart(t: Table, rows: seq<Slot>, a: SlotId, b: SlotId)
    requires Disjoint(t) && PairwiseApart(rows)
    requires forall i, id :: 0 <= i < |rows| && id in t.slots ==> Apart(t.slots[id], rows[i])
    requires a in InsertAll(t, rows).slots && b in InsertAll(t, rows).slots && a < b
    ensures Apart(InsertAll(t, rows).slots[a], InsertAll(t, rows).slots[b])
  {
    InsertAllRows(t, rows);
    var u := InsertAll(t, rows);
    if b in t.slots {
      assert a in t.slots;
    } else {
      var j := b - t.nextId;
      assert u.slots[t.nextId + j] == rows[j];
      if a !in t.slots {
        var i := a - t.nextId;
        assert u.slots[t.nextId + i] == rows[i];
        assert Apart(rows[i], rows[j]);
      }
    }
  }

  lemma {:induction false} RowsProper(field: FieldId, dates: seq<int>, ranges: seq<Range>)
    requires forall i :: 0 <= i < |ranges| ==> RangeOk(ranges[i])
    ensures forall i :: 0 <= i < |Rows(field, dates, ranges)| ==>
      Rows(field, dates, ranges)[i].start < Rows(field, dates, ranges)[i].end
    decreases |dates|
  {
    if dates != [] {
      RowsProper(field, dates[..|dates| - 1], ranges);
      DayRowsAt(field, dates[|dates| - 1], ranges);
    }
  }

  /** Which bulk creations are accepted. */
  lemma BulkCreateAcceptedIff(t: Table, fields: map<FieldId, Field>, user: UserId, field: FieldId,
                              first: int, last: int, days: seq<int>, ranges: seq<Range>, today: int)
    requires Disjoint(t)
    ensures BulkCreate(t, fields, user, field, first, last, days, ranges, today).Ok? <==>
      && OwnsField(fields, field, user) && today <= first <= last
      && (forall i :: 0 <= i < |days| ==> 0 <= days[i] <= 6)
      && (forall j :: 0 <= j < |ranges| ==> ranges[j].start < ranges[j].end && ranges[j].price > 0)
      && (exists d :: first <= d <= last && DayOfWeek(d) in days)
      && var rows := Rows(field, Dates(first, last, days), ranges);
      && (forall i, id :: 0 <= i < |rows| && id in t.slots ==> Apart(t.slots[id], rows[i]))
      && !HasDuplicateKey(rows)
  {
    var dates := Dates(first, last, days);
    var rows := Rows(field, dates, ranges);
    DatesExact(first, last, days);
    assert dates != [] ==> dates[0] in dates;
    if forall j :: 0 <= j < |ranges| ==> RangeOk(ranges[j]) {
      RowsProper(field, dates, ranges);
      forall i | 0 <= i < |rows|
        ensures RowClashes(t, rows[i]) <==> exists id :: id in t.slots && !Apart(t.slots[id], rows[i])
      {
        NoClashMeansApart(t, rows[i], None);
      }
    }
    hide Rows, Dates, RowClashes, Apart, HasDuplicateKey, Disjoint, OwnsField, FieldError, InsertAll;
  }

  /** What a bulk creation stores: exactly the rows of all matching days and ranges, beside the slots there were. */
  lemma BulkCreateOutcome(t: Table, fields: map<FieldId, Field>, user: UserId, field: FieldId,
                          first: int, last: int, days: seq<int>, ranges: seq<Range>, today: int, id: SlotId)
    requires Disjoint(t) && BulkCreate(t, fields, user, field, first, last, days, ranges, today).Ok?
    ensures var u := BulkCreate(t, fields, user, field, first, last, days, ranges, today).value;
      && (id in t.slots ==> id in u.slots && u.slots[id] == t.slots[id])
      && (id in u.slots && id !in t.slots ==>
            && IsRowOf(u.slots[id], field, Dates(first, last, days), ranges)
            && u.slots[id].field == field && u.slots[id].status == Available)
    ensures forall s :: IsRowOf(s, field, Dates(first, last, days), ranges) ==>
      exists x :: x in BulkCreate(t, fields, user, field, first, last, days, ranges, today).value.slots
        && BulkCreate(t, fields, user, field, first, last, days, ranges, today).value.slots[x] == s
  {
    var dates := Dates(first, last, days);
    var rows := Rows(field, dates, ranges);
    var u := BulkCreate(t, fields, user, field, first, last, days, ranges, today).value;
    InsertAllRows(t, rows);
    hide BulkCreate, Disjoint, Rows, InsertAll, Dates;
    if id in u.slots && id !in t.slots {
      assert u.slots[t.nextId + (id - t.nextId)] == rows[id - t.nextId] && rows[id - t.nextId] in rows;
      RowsExact(field, dates, ranges, u.slots[id]);
    }
    forall s | IsRowOf(s, field, dates, ranges)
      ensures exists x :: x in u.slots && u.slots[x] == s
    {
      RowsExact(field, dates, ranges, s);
      var i :| 0 <= i < |rows| && rows[i] == s;
      assert u.slots[t.nextId + i] == s;
    }
  }

  /**
   A successful bulk creation adds one slot per matching day and time range, and keeps the calendar
   disjoint if and only if the requested time ranges are pairwise disjoint.
   */
  lemma BulkCreateKeepsIff(t: Table, fields: map<FieldId, Field>, user: UserId, field: FieldId,
                           first: int, last: int, days: seq<int>, ranges: seq<Range>, today: int)
    requires Disjoint(t) && BulkCreate(t, fields, user, field, first, last, days, ranges, today).Ok?
    ensures var u := BulkCreate(t, fields, user, field, first, last, days, ranges, today).value;
      && u.nextId == t.nextId + |Dates(first, last, days)| * |ranges|
      && (Disjoint(u) <==> RangesApart(ranges))
  {
    var dates := Dates(first, last, days);
    var rows := Rows(field, dates, ranges);
    DatesExact(first, last, days);
    RowsApartIff(field, dates, ranges);
    RowsCount(field, dates, ranges);
    InsertAllRows(t, rows);
    RowsProper(field, dates, ranges);
    forall i, id | 0 <= i < |rows| && id in t.slots
      ensures Apart(t.slots[id], rows[i])
    {
      NoClashMeansApart(t, rows[i], None);
      assert !RowClashes(t, rows[i]);
    }
    InsertAllKeepsIff(t, rows);
  }

  const CROSSING := [Range(0, 60, 1), Range(30, 90, 1)]
  const ONE_FIELD := map[0 := Field(1, false)]

  lemma CrossingRows()
    ensures Dates(0, 0, [4]) == [0]
    ensures Rows(0, [0], CROSSING) == [Slot(0, 0, 0, 60, 1, Available), Slot(0, 0, 30, 90, 1, Available)]
  {
    assert Dates(0, 0, [4]) == Dates(0, -1, [4]) + [0];
    assert CROSSING[..1] == [Range(0, 60, 1)] && CROSSING[..1][..0] == [] && [0][..0] == [];
    assert DayRows(0, 0, CROSSING) == [Slot(0, 0, 0, 60, 1, Available), Slot(0, 0, 30, 90, 1, Available)];
  }

  /** Two overlapping ranges, on a Thursday with an empty calendar, are accepted and leave overlapping slots. */
  lemma OverlappingRangesAreAccepted()
    ensures var r := BulkCreate(Table(map[], 0), ONE_FIELD, 1, 0, 0, 0, [4], CROSSING, 0);
      r.Ok? && !Disjoint(r.value)
  {
    CrossingRows();
    hide Dates, Rows, InsertAll, Disjoint;
    assert BulkCreate(Table(map[], 0), ONE_FIELD, 1, 0, 0, 0, [4], CROSSING, 0).Ok?;
    EmptyIsDisjoint();
    BulkCreateKeepsIff(Table(map[], 0), ONE_FIELD, 1, 0, 0, 0, [4], CROSSING, 0);
    assert !RangesApart(CROSSING) by {
      assert CROSSING[1].start < CROSSING[0].end;
    }
    hide BulkCreate, RangesApart;
  }

  lemma EmptyIsDisjoint()
    ensures Disjoint(Table(map[], 0))
  {
  }

  // ---------- the service ----------

  class TimeSlots {
    const fields: map<FieldId, Field>
    var slots: map<SlotId, Slot>
    var nextId: SlotId

    constructor (fields: map<FieldId, Field>)
      ensures Rowset() == Table(map[], 0) && this.fields == fields
      ensures Disjoint(Rowset())
    {
      this.fields, slots, nextId := fields, map[], 0;
    }

    function Rowset(): Table
      reads this
    {
      Table(slots, nextId)
    }

    method Add(s: Slot)
      modifies this
      ensures Rowset() == Insert(old(Rowset()), s)
    {
      slots := slots[nextId := s];
      nextId := nextId + 1;
    }

    method CreateTimeSlot(user: UserId, s: Slot, today: int) returns (r: Result<()>)
      modifies this
      ensures match Create(old(Rowset()), fields, user, s, today)
              case Ok(t) => r == Ok(()) && Rowset() == t
              case Err(e) => r == Err(e) && Rowset() == old(Rowset())
      ensures old(Disjoint(Rowset())) ==> Disjoint(Rowset())
    {
      if old(Disjoint(Rowset())) {
        CreateKeeps(Rowset(), fields, user, s, today);
      }
      if s.field !in fields {
        return Err(NotFound);
      }
      if fields[s.field].owner != user {
        return Err(Forbidden);
      }
      if fields[s.field].deleted || s.date < today || s.start >= s.end || s.price <= 0 {
        return Err(BadRequest);
      }
      if AnyClash(Rowset(), None, s.field, s.date, s.start, s.end) {
        return Err(BadRequest);
      }
      Add(s.(status := Available));
      return Ok(());
    }

    method UpdateTimeSlot(id: SlotId, user: UserId, c: Change, today: int) returns (r: Result<()>)
      modifies this`slots
      ensures match Update(old(Rowset()), fields, user, id, c, today)
              case Ok(t) => r == Ok(()) && Rowset() == t
              case Err(e) => r == Err(e) && Rowset() == old(Rowset())
      ensures old(Disjoint(Rowset())) ==> Disjoint(Rowset())
    {
      if old(Disjoint(Rowset())) && Update(Rowset(), fields, user, id, c, today).Ok? {
        UpdateKeeps(Rowset(), fields, user, id, c, today);
      }
      if id !in slots {
        return Err(NotFound);
      }
      var slot := slots[id];
      if slot.field !in fields {
        return Err(NotFound);
      }
      if fields[slot.field].owner != user {
        return Err(Forbidden);
      }
      if fields[slot.field].deleted || slot.status == Booked {
        return Err(BadRequest);
      }
      var newStart, newEnd := Or(c.start, slot.start), Or(c.end, slot.end);
      if newStart >= newEnd {
        return Err(BadRequest);
      }
      if c.date.Some? || c.start.Some? || c.end.Some? {
        var newDate := Or(c.date, slot.date);
        if c.date.Some? && newDate < today {
          return Err(BadRequest);
        }
        if AnyClash(Rowset(), Some(id), slot.field, newDate, newStart, newEnd) {
          return Err(BadRequest);
        }
      }
      if c.price.Some? && c.price.value <= 0 {
        return Err(BadRequest);
      }
      slot := slot.(date := Or(c.date, slot.date), start := newStart, end := newEnd, price := Or(c.price, slot.price));
      slots := slots[id := slot];
      return Ok(());
    }

    method DeleteTimeSlot(id: SlotId, user: UserId, today: int, referenced: bool) returns (r: Result<()>)
      modifies this`slots
      ensures match Delete(old(Rowset()), fields, user, id, today, referenced)
              case Ok(t) => r == Ok(()) && Rowset() == t
              case Err(e) => r == Err(e) && Rowset() == old(Rowset())
      ensures old(Disjoint(Rowset())) ==> Disjoint(Rowset())
    {
      if old(Disjoint(Rowset())) && Delete(Rowset(), fields, user, id, today, referenced).Ok? {
        DeleteKeeps(Rowset(), fields, user, id, today, referenced);
      }
      if id !in slots {
        return Err(NotFound);
      }
      var slot := slots[id];
      if slot.field !in fields {
        return Err(NotFound);
      }
      if fields[slot.field].owner != user {
        return Err(Forbidden);
      }
      if fields[slot.field].deleted || slot.status == Booked || slot.date < today {
        return Err(BadRequest);
      }
      if referenced {
        return Err(Conflict);
      }
      slots := slots - {id};
      return Ok(());
    }

    /** The day loop that bulkCreateTimeSlots and the recurring generator share. */
    static method DatesToGenerate(first: int, last: int, days: seq<int>) returns (dates: seq<int>)
      ensures dates == Dates(first, last, days)
    {
      dates := [];
      var current := first;
      while current <= last
        invariant current == first || first <= current <= last + 1
        invariant dates == Dates(first, current - 1, days)
        decreases last - current
      {
        if DayOfWeek(current) in days {
          dates := dates + [current];
        }
        current := current + 1;
      }
    }

    method BulkCreateTimeSlots(user: UserId, field: FieldId, first: int, last: int, days: seq<int>, ranges: seq<Range>,
                               today: int) returns (r: Result<()>)
      modifies this
      ensures match BulkCreate(old(Rowset()), fields, user, field, first, last, days, ranges, today)
              case Ok(t) => r == Ok(()) && Rowset() == t
              case Err(e) => r == Err(e) && Rowset() == old(Rowset())
    {
      if field !in fields {
        return Err(NotFound);
      }
      if fields[field].owner != user {
        return Err(Forbidden);
      }
      if fields[field].deleted || first < today || first > last {
        return Err(BadRequest);
      }
      if exists i :: 0 <= i < |days| && !(0 <= days[i] <= 6) {
        return Err(BadRequest);
      }
      for i := 0 to |ranges|
        invariant forall k :: 0 <= k < i ==> RangeOk(ranges[k])
        invariant Rowset() == old(Rowset())
      {
        if !RangeOk(ranges[i]) {
          return Err(BadRequest);
        }
      }
      var dates := DatesToGenerate(first, last, days);
      if dates == [] {
        return Err(BadRequest);
      }
      var rows := SlotsToCreate(field, dates, ranges);
      for i := 0 to |rows|
        invariant forall k :: 0 <= k < i ==> !RowClashes(Rowset(), rows[k])
        invariant Rowset() == old(Rowset())
      {
        if RowClashes(Rowset(), rows[i]) {
          return Err(BadRequest);
        }
      }
      // createMany fails as a whole on the unique index.
      if HasDuplicateKey(rows) {
        return Err(Conflict);
      }
      CreateMany(rows);
      return Ok(());
    }

    method CreateMany(rows: seq<Slot>)
      modifies this
      ensures Rowset() == InsertAll(old(Rowset()), rows)
    {
      for i := 0 to |rows|
        invariant Rowset() == InsertAll(old(Rowset()), rows[..i])
      {
        assert rows[..i + 1][..|rows[..i + 1]| - 1] == rows[..i];
        Add(rows[i]);
      }
      assert rows[..|rows|] == rows;
    }

    static method SlotsToCreate(field: FieldId, dates: seq<int>, ranges: seq<Range>) returns (rows: seq<Slot>)
      ensures rows == Rows(field, dates, ranges)
    {
      rows := [];
      for i := 0 to |dates|
        invariant rows == Rows(field, dates[..i], ranges)
      {
        var before := rows;
        for j := 0 to |ranges|
          invariant rows == before + DayRows(field, dates[i], ranges[..j])
        {
          assert ranges[..j + 1][..|ranges[..j + 1]| - 1] == ranges[..j];
          rows := rows + [Slot(field, dates[i], ranges[j].start, ranges[j].end, ranges[j].price, Available)];
        }
        assert ranges[..|ranges|] == ranges;
        assert dates[..i + 1][..|dates[..i + 1]| - 1] == dates[..i];
      }
      assert dates[..|dates|] == dates;
    }
  }
}
