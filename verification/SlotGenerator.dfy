/** The recurring slot job: it tiles every matching day and inserts the tiles that are not stored yet. */
module SlotGenerator {
  import opened Wrappers
  import opened Calendar

  datatype Schedule = Schedule(days: seq<int>, start: int, end: int, duration: int, price: int, first: int, last: int)

  // ---------- tiling one day ----------

  function Tiles(start: int, end: int, duration: int, price: int): seq<Range>
    requires duration > 0
    decreases end - start
  {
    if start + duration > end then []
    else [Range(start, start + duration, price)] + Tiles(start + duration, end, duration, price)
  }

  /** How many whole slots fit into the window. */
  function Fits(start: int, end: int, duration: int): nat
    requires duration > 0
  {
    if end - start < duration then 0 else (end - start) / duration
  }

  /** Division with remainder is unique. */
  lemma QuotientsAgree(d: int, p: int, q: int, r: int, s: int)
    requires d > 0 && d * p + r == d * q + s && 0 <= r < d && 0 <= s < d
    ensures p == q
  {
    assert d * (p - q) == s - r;
    if p - q >= 1 {
      NoSmaller(d, p - q);
    } else if q - p >= 1 {
      NoSmaller(d, q - p);
    }
  }

  lemma NoSmaller(d: int, n: int)
    requires d > 0 && n >= 1
    ensures d * n >= d
  {
  }

  lemma OneMoreFits(start: int, end: int, duration: int)
    requires duration > 0 && start + duration <= end
    ensures Fits(start, end, duration) == Fits(start + duration, end, duration) + 1
  {
    var rest := end - start - duration;
    if rest < duration {
      QuotientsAgree(duration, (end - start) / duration, 1, (end - start) % duration, rest);
    } else {
      var q, r := rest / duration, rest % duration;
      assert rest == duration * q + r;
      assert duration * (q + 1) == duration * q + duration;
      QuotientsAgree(duration, (end - start) / duration, q + 1, (end - start) % duration, r);
    }
  }

  /**
   The tiles are exactly as many as fit, each `duration` long, the first at `start` and each starting
   where the one before ends; what is left over is shorter than a slot.
   */
  lemma {:induction false} TilesExact(start: int, end: int, duration: int, price: int)
    requires duration > 0
    ensures var ts := Tiles(start, end, duration, price);
      && |ts| == Fits(start, end, duration)
      && (forall k :: 0 <= k < |ts| ==> start <= ts[k].start && ts[k].end == ts[k].start + duration <= end && ts[k].price == price)
      && (forall k :: 0 < k < |ts| ==> ts[k].start == ts[k - 1].end)
      && (ts != [] ==> ts[0].start == start && end - ts[|ts| - 1].end < duration)
    decreases end - start
  {
    if start + duration <= end {
      OneMoreFits(start, end, duration);
      TilesExact(start + duration, end, duration, price);
    }
  }

  lemma {:induction false} TilesApart(start: int, end: int, duration: int, price: int)
    requires duration > 0
    ensures RangesApart(Tiles(start, end, duration, price))
    decreases end - start
  {
    if start + duration <= end {
      TilesApart(start + duration, end, duration, price);
      TilesExact(start + duration, end, duration, price);
    }
  }

  // ---------- inserting what is missing ----------

  /** What the job's existence query compares. */
  predicate SameTimes(a: Slot, b: Slot) {
    SameKey(a, b) && a.end == b.end
  }

  predicate IsStored(t: Table, s: Slot) {
    exists id :: id in t.slots && SameTimes(t.slots[id], s)
  }

  predicate KeyTaken(t: Table, s: Slot) {
    exists id :: id in t.slots && SameKey(t.slots[id], s)
  }

  datatype Progress = Progress(table: Table, created: nat, skipped: nat)

  /** A row whose unique key is taken by a slot with another end makes the insert, and with it the transaction, fail. */
  function InsertMissing(t: Table, rows: seq<Slot>): Result<Progress> {
    if rows == [] then Ok(Progress(t, 0, 0))
    else
      var before := InsertMissing(t, rows[..|rows| - 1]);
      var row := rows[|rows| - 1];
      if before.Err? then before
      else
        var p := before.value;
        if IsStored(p.table, row) then Ok(p.(skipped := p.skipped + 1))
        else if KeyTaken(p.table, row) then Err(Conflict)
        else Ok(Progress(Insert(p.table, row), p.created + 1, p.skipped))
  }

  function PlannedRows(field: FieldId, s: Schedule): seq<Slot>
    requires s.duration > 0
  {
    Rows(field, Dates(s.first, s.last, s.days), Tiles(s.start, s.end, s.duration, s.price))
  }

  function Generate(t: Table, field: FieldId, s: Schedule): Result<Progress>
    requires s.duration > 0
  {
    InsertMissing(t, PlannedRows(field, s))
  }

  /** The rows that are not stored yet. */
  function Missing(t: Table, rows: seq<Slot>): (ms: seq<Slot>)
    ensures |ms| <= |rows|
  {
    if rows == [] then []
    else Missing(t, rows[..|rows| - 1]) + if IsStored(t, rows[|rows| - 1]) then [] else [rows[|rows| - 1]]
  }

  ghost predicate Proper(rows: seq<Slot>) {
    forall i :: 0 <= i < |rows| ==> rows[i].start < rows[i].end
  }

  lemma {:induction false} MissingRows(t: Table, rows: seq<Slot>)
    ensures forall m :: m in Missing(t, rows) <==> m in rows && !IsStored(t, m)
  {
    if rows != [] {
      var n := |rows| - 1;
      MissingRows(t, rows[..n]);
      assert forall m :: m in rows <==> m in rows[..n] || m == rows[n];
    }
  }

  lemma {:induction false} MissingApart(t: Table, rows: seq<Slot>)
    requires PairwiseApart(rows) && Proper(rows)
    ensures PairwiseApart(Missing(t, rows)) && Proper(Missing(t, rows))
  {
    if rows != [] {
      var n := |rows| - 1;
      MissingApart(t, rows[..n]);
      MissingRows(t, rows[..n]);
      var ms := Missing(t, rows[..n]);
      forall i | 0 <= i < |ms|
        ensures Apart(ms[i], rows[n])
      {
        assert ms[i] in ms;
        var k :| 0 <= k < n && rows[..n][k] == ms[i];
        assert Apart(rows[k], rows[n]);
      }
    }
  }

  /** Adding earlier rows of the plan decides neither question about a later one. */
  lemma {:induction false} EarlierRowsDoNotMatter(t: Table, ms: seq<Slot>, row: Slot)
    requires forall id :: id in t.slots ==> id < t.nextId
    requires forall i :: 0 <= i < |ms| ==> !SameKey(ms[i], row)
    ensures IsStored(InsertAll(t, ms), row) <==> IsStored(t, row)
    ensures KeyTaken(InsertAll(t, ms), row) <==> KeyTaken(t, row)
  {
    InsertAllRows(t, ms);
    var u := InsertAll(t, ms);
    forall id | id in u.slots && id !in t.slots
      ensures !SameKey(u.slots[id], row)
    {
      assert u.slots[t.nextId + (id - t.nextId)] == ms[id - t.nextId];
    }
    forall id | id in t.slots
      ensures id in u.slots && u.slots[id] == t.slots[id]
    {
    }
  }

  ghost predicate NoKeyTaken(t: Table, ms: seq<Slot>) {
    forall i :: 0 <= i < |ms| ==> !KeyTaken(t, ms[i])
  }

  /** For disjoint rows the insert loop inserts exactly the missing ones, or fails exactly if one of their keys is taken. */
  lemma {:induction false} LoopInsertsMissing(t: Table, rows: seq<Slot>)
    requires forall id :: id in t.slots ==> id < t.nextId
    requires PairwiseApart(rows) && Proper(rows)
    ensures InsertMissing(t, rows).Ok? <==> NoKeyTaken(t, Missing(t, rows))
    ensures InsertMissing(t, rows).Ok? ==>
      InsertMissing(t, rows).value
      == Progress(InsertAll(t, Missing(t, rows)), |Missing(t, rows)|, |rows| - |Missing(t, rows)|)
    decreases |rows|
  {
    hide IsStored, KeyTaken, Insert;
    if rows != [] {
      var n := |rows| - 1;
      LoopInsertsMissing(t, rows[..n]);
      KeysDiffer(t, rows);
      EarlierRowsDoNotMatter(t, Missing(t, rows[..n]), rows[n]);
      StepInsertsMissing(t, rows);
    }
  }

  lemma KeysDiffer(t: Table, rows: seq<Slot>)
    requires PairwiseApart(rows) && Proper(rows) && rows != []
    ensures var ms := Missing(t, rows[..|rows| - 1]);
      forall i :: 0 <= i < |ms| ==> !SameKey(ms[i], rows[|rows| - 1])
  {
    var n := |rows| - 1;
    MissingRows(t, rows[..n]);
    var ms := Missing(t, rows[..n]);
    forall i | 0 <= i < |ms|
      ensures !SameKey(ms[i], rows[n])
    {
      assert ms[i] in ms;
      var k :| 0 <= k < n && rows[..n][k] == ms[i];
      assert Apart(rows[k], rows[n]);
    }
  }

  lemma NoKeyTakenAppend(t: Table, ms: seq<Slot>, row: Slot)
    ensures NoKeyTaken(t, ms + [row]) <==> NoKeyTaken(t, ms) && !KeyTaken(t, row)
  {
    hide KeyTaken;
    var now := ms + [row];
    assert now[|ms|] == row;
    assert forall i :: 0 <= i < |ms| ==> now[i] == ms[i];
  }

  lemma StepInsertsMissing(t: Table, rows: seq<Slot>)
    requires rows != []
    requires var ms := Missing(t, rows[..|rows| - 1]); var row := rows[|rows| - 1]; var before := InsertMissing(t, rows[..|rows| - 1]);
      && (before.Ok? <==> NoKeyTaken(t, ms))
      && (before.Ok? ==> before.value == Progress(InsertAll(t, ms), |ms|, |rows| - 1 - |ms|))
      && (IsStored(InsertAll(t, ms), row) <==> IsStored(t, row))
      && (KeyTaken(InsertAll(t, ms), row) <==> KeyTaken(t, row))
    ensures var ms := Missing(t, rows);
      && (InsertMissing(t, rows).Ok? <==> NoKeyTaken(t, ms))
      && (InsertMissing(t, rows).Ok? ==> InsertMissing(t, rows).value == Progress(InsertAll(t, ms), |ms|, |rows| - |ms|))
  {
    hide IsStored, KeyTaken, NoKeyTaken, Insert;
    var ms, row := Missing(t, rows[..|rows| - 1]), rows[|rows| - 1];
    NoKeyTakenAppend(t, ms, row);
    if IsStored(t, row) {
      assert Missing(t, rows) == ms;
      TakenIfStored(t, row);
    } else {
      assert Missing(t, rows) == ms + [row] && (ms + [row])[..|ms + [row]| - 1] == ms;
    }
  }

  lemma TakenIfStored(t: Table, row: Slot)
    ensures IsStored(t, row) ==> KeyTaken(t, row)
  {
  }

  // ---------- what the job does ----------

  lemma PlanIsApart(field: FieldId, s: Schedule)
    requires s.duration > 0
    ensures PairwiseApart(PlannedRows(field, s)) && Proper(PlannedRows(field, s))
    ensures |PlannedRows(field, s)| == |Dates(s.first, s.last, s.days)| * Fits(s.start, s.end, s.duration)
  {
    var dates, ts := Dates(s.first, s.last, s.days), Tiles(s.start, s.end, s.duration, s.price);
    DatesExact(s.first, s.last, s.days);
    TilesExact(s.start, s.end, s.duration, s.price);
    TilesApart(s.start, s.end, s.duration, s.price);
    RowsApartIff(field, dates, ts);
    RowsCount(field, dates, ts);
    PlanIsProper(field, dates, ts);
    if dates == [] {
      NoRowsApart();
    }
  }

  lemma {:induction false} PlanIsProper(field: FieldId, dates: seq<int>, ts: seq<Range>)
    requires forall k :: 0 <= k < |ts| ==> ts[k].start < ts[k].end
    ensures Proper(Rows(field, dates, ts))
    decreases |dates|
  {
    if dates != [] {
      PlanIsProper(field, dates[..|dates| - 1], ts);
      DayRowsAt(field, dates[|dates| - 1], ts);
    }
  }

  /**
   The job fails exactly when a missing tile starts together with a stored slot of another length.
   Otherwise created plus skipped is (matching days) times (tiles per day), and afterwards a slot's
   field, day and times are stored iff they were before or the plan has them: a set union.
   */
  lemma {:induction false} GenerateIsUnion(t: Table, field: FieldId, s: Schedule)
    requires s.duration > 0 && forall id :: id in t.slots ==> id < t.nextId
    ensures Generate(t, field, s).Ok? <==> NoKeyTaken(t, Missing(t, PlannedRows(field, s)))
    ensures Generate(t, field, s).Ok? ==>
      var p := Generate(t, field, s).value;
      && p.created + p.skipped == |Dates(s.first, s.last, s.days)| * Fits(s.start, s.end, s.duration)
      && forall x :: IsStored(p.table, x) <==> IsStored(t, x) || Plans(field, s, x)
  {
    var rows := PlannedRows(field, s);
    PlanIsApart(field, s);
    LoopInsertsMissing(t, rows);
    MissingRows(t, rows);
    if Generate(t, field, s).Ok? {
      var u := Generate(t, field, s).value.table;
      forall x
        ensures IsStored(u, x) <==> IsStored(t, x) || Plans(field, s, x)
      {
        UnionAt(t, rows, x);
      }
    }
  }

  /** An available slot of the field at the schedule's price, on a matching day of the range and a tile of the window. */
  predicate FitsSchedule(x: Slot, field: FieldId, s: Schedule) {
    && x.field == field && x.price == s.price && x.status == Available
    && s.first <= x.date <= s.last && DayOfWeek(x.date) in s.days
    && s.start <= x.start && x.end == x.start + s.duration <= s.end
  }

  lemma PlannedFits(field: FieldId, s: Schedule, x: Slot)
    requires s.duration > 0 && x in PlannedRows(field, s)
    ensures FitsSchedule(x, field, s)
  {
    var dates, ts := Dates(s.first, s.last, s.days), Tiles(s.start, s.end, s.duration, s.price);
    RowsExact(field, dates, ts, x);
    DatesExact(s.first, s.last, s.days);
    TilesExact(s.start, s.end, s.duration, s.price);
    hide Rows, Dates, Tiles, DayOfWeek;
    var i, j :| 0 <= i < |dates| && 0 <= j < |ts| && IsRow(x, field, dates[i], ts[j]);
    assert dates[i] in dates;
  }

  /** What a run stores: the slots there were, unchanged, and beside them only slots that fit the schedule, as many as it counts. */
  lemma {:induction false} GenerateOutcome(t: Table, field: FieldId, s: Schedule, id: SlotId)
    requires s.duration > 0 && (forall x :: x in t.slots ==> x < t.nextId) && Generate(t, field, s).Ok?
    ensures var u := Generate(t, field, s).value.table;
      && (id in t.slots ==> id in u.slots && u.slots[id] == t.slots[id])
      && (id in u.slots && id !in t.slots ==> FitsSchedule(u.slots[id], field, s))
      && u.nextId == t.nextId + Generate(t, field, s).value.created
  {
    var rows := PlannedRows(field, s);
    var ms := Missing(t, rows);
    PlanIsApart(field, s);
    LoopInsertsMissing(t, rows);
    MissingRows(t, rows);
    InsertAllRows(t, ms);
    var u := Generate(t, field, s).value.table;
    hide PlannedRows, InsertMissing, Missing, InsertAll, FitsSchedule, PairwiseApart, Proper, NoKeyTaken;
    if id in u.slots && id !in t.slots {
      assert u.slots[t.nextId + (id - t.nextId)] == ms[id - t.nextId] && ms[id - t.nextId] in ms;
      PlannedFits(field, s, u.slots[id]);
    }
  }

  predicate Plans(field: FieldId, s: Schedule, x: Slot)
    requires s.duration > 0
  {
    exists i :: 0 <= i < |PlannedRows(field, s)| && SameTimes(PlannedRows(field, s)[i], x)
  }

  lemma StoredAlike(t: Table, a: Slot, b: Slot)
    requires SameTimes(a, b)
    ensures IsStored(t, a) <==> IsStored(t, b)
  {
  }

  lemma {:induction false} UnionAt(t: Table, rows: seq<Slot>, x: Slot)
    requires forall id :: id in t.slots ==> id < t.nextId
    ensures IsStored(InsertAll(t, Missing(t, rows)), x)
      <==> IsStored(t, x) || exists i :: 0 <= i < |rows| && SameTimes(rows[i], x)
  {
    var ms := Missing(t, rows);
    var u := InsertAll(t, ms);
    InsertAllRows(t, ms);
    MissingRows(t, rows);
    if IsStored(t, x) {
      var id :| id in t.slots && SameTimes(t.slots[id], x);
      assert id in u.slots && SameTimes(u.slots[id], x);
    } else if i :| 0 <= i < |rows| && SameTimes(rows[i], x) {
      StoredAlike(t, rows[i], x);
      assert rows[i] in ms;
      var k :| 0 <= k < |ms| && ms[k] == rows[i];
      assert t.nextId + k in u.slots && SameTimes(u.slots[t.nextId + k], x);
    } else if IsStored(u, x) {
      var id :| id in u.slots && SameTimes(u.slots[id], x);
      assert id !in t.slots ==> u.slots[t.nextId + (id - t.nextId)] == ms[id - t.nextId] && ms[id - t.nextId] in ms;
      assert id !in t.slots ==> ms[id - t.nextId] in rows;
    }
  }

  lemma {:induction false} AllStoredNoneMissing(t: Table, rows: seq<Slot>)
    requires forall i :: 0 <= i < |rows| ==> IsStored(t, rows[i])
    ensures Missing(t, rows) == []
  {
    if rows != [] {
      AllStoredNoneMissing(t, rows[..|rows| - 1]);
    }
  }

  /** Running the job again creates nothing and skips everything. */
  lemma {:induction false} SecondRunCreatesNothing(t: Table, field: FieldId, s: Schedule)
    requires s.duration > 0 && forall id :: id in t.slots ==> id < t.nextId
    requires Generate(t, field, s).Ok?
    ensures var u := Generate(t, field, s).value.table;
      Generate(u, field, s) == Ok(Progress(u, 0, |PlannedRows(field, s)|))
  {
    var rows := PlannedRows(field, s);
    PlanIsApart(field, s);
    LoopInsertsMissing(t, rows);
    var u := Generate(t, field, s).value.table;
    InsertAllRows(t, Missing(t, rows));
    forall i | 0 <= i < |rows|
      ensures IsStored(u, rows[i])
    {
      UnionAt(t, rows, rows[i]);
      assert SameTimes(rows[i], rows[i]);
    }
    AllStoredNoneMissing(u, rows);
    LoopInsertsMissing(u, rows);
  }

  /** A stored slot and a planned one may coincide or be apart; anything else is an overlap. */
  predicate Compatible(stored: Slot, planned: Slot) {
    SameTimes(stored, planned) || Apart(stored, planned)
  }

  ghost predicate PlanFits(t: Table, rows: seq<Slot>) {
    forall i, id :: 0 <= i < |rows| && id in t.slots ==> Compatible(t.slots[id], rows[i])
  }

  ghost predicate AllApart(t: Table, ms: seq<Slot>) {
    forall i, id :: 0 <= i < |ms| && id in t.slots ==> Apart(t.slots[id], ms[i])
  }

  /**
   The job looks for identical slots only: a disjoint calendar stays disjoint if and only if every
   planned tile coincides with or is apart from every stored slot.
   */
  lemma GenerateKeepsDisjointIff(t: Table, field: FieldId, s: Schedule)
    requires s.duration > 0 && Disjoint(t) && Generate(t, field, s).Ok?
    ensures Disjoint(Generate(t, field, s).value.table) <==> PlanFits(t, PlannedRows(field, s))
  {
    var rows := PlannedRows(field, s);
    var ms := Missing(t, rows);
    PlanIsApart(field, s);
    LoopInsertsMissing(t, rows);
    MissingRows(t, rows);
    MissingApart(t, rows);
    if PlanFits(t, rows) {
      FittingPlanIsApart(t, rows);
    }
    if AllApart(t, ms) {
      ApartPlanFits(t, rows);
      InsertAllKeepsIff(t, ms);
    } else {
      InsertAllRows(t, ms);
      var i, id :| 0 <= i < |ms| && id in t.slots && !Apart(t.slots[id], ms[i]);
      var u := InsertAll(t, ms);
      assert u.slots[t.nextId + i] == ms[i] && u.slots[id] == t.slots[id];
      assert !Apart(u.slots[id], u.slots[t.nextId + i]);
    }
  }

  lemma {:induction false} FittingPlanIsApart(t: Table, rows: seq<Slot>)
    requires PlanFits(t, rows)
    ensures AllApart(t, Missing(t, rows))
  {
    var ms := Missing(t, rows);
    MissingRows(t, rows);
    forall i, id | 0 <= i < |ms| && id in t.slots
      ensures Apart(t.slots[id], ms[i])
    {
      assert ms[i] in ms;
      var k :| 0 <= k < |rows| && rows[k] == ms[i];
      assert Compatible(t.slots[id], rows[k]);
    }
  }

  /** In a disjoint calendar the plan fits as soon as the tiles that are still missing do. */
  lemma {:induction false} ApartPlanFits(t: Table, rows: seq<Slot>)
    requires Disjoint(t) && AllApart(t, Missing(t, rows))
    ensures PlanFits(t, rows)
  {
    var ms := Missing(t, rows);
    MissingRows(t, rows);
    forall i, id | 0 <= i < |rows| && id in t.slots
      ensures Compatible(t.slots[id], rows[i])
    {
      if IsStored(t, rows[i]) {
        var twin :| twin in t.slots && SameTimes(t.slots[twin], rows[i]);
        assert twin != id ==> Apart(t.slots[id], t.slots[twin]);
      } else {
        assert rows[i] in ms;
        var k :| 0 <= k < |ms| && ms[k] == rows[i];
        assert Apart(t.slots[id], ms[k]);
      }
    }
  }

  const CROSSED := Table(map[0 := Slot(0, 0, 30, 90, 1, Available)], 1)
  const ONE_TILE := Schedule([4], 0, 60, 60, 1, 0, 0)
  const TILE := Slot(0, 0, 0, 60, 1, Available)

  lemma OneTileIsPlanned()
    ensures PlannedRows(0, ONE_TILE) == [TILE]
  {
    assert Dates(0, 0, [4]) == Dates(0, -1, [4]) + [0] == [0];
    assert Tiles(60, 60, 60, 1) == [] && Tiles(0, 60, 60, 1) == [Range(0, 60, 1)];
    assert [Range(0, 60, 1)][..0] == [] && [0][..0] == [];
    assert DayRows(0, 0, [Range(0, 60, 1)]) == [TILE];
  }

  /** A tile from 0 to 60 is inserted beside a stored slot from 30 to 90, and the two overlap. */
  lemma OverlappingTileIsInserted()
    ensures Disjoint(CROSSED) && Generate(CROSSED, 0, ONE_TILE).Ok?
    ensures !Disjoint(Generate(CROSSED, 0, ONE_TILE).value.table)
  {
    OneTileIsPlanned();
    hide PlannedRows;
    assert [TILE][..0] == [] && !IsStored(CROSSED, TILE) && !KeyTaken(CROSSED, TILE);
    assert InsertMissing(CROSSED, [TILE]).Ok?;
    hide InsertMissing;
    GenerateKeepsDisjointIff(CROSSED, 0, ONE_TILE);
    assert !Compatible(CROSSED.slots[0], [TILE][0]);
  }

  // ---------- the job ----------

  /** handleGeneration on the slots of a calendar. A non-positive duration would make the tiling loop endless. */
  method HandleGeneration(calendar: TimeSlots, field: FieldId, s: Schedule) returns (r: Result<(nat, nat)>)
    requires s.duration > 0
    modifies calendar
    ensures match Generate(old(calendar.Rowset()), field, s)
            case Ok(p) => r == Ok((p.created, p.skipped)) && calendar.Rowset() == p.table
            case Err(e) => r == Err(e) && calendar.Rowset() == old(calendar.Rowset())
  {
    var dates := TimeSlots.DatesToGenerate(s.first, s.last, s.days);
    if dates == [] {
      return Ok((0, 0));
    }
    var tiles := TileDay(s.start, s.end, s.duration, s.price);
    var rows := TimeSlots.SlotsToCreate(field, dates, tiles);
    r := InsertLoop(calendar, rows);
  }

  method TileDay(start: int, end: int, duration: int, price: int) returns (tiles: seq<Range>)
    requires duration > 0
    ensures tiles == Tiles(start, end, duration, price)
  {
    tiles := [];
    var current := start;
    while current + duration <= end
      invariant tiles + Tiles(current, end, duration, price) == Tiles(start, end, duration, price)
      decreases end - current
    {
      tiles := tiles + [Range(current, current + duration, price)];
      current := current + duration;
    }
  }

  method InsertLoop(calendar: TimeSlots, rows: seq<Slot>) returns (r: Result<(nat, nat)>)
    modifies calendar
    ensures match InsertMissing(old(calendar.Rowset()), rows)
            case Ok(p) => r == Ok((p.created, p.skipped)) && calendar.Rowset() == p.table
            case Err(e) => r == Err(e) && calendar.Rowset() == old(calendar.Rowset())
  {
    var saved, savedId := calendar.slots, calendar.nextId;
    var created, skipped := 0, 0;
    for i := 0 to |rows|
      invariant InsertMissing(old(calendar.Rowset()), rows[..i]) == Ok(Progress(calendar.Rowset(), created, skipped))
    {
      assert rows[..i + 1][..|rows[..i + 1]| - 1] == rows[..i];
      if IsStored(calendar.Rowset(), rows[i]) {
        skipped := skipped + 1;
      } else if KeyTaken(calendar.Rowset(), rows[i]) {
        FailureStays(old(calendar.Rowset()), rows, i + 1);
        calendar.slots, calendar.nextId := saved, savedId;
        return Err(Conflict);
      } else {
        calendar.Add(rows[i]);
        created := created + 1;
      }
    }
    assert rows[..|rows|] == rows;
    return Ok((created, skipped));
  }

  lemma {:induction false} FailureStays(t: Table, rows: seq<Slot>, i: nat)
    requires i <= |rows| && InsertMissing(t, rows[..i]) == Err(Conflict)
    ensures InsertMissing(t, rows) == Err(Conflict)
    decreases |rows|
  {
    if i == |rows| {
      assert rows[..i] == rows;
    } else {
      assert rows[..|rows| - 1][..i] == rows[..i];
      FailureStays(t, rows[..|rows| - 1], i);
    }
  }
}
