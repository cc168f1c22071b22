/** Segment edits, the timeline check made before a submission, and the seconds a submission is credited with. */
module Segments {
  import opened Common

  datatype Segment = Segment(start: real, end: real, duration: real, asrText: string, text: string, exclude: bool)

  /** The rows of one version, keyed by segment id. */
  type Table = map<int, Segment>

  /** One entry of a save request. A field the request carries in an unusable form (not an integer id, times that are
      missing, not numeric or not finite, a text that is not a string) is `None`. */
  datatype Dirty = Dirty(id: Option<int>, start: Option<real>, end: Option<real>, text: Option<string>, exclude: bool)

  datatype Error =
    | BadId
    | BadTimes(id: int)
    | BadText(id: int)
    | Repeated(id: int)
    | Missing(id: int)
    | Overlaps(id: int)
    | PastTheEnd(id: int)

  datatype Result<+T> = Ok(value: T) | Err(error: Error)

  ghost predicate WholeMilliseconds(x: real) {
    (x * 1000.0).Floor as real == x * 1000.0
  }

  /** Rounding to three decimals, halves to even. */
  function Round3(x: real): (r: real)
    ensures -0.0005 <= r - x <= 0.0005 && WholeMilliseconds(r)
    ensures r - x == 0.0005 || x - r == 0.0005 ==> (r * 1000.0).Floor % 2 == 0
  {
    var scaled := x * 1000.0;
    var low := scaled.Floor;
    var rest := scaled - low as real;
    var n := if rest < 0.5 || (rest == 0.5 && low % 2 == 0) then low else low + 1;
    n as real / 1000.0
  }

  function Problem(d: Dirty): Option<Error> {
    if d.id.None? then Some(BadId)
    else if d.start.None? || d.end.None? || d.start.value < 0.0 || d.end.value <= d.start.value
    then Some(BadTimes(d.id.value))
    else if d.text.None? then Some(BadText(d.id.value))
    else None
  }

  /** A row as an entry leaves it: everything is replaced but the recogniser's text. */
  function Edited(row: Segment, d: Dirty): Segment
    requires Problem(d).None?
  {
    Segment(d.start.value, d.end.value, Round3(d.end.value - d.start.value), row.asrText, d.text.value, d.exclude)
  }

  /* ---------- what a save means ---------- */

  /** An entry that can be applied: it names a row, times that make a stretch of audio, and a text. */
  predicate WellFormed(d: Dirty) {
    && d.id.Some? && d.text.Some?
    && d.start.Some? && d.end.Some? && 0.0 <= d.start.value < d.end.value
  }

  /** The row has the entry's times, text and mark, the length of that stretch to the millisecond, and the recogniser's
      text as before. */
  ghost predicate Takes(row: Segment, d: Dirty, row': Segment)
    requires WellFormed(d)
  {
    && row'.start == d.start.value && row'.end == d.end.value
    && row'.text == d.text.value && row'.exclude == d.exclude && row'.asrText == row.asrText
    && -0.0005 <= row'.duration - (row'.end - row'.start) <= 0.0005 && WholeMilliseconds(row'.duration)
  }

  lemma EditedTakes(row: Segment, d: Dirty)
    ensures Problem(d).None? <==> WellFormed(d)
    ensures Problem(d).None? ==> Takes(row, d, Edited(row, d))
  {
  }

  /* ---------- applying a save row by row ---------- */

  function ApplyFrom(table: Table, dirty: seq<Dirty>, seen: set<int>): Result<Table> {
    if dirty == [] then Ok(table)
    else
      var d := dirty[0];
      if Problem(d).Some? then Err(Problem(d).value)
      else if d.id.value in seen then Err(Repeated(d.id.value))
      else if d.id.value !in table then Err(Missing(d.id.value))
      else ApplyFrom(table[d.id.value := Edited(table[d.id.value], d)], dirty[1..], seen + {d.id.value})
  }

  function Apply(table: Table, dirty: seq<Dirty>): Result<Table> {
    ApplyFrom(table, dirty, {})
  }

  /** The order-free meaning of "this save is acceptable". */
  ghost predicate Acceptable(table: Table, dirty: seq<Dirty>) {
    && (forall i :: 0 <= i < |dirty| ==> WellFormed(dirty[i]) && dirty[i].id.value in table)
    && (forall i, j :: 0 <= i < j < |dirty| ==> dirty[i].id != dirty[j].id)
  }

  ghost predicate Untouched(dirty: seq<Dirty>, k: int) {
    forall i :: 0 <= i < |dirty| ==> dirty[i].id != Some(k)
  }

  /** The order-free meaning of "the table after this save". */
  ghost predicate IsOverlay(before: Table, dirty: seq<Dirty>, after: Table) {
    && after.Keys == before.Keys
    && (forall i :: 0 <= i < |dirty| ==>
          WellFormed(dirty[i]) && dirty[i].id.value in before &&
          Takes(before[dirty[i].id.value], dirty[i], after[dirty[i].id.value]))
    && (forall k <- before :: Untouched(dirty, k) ==> after[k] == before[k])
  }

  ghost predicate Avoids(dirty: seq<Dirty>, seen: set<int>) {
    forall i :: 0 <= i < |dirty| ==> dirty[i].id.Some? && dirty[i].id.value !in seen
  }

  lemma AcceptableSplits(table: Table, dirty: seq<Dirty>, seen: set<int>)
    requires dirty != [] && Problem(dirty[0]).None? && dirty[0].id.value in table && dirty[0].id.value !in seen
    ensures Acceptable(table, dirty) && Avoids(dirty, seen) <==>
            Acceptable(table[dirty[0].id.value := Edited(table[dirty[0].id.value], dirty[0])], dirty[1..]) &&
            Avoids(dirty[1..], seen + {dirty[0].id.value})
  {
    var d, rest := dirty[0], dirty[1..];
    var table', seen' := table[d.id.value := Edited(table[d.id.value], d)], seen + {d.id.value};
    if Acceptable(table', rest) && Avoids(rest, seen') {
      forall i | 0 <= i < |dirty|
        ensures WellFormed(dirty[i]) && dirty[i].id.value in table && dirty[i].id.value !in seen
      {
        if i > 0 { assert dirty[i] == rest[i - 1]; }
      }
      forall i, j | 0 <= i < j < |dirty|
        ensures dirty[i].id != dirty[j].id
      {
        assert dirty[j] == rest[j - 1];
        if i > 0 { assert dirty[i] == rest[i - 1]; }
      }
    }
    if Acceptable(table, dirty) && Avoids(dirty, seen) {
      forall i | 0 <= i < |rest|
        ensures WellFormed(rest[i]) && rest[i].id.value in table' && rest[i].id.value !in seen'
      {
        assert rest[i] == dirty[i + 1];
      }
      forall i, j | 0 <= i < j < |rest|
        ensures rest[i].id != rest[j].id
      {
        assert rest[i] == dirty[i + 1] && rest[j] == dirty[j + 1];
      }
    }
  }

  lemma OverlaySplits(table: Table, dirty: seq<Dirty>, after: Table)
    requires dirty != [] && Acceptable(table, dirty)
    requires IsOverlay(table[dirty[0].id.value := Edited(table[dirty[0].id.value], dirty[0])], dirty[1..], after)
    ensures IsOverlay(table, dirty, after)
  {
    var d, rest := dirty[0], dirty[1..];
    var table' := table[d.id.value := Edited(table[d.id.value], d)];
    assert Untouched(rest, d.id.value) by {
      forall i | 0 <= i < |rest|
        ensures rest[i].id != Some(d.id.value)
      {
        assert rest[i] == dirty[i + 1] && dirty[0].id != dirty[i + 1].id;
      }
    }
    forall i | 0 <= i < |dirty|
      ensures Takes(table[dirty[i].id.value], dirty[i], after[dirty[i].id.value])
    {
      if i > 0 {
        assert dirty[i] == rest[i - 1] && dirty[0].id != dirty[i].id;
      } else {
        EditedTakes(table[d.id.value], d);
        assert d.id.value in table' && after[d.id.value] == table'[d.id.value];
      }
    }
    forall k | k in table && Untouched(dirty, k)
      ensures after[k] == table[k]
    {
      assert dirty[0].id != Some(k);
      forall i | 0 <= i < |rest| ensures rest[i].id != Some(k) { assert rest[i] == dirty[i + 1]; }
      assert Untouched(rest, k) && k in table' && table'[k] == table[k];
    }
  }

  lemma {:induction false} ApplyFromMeaning(table: Table, dirty: seq<Dirty>, seen: set<int>)
    ensures ApplyFrom(table, dirty, seen).Ok? <==> Acceptable(table, dirty) && Avoids(dirty, seen)
    ensures ApplyFrom(table, dirty, seen).Ok? ==> IsOverlay(table, dirty, ApplyFrom(table, dirty, seen).value)
    decreases |dirty|
  {
    if dirty != [] {
      var d := dirty[0];
      if Problem(d).None? && d.id.value !in seen && d.id.value in table {
        var table', seen' := table[d.id.value := Edited(table[d.id.value], d)], seen + {d.id.value};
        AcceptableSplits(table, dirty, seen);
        ApplyFromMeaning(table', dirty[1..], seen');
        if Acceptable(table, dirty) && Avoids(dirty, seen) {
          OverlaySplits(table, dirty, ApplyFrom(table', dirty[1..], seen').value);
        }
      }
    }
  }

  /** The first entry that cannot be applied, and what is wrong with it: its id, else its times, else its text, else that
      an earlier entry named the row, else that there is no such row. */
  ghost predicate StopsAt(table: Table, dirty: seq<Dirty>, i: nat, e: Error) {
    && i < |dirty| && Acceptable(table, dirty[..i])
    && var d := dirty[i];
      match e
      case BadId => d.id.None?
      case BadTimes(k) => d.id == Some(k) && !(d.start.Some? && d.end.Some? && 0.0 <= d.start.value < d.end.value)
      case BadText(k) => d.id == Some(k) && WellFormed(d.(text := Some(""))) && d.text.None?
      case Repeated(k) => d.id == Some(k) && WellFormed(d) && !Untouched(dirty[..i], k)
      case Missing(k) => d.id == Some(k) && WellFormed(d) && Untouched(dirty[..i], k) && k !in table
      case _ => false
  }

  lemma {:induction false} ApplyStops(table: Table, start: Table, dirty: seq<Dirty>, i: nat, seen: set<int>)
    requires i <= |dirty| && table.Keys == start.Keys && Acceptable(start, dirty[..i])
    requires forall k :: k in seen <==> !Untouched(dirty[..i], k)
    requires ApplyFrom(table, dirty[i..], seen).Err?
    ensures exists n :: StopsAt(start, dirty, n, ApplyFrom(table, dirty[i..], seen).error)
    decreases |dirty| - i
  {
    var d, e := dirty[i], ApplyFrom(table, dirty[i..], seen).error;
    EditedTakes(Segment(0.0, 0.0, 0.0, "", "", false), d);
    if Problem(d).Some? || d.id.value in seen || d.id.value !in table {
      assert StopsAt(start, dirty, i, e);
    } else {
      var table' := table[d.id.value := Edited(table[d.id.value], d)];
      assert dirty[i..][1..] == dirty[i + 1..];
      OneMoreEntry(start, dirty, i);
      ApplyStops(table', start, dirty, i + 1, seen + {d.id.value});
    }
  }

  lemma OneMoreEntry(table: Table, dirty: seq<Dirty>, i: nat)
    requires i < |dirty| && Acceptable(table, dirty[..i]) && WellFormed(dirty[i]) && dirty[i].id.value in table
    requires Untouched(dirty[..i], dirty[i].id.value)
    ensures Acceptable(table, dirty[..i + 1])
    ensures forall k :: Untouched(dirty[..i + 1], k) <==> Untouched(dirty[..i], k) && dirty[i].id != Some(k)
  {
    var longer := dirty[..i + 1];
    assert longer[i] == dirty[i] && forall j :: 0 <= j < i ==> longer[j] == dirty[..i][j];
    forall k ensures Untouched(longer, k) <==> Untouched(dirty[..i], k) && dirty[i].id != Some(k) {
      if Untouched(longer, k) { assert longer[i].id != Some(k); }
    }
  }

  /** A save succeeds exactly when its entries are well formed, name different rows and name only existing rows; it then
      gives each named row the entry's times, text and mark and leaves all other rows, every id and every recogniser text
      as they were. Otherwise it reports the first entry that cannot be applied. */
  lemma ApplyMeaning(table: Table, dirty: seq<Dirty>)
    ensures Apply(table, dirty).Ok? <==> Acceptable(table, dirty)
    ensures Apply(table, dirty).Err? ==> exists i :: StopsAt(table, dirty, i, Apply(table, dirty).error)
    ensures Apply(table, dirty).Ok? ==>
              var after := Apply(table, dirty).value;
              && IsOverlay(table, dirty, after)
              && (forall k <- table :: k in after && after[k].asrText == table[k].asrText)
  {
    ApplyFromMeaning(table, dirty, {});
    if Apply(table, dirty).Err? {
      assert dirty[0..] == dirty;
      ApplyStops(table, table, dirty, 0, {});
    }
    if Apply(table, dirty).Ok? {
      var after := Apply(table, dirty).value;
      forall k | k in table
        ensures k in after && after[k].asrText == table[k].asrText
      {
        if i :| 0 <= i < |dirty| && dirty[i].id == Some(k) {
          assert Takes(table[k], dirty[i], after[k]);
        } else {
          assert Untouched(dirty, k);
        }
      }
    }
  }

  /* ---------- merging a save in memory ---------- */

  datatype Row = Row(id: int, segment: Segment)

  predicate Distinct(rows: seq<Row>) {
    forall i, j :: 0 <= i < j < |rows| ==> rows[i].id != rows[j].id
  }

  function AsTable(rows: seq<Row>): (t: Table)
    ensures forall k <- t :: exists i :: 0 <= i < |rows| && rows[i].id == k
    ensures forall i :: 0 <= i < |rows| ==> rows[i].id in t
  {
    if rows == [] then map[]
    else
      var front, last := rows[..|rows| - 1], rows[|rows| - 1];
      var t := AsTable(front);
      assert forall i :: 0 <= i < |front| ==> front[i] == rows[i];
      t[last.id := last.segment]
  }

  lemma {:induction false} AsTableAt(rows: seq<Row>, i: nat)
    requires Distinct(rows) && i < |rows|
    ensures rows[i].id in AsTable(rows) && AsTable(rows)[rows[i].id] == rows[i].segment
  {
    if i < |rows| - 1 {
      AsTableAt(rows[..|rows| - 1], i);
    }
  }

  lemma {:induction false} AsTableOf(rows: seq<Row>, table: Table)
    requires Distinct(rows)
    requires forall i :: 0 <= i < |rows| ==> rows[i].id in table && rows[i].segment == table[rows[i].id]
    requires forall k <- table :: exists i :: 0 <= i < |rows| && rows[i].id == k
    ensures AsTable(rows) == table
  {
    forall k | k in table
      ensures k in AsTable(rows) && AsTable(rows)[k] == table[k]
    {
      var i :| 0 <= i < |rows| && rows[i].id == k;
      AsTableAt(rows, i);
    }
  }

  /** Reading the rows of a table, in some order. */
  method SelectRows(table: Table) returns (rows: seq<Row>)
    ensures Distinct(rows) && AsTable(rows) == table
  {
    rows := [];
    var left := table.Keys;
    while left != {}
      invariant left <= table.Keys && Distinct(rows) && AsTable(rows).Keys == table.Keys - left
      invariant forall i :: 0 <= i < |rows| ==> rows[i].id in table && rows[i].segment == table[rows[i].id]
      decreases left
    {
      var k := AnyOf(left);
      AsTableGrows(rows, Row(k, table[k]));
      rows := rows + [Row(k, table[k])];
      left := left - {k};
    }
    assert forall k <- table :: k in AsTable(rows);
    AsTableOf(rows, table);
  }

  lemma AsTableGrows(rows: seq<Row>, row: Row)
    requires Distinct(rows) && row.id !in AsTable(rows)
    ensures Distinct(rows + [row]) && AsTable(rows + [row]).Keys == AsTable(rows).Keys + {row.id}
  {
    assert (rows + [row])[..|rows|] == rows;
  }

  lemma SameIdsCover(rows: seq<Row>, out: seq<Row>, table: Table)
    requires |out| == |rows| && AsTable(rows).Keys == table.Keys
    requires forall i :: 0 <= i < |rows| ==> out[i].id == rows[i].id
    ensures forall k <- table :: exists i :: 0 <= i < |out| && out[i].id == k
  {
    forall k | k in table ensures exists i :: 0 <= i < |out| && out[i].id == k {
      assert k in AsTable(rows);
      var i :| 0 <= i < |rows| && rows[i].id == k;
      assert out[i].id == k;
    }
  }

  method RowsInOrder(rows: seq<Row>, table: Table) returns (out: seq<Row>)
    requires Distinct(rows) && AsTable(rows).Keys == table.Keys
    ensures |out| == |rows| && forall i :: 0 <= i < |rows| ==> out[i].id == rows[i].id
    ensures AsTable(out) == table
  {
    out := [];
    for n := 0 to |rows|
      invariant |out| == n
      invariant forall i :: 0 <= i < n ==> rows[i].id in table && out[i] == Row(rows[i].id, table[rows[i].id])
    {
      assert rows[n].id in AsTable(rows).Keys;
      out := out + [Row(rows[n].id, table[rows[n].id])];
    }
    SameIdsCover(rows, out, table);
    AsTableOf(out, table);
  }

  /** The functional copy used when a comparison needs the edited rows before they are written. It fails on the same
      requests with the same error, and on success holds the same rows in the same order, as the row-by-row update. */
  method MergeDirtySegments(rows: seq<Row>, dirty: seq<Dirty>) returns (r: Result<seq<Row>>)
    requires Distinct(rows)
    ensures r.Err? ==> Apply(AsTable(rows), dirty) == Err(r.error)
    ensures r.Ok? ==> && |r.value| == |rows|
                      && (forall i :: 0 <= i < |rows| ==> r.value[i].id == rows[i].id)
                      && Apply(AsTable(rows), dirty) == Ok(AsTable(r.value))
  {
    ghost var start := AsTable(rows);
    var merged := AsTable(rows);
    var seen: set<int> := {};
    for n := 0 to |dirty|
      invariant merged.Keys == start.Keys
      invariant Apply(start, dirty) == ApplyFrom(merged, dirty[n..], seen)
    {
      var d := dirty[n];
      assert dirty[n..][0] == d && dirty[n..][1..] == dirty[n + 1..];
      if Problem(d).Some? { return Err(Problem(d).value); }
      if d.id.value in seen { return Err(Repeated(d.id.value)); }
      seen := seen + {d.id.value};
      if d.id.value !in merged { return Err(Missing(d.id.value)); }
      merged := merged[d.id.value := Edited(merged[d.id.value], d)];
    }
    assert dirty[|dirty|..] == [];
    var out := RowsInOrder(rows, merged);
    r := Ok(out);
  }

  /* ---------- the timeline check ---------- */

  predicate Before(a: Row, b: Row) {
    a.segment.start < b.segment.start || (a.segment.start == b.segment.start && a.id < b.id)
  }

  predicate Sorted(rows: seq<Row>) {
    forall i, j :: 0 <= i < j < |rows| ==> Before(rows[i], rows[j])
  }

  function Insert(rows: seq<Row>, row: Row): (r: seq<Row>)
    ensures |r| == |rows| + 1
    ensures forall x :: x in r <==> x in rows || x == row
  {
    if rows == [] then [row]
    else if Before(row, rows[0]) then [row] + rows
    else
      var tail := Insert(rows[1..], row);
      assert forall x :: x in rows <==> x == rows[0] || x in rows[1..];
      [rows[0]] + tail
  }

  lemma {:induction false} InsertSorts(rows: seq<Row>, row: Row)
    requires Sorted(rows) && forall x <- rows :: x.id != row.id
    ensures Sorted(Insert(rows, row))
  {
    var out := Insert(rows, row);
    if rows == [] {
    } else if Before(row, rows[0]) {
      forall i, j | 0 <= i < j < |out| ensures Before(out[i], out[j]) {
        if i == 0 { assert j == 1 || Before(rows[0], rows[j - 1]); }
      }
    } else {
      assert rows[0] in rows;
      InsertSorts(rows[1..], row);
      var tail := Insert(rows[1..], row);
      forall i, j | 0 <= i < j < |out| ensures Before(out[i], out[j]) {
        if i == 0 {
          assert out[j] == tail[j - 1] && tail[j - 1] in tail;
          if out[j] != row { var k :| 0 <= k < |rows[1..]| && rows[1..][k] == out[j]; assert Before(rows[0], rows[k + 1]); }
        } else {
          assert Before(tail[i - 1], tail[j - 1]);
        }
      }
    }
  }

  function SortedRows(rows: seq<Row>): (r: seq<Row>)
    ensures |r| == |rows|
    ensures forall x :: x in r <==> x in rows
  {
    if rows == [] then [] else
      var r := Insert(SortedRows(rows[1..]), rows[0]);
      assert forall x :: x in rows <==> x == rows[0] || x in rows[1..];
      r
  }

  lemma {:induction false} SortedRowsSorts(rows: seq<Row>)
    requires Distinct(rows)
    ensures Sorted(SortedRows(rows))
  {
    if rows != [] {
      SortedRowsSorts(rows[1..]);
      forall x | x in SortedRows(rows[1..]) ensures x.id != rows[0].id {
        var k :| 0 <= k < |rows[1..]| && rows[1..][k] == x;
        assert rows[k + 1] == x;
      }
      InsertSorts(SortedRows(rows[1..]), rows[0]);
    }
  }

  /** Any two rows of the table, not only neighbours, overlap by at most the tolerance; all rows lie in the audio. */
  ghost predicate TimelineOk(table: Table, duration: real) {
    && (forall k <- table :: -0.001 <= table[k].start && table[k].end <= duration + 0.001)
    && (forall j, k :: j in table && k in table && Before(Row(j, table[j]), Row(k, table[k])) ==>
          table[j].end - 0.001 <= table[k].start)
  }

  ghost predicate TimelineOkRows(rows: seq<Row>, duration: real) {
    && (forall i :: 0 <= i < |rows| ==> -0.001 <= rows[i].segment.start && rows[i].segment.end <= duration + 0.001)
    && (forall i, j :: 0 <= i < j < |rows| ==> rows[i].segment.end - 0.001 <= rows[j].segment.start)
  }

  lemma OrderedRowsAreTheTable(rows: seq<Row>, ordered: seq<Row>)
    requires Distinct(rows) && ordered == SortedRows(rows)
    ensures forall i :: 0 <= i < |ordered| ==>
              ordered[i].id in AsTable(rows) && AsTable(rows)[ordered[i].id] == ordered[i].segment
    ensures forall k <- AsTable(rows) :: Row(k, AsTable(rows)[k]) in ordered
  {
    var table := AsTable(rows);
    forall i | 0 <= i < |ordered|
      ensures ordered[i].id in table && table[ordered[i].id] == ordered[i].segment
    {
      assert ordered[i] in rows;
      var k :| 0 <= k < |rows| && rows[k] == ordered[i];
      AsTableAt(rows, k);
    }
    forall k | k in table
      ensures Row(k, table[k]) in ordered
    {
      var i :| 0 <= i < |rows| && rows[i].id == k;
      AsTableAt(rows, i);
      assert rows[i] in rows;
    }
  }

  lemma TimelineOfRows(table: Table, ordered: seq<Row>, duration: real)
    requires forall i :: 0 <= i < |ordered| ==> ordered[i].id in table && table[ordered[i].id] == ordered[i].segment
    requires Sorted(ordered) && TimelineOk(table, duration)
    ensures TimelineOkRows(ordered, duration)
  {
    forall i, j | 0 <= i < j < |ordered|
      ensures ordered[i].segment.end - 0.001 <= ordered[j].segment.start
    {
      var a, b := ordered[i], ordered[j];
      assert Before(a, b) && a == Row(a.id, table[a.id]) && b == Row(b.id, table[b.id]);
    }
  }

  lemma TimelineOfTable(table: Table, ordered: seq<Row>, duration: real)
    requires forall k <- table :: Row(k, table[k]) in ordered
    requires Sorted(ordered) && TimelineOkRows(ordered, duration)
    ensures TimelineOk(table, duration)
  {
    forall k | k in table
      ensures -0.001 <= table[k].start && table[k].end <= duration + 0.001
    {
      var x :| 0 <= x < |ordered| && ordered[x] == Row(k, table[k]);
    }
    forall j, k | j in table && k in table && Before(Row(j, table[j]), Row(k, table[k]))
      ensures table[j].end - 0.001 <= table[k].start
    {
      var x :| 0 <= x < |ordered| && ordered[x] == Row(j, table[j]);
      var y :| 0 <= y < |ordered| && ordered[y] == Row(k, table[k]);
      assert x < y;
    }
  }

  lemma RowsAndTable(rows: seq<Row>, duration: real)
    requires Distinct(rows)
    ensures TimelineOkRows(SortedRows(rows), duration) <==> TimelineOk(AsTable(rows), duration)
  {
    SortedRowsSorts(rows);
    OrderedRowsAreTheTable(rows, SortedRows(rows));
    if TimelineOk(AsTable(rows), duration) { TimelineOfRows(AsTable(rows), SortedRows(rows), duration); }
    if TimelineOkRows(SortedRows(rows), duration) { TimelineOfTable(AsTable(rows), SortedRows(rows), duration); }
  }

  lemma NeighbourSuffices(ordered: seq<Row>, n: nat, duration: real)
    requires n < |ordered| && Sorted(ordered) && TimelineOkRows(ordered[..n], duration)
    requires (if n == 0 then 0.0 else ordered[n - 1].segment.end) - 0.001 <= ordered[n].segment.start
    requires ordered[n].segment.end <= duration + 0.001
    ensures TimelineOkRows(ordered[..n + 1], duration)
  {
    var longer := ordered[..n + 1];
    assert forall i :: 0 <= i < n ==> longer[i] == ordered[..n][i];
    if n > 0 { assert Before(ordered[n - 1], ordered[n]) && ordered[..n][n - 1] == ordered[n - 1]; }
    forall i, j | 0 <= i < j < |longer|
      ensures longer[i].segment.end - 0.001 <= longer[j].segment.start
    {
      if j == n && i < n - 1 {
        assert ordered[..n][i].segment.end - 0.001 <= ordered[..n][n - 1].segment.start;
      } else if j < n {
        assert longer[j] == ordered[..n][j];
      }
    }
  }

  /** The check looks only at neighbours in start order, yet accepts exactly the tables in which no two rows at all
      overlap by more than the tolerance and every row lies inside the audio. */
  method ValidateTimeline(rows: seq<Row>, duration: real) returns (problem: Option<Error>)
    requires Distinct(rows)
    ensures problem.None? <==> TimelineOk(AsTable(rows), duration)
  {
    hide TimelineOk, AsTable, SortedRows, Sorted, Before;
    var ordered := SortedRows(rows);
    SortedRowsSorts(rows);
    RowsAndTable(rows, duration);
    var previousEnd := 0.0;
    for n := 0 to |ordered|
      invariant previousEnd == if n == 0 then 0.0 else ordered[n - 1].segment.end
      invariant TimelineOkRows(ordered[..n], duration)
    {
      var start, end := ordered[n].segment.start, ordered[n].segment.end;
      if start < previousEnd - 0.001 {
        assert !TimelineOkRows(ordered, duration);
        return Some(Overlaps(ordered[n].id));
      }
      if end > duration + 0.001 {
        assert !TimelineOkRows(ordered, duration);
        return Some(PastTheEnd(ordered[n].id));
      }
      NeighbourSuffices(ordered, n, duration);
      previousEnd := end;
    }
    assert ordered[..|ordered|] == ordered;
    problem := None;
  }

  /* ---------- credited seconds ---------- */

  function Counted(s: Segment): real {
    if s.exclude then 0.0 else s.duration
  }

  ghost function Pick<T>(s: set<T>): (x: T)
    requires s != {}
    ensures x in s
  {
    var x :| x in s; x
  }

  ghost function Total(table: Table, keys: set<int>): real
    requires keys <= table.Keys
  {
    if keys == {} then 0.0 else
      var k := Pick(keys);
      Counted(table[k]) + Total(table, keys - {k})
  }

  /** The trainable seconds of a version: the durations of the rows that are not excluded. */
  ghost function TrainableSeconds(table: Table): real {
    Total(table, table.Keys)
  }

  lemma {:induction false} TotalSplits(table: Table, keys: set<int>, k: int)
    requires keys <= table.Keys && k in keys
    ensures Total(table, keys) == Counted(table[k]) + Total(table, keys - {k})
    decreases keys
  {
    var x := Pick(keys);
    if x != k {
      TotalSplits(table, keys - {x}, k);
      TotalSplits(table, keys - {k}, x);
      assert keys - {x} - {k} == keys - {k} - {x};
    }
  }

  ghost function IdsBefore(rows: seq<Row>, n: nat): (ids: set<int>)
    requires n <= |rows|
    ensures ids <= AsTable(rows).Keys
  {
    set i | 0 <= i < n :: rows[i].id
  }

  lemma OneMoreRow(rows: seq<Row>, n: nat)
    requires Distinct(rows) && n < |rows|
    ensures Total(AsTable(rows), IdsBefore(rows, n + 1)) ==
            Counted(rows[n].segment) + Total(AsTable(rows), IdsBefore(rows, n))
  {
    AsTableAt(rows, n);
    var more := IdsBefore(rows, n + 1);
    assert rows[n].id in more && rows[n].id !in IdsBefore(rows, n);
    TotalSplits(AsTable(rows), more, rows[n].id);
    assert more - {rows[n].id} == IdsBefore(rows, n);
  }

  lemma AllRows(rows: seq<Row>)
    ensures IdsBefore(rows, |rows|) == AsTable(rows).Keys
  {
  }

  method SumTrainable(rows: seq<Row>) returns (seconds: real)
    requires Distinct(rows)
    ensures seconds == TrainableSeconds(AsTable(rows))
  {
    seconds := 0.0;
    for n := 0 to |rows|
      invariant seconds == Total(AsTable(rows), IdsBefore(rows, n))
    {
      OneMoreRow(rows, n);
      if !rows[n].segment.exclude { seconds := seconds + rows[n].segment.duration; }
    }
    AllRows(rows);
  }

  lemma {:induction false} TotalDependsOnKeys(table: Table, table': Table, keys: set<int>)
    requires keys <= table.Keys && keys <= table'.Keys && forall k <- keys :: table[k] == table'[k]
    ensures Total(table, keys) == Total(table', keys)
    decreases keys
  {
    if keys != {} { TotalDependsOnKeys(table, table', keys - {Pick(keys)}); }
  }

  /** An empty version is credited with nothing, and one row more adds its duration unless the row is excluded. */
  lemma CreditOfRows(table: Table, k: int, s: Segment)
    requires k !in table
    ensures TrainableSeconds(map[]) == 0.0
    ensures s.exclude ==> TrainableSeconds(table[k := s]) == TrainableSeconds(table)
    ensures !s.exclude ==> TrainableSeconds(table[k := s]) == TrainableSeconds(table) + s.duration
  {
    var more := table[k := s];
    TotalSplits(more, more.Keys, k);
    assert more.Keys - {k} == table.Keys;
    TotalDependsOnKeys(table, more, table.Keys);
  }

  /** Stored durations that agree with the stored times up to rounding, for rows that start at or after zero. */
  ghost predicate Faithful(table: Table) {
    forall k <- table ::
      && 0.0 <= table[k].start <= table[k].end
      && table[k].duration <= table[k].end - table[k].start + 0.0005
  }

  lemma {:induction false} LastRow(table: Table, keys: set<int>) returns (m: int)
    requires keys <= table.Keys && keys != {}
    ensures m in keys && forall k <- keys :: k != m ==> Before(Row(k, table[k]), Row(m, table[m]))
    decreases keys
  {
    var x := Pick(keys);
    if keys == {x} {
      m := x;
    } else {
      var n := LastRow(table, keys - {x});
      m := if Before(Row(n, table[n]), Row(x, table[x])) then x else n;
    }
  }

  lemma {:induction false} TotalIsBounded(table: Table, duration: real, keys: set<int>, m: int)
    requires Faithful(table) && TimelineOk(table, duration)
    requires keys <= table.Keys && m in keys
    requires forall k <- keys :: k != m ==> Before(Row(k, table[k]), Row(m, table[m]))
    ensures Total(table, keys) <= table[m].end + 0.0015 * |keys| as real - 0.001
    decreases keys
  {
    var rest := keys - {m};
    TotalSplits(table, keys, m);
    assert |keys| == |rest| + 1;
    if rest != {} {
      var n := LastRow(table, rest);
      TotalIsBounded(table, duration, rest, n);
      assert table[n].end - 0.001 <= table[m].start;
    }
  }

  /** A version that passes the timeline check is credited with no more than the audio's length, up to 1.5 ms for each
      of its rows. */
  lemma CreditIsBounded(table: Table, duration: real)
    requires Faithful(table) && TimelineOk(table, duration) && 0.0 <= duration
    ensures TrainableSeconds(table) <= duration + 0.0015 * |table| as real
  {
    if table.Keys != {} {
      var m := LastRow(table, table.Keys);
      TotalIsBounded(table, duration, table.Keys, m);
      assert |table.Keys| == |table|;
    }
  }

  /** Edits keep stored durations faithful, so the bound holds for every version built from faithful rows. */
  lemma EditsStayFaithful(table: Table, dirty: seq<Dirty>)
    requires Faithful(table) && Apply(table, dirty).Ok?
    ensures Faithful(Apply(table, dirty).value)
  {
    ApplyMeaning(table, dirty);
    var after := Apply(table, dirty).value;
    forall k | k in after
      ensures 0.0 <= after[k].start <= after[k].end && after[k].duration <= after[k].end - after[k].start + 0.0005
    {
      if i :| 0 <= i < |dirty| && dirty[i].id == Some(k) {
        assert Takes(table[k], dirty[i], after[k]);
      } else {
        assert Untouched(dirty, k);
      }
    }
  }
}
