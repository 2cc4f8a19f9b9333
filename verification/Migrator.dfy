// The migration of one table: rows are mapped, gathered in batches and upserted
// in bulk from a snapshot, which must leave what upserting them one by one
// would leave.
module Migrator {
  import opened Wrappers

  datatype Value = Null | Num(n: int) | Flag(b: bool) | Text(s: string)

  // A row, or part of one, by column name.
  type Row = map<string, Value>

  type Key = seq<Value>

  // hasDefault: the column has a client or server default, whose value follows.
  datatype Kind = Varchar | Integer | Decimal | Boolean | Other

  datatype Column = Column(name: string, kind: Kind, nullable: bool, hasDefault: bool, default: Value)

  datatype Schema = Schema(columns: seq<Column>, pk: seq<string>)

  type Table = map<Key, Row>

  datatype Counts = Counts(inserted: nat, updated: nat, kept: nat)

  datatype Outcome = Inserted | Updated | Unchanged

  // ---- tables ----

  function Names(columns: seq<Column>): set<string> {
    set i | 0 <= i < |columns| :: columns[i].name
  }

  // What an insert stores in the columns it is not given.
  function Blank(columns: seq<Column>): (r: Row)
    ensures r.Keys == Names(columns)
  {
    if columns == [] then map[] else
      var init := columns[..|columns| - 1];
      var last := columns[|columns| - 1];
      assert columns == init + [last];
      Blank(init)[last.name := if last.hasDefault then last.default else Null]
  }

  predicate Keyed(pk: seq<string>, data: Row) {
    forall i :: 0 <= i < |pk| ==> pk[i] in data
  }

  // The values of the key columns the row has.
  function KeyOf(pk: seq<string>, data: Row): Key {
    if pk == [] then [] else (if pk[0] in data then [data[pk[0]]] else []) + KeyOf(pk[1..], data)
  }

  lemma {:induction false} SameKey(pk: seq<string>, a: Row, b: Row, i: nat)
    requires Keyed(pk, a) && Keyed(pk, b) && KeyOf(pk, a) == KeyOf(pk, b) && i < |pk|
    ensures a[pk[i]] == b[pk[i]]
    decreases pk
  {
    assert pk[0] in a && pk[0] in b;
    assert KeyOf(pk, a)[0] == a[pk[0]] && KeyOf(pk, b)[0] == b[pk[0]];
    if i > 0 {
      assert forall j :: 0 <= j < |pk| - 1 ==> pk[1..][j] == pk[j + 1];
      assert KeyOf(pk, a)[1..] == KeyOf(pk[1..], a) && KeyOf(pk, b)[1..] == KeyOf(pk[1..], b);
      SameKey(pk[1..], a, b, i - 1);
    }
  }

  lemma {:induction false} OverlaidKey(pk: seq<string>, base: Row, data: Row)
    requires Keyed(pk, data)
    ensures KeyOf(pk, base + data) == KeyOf(pk, data)
    decreases pk
  {
    if pk != [] {
      assert forall j :: 0 <= j < |pk| - 1 ==> pk[1..][j] == pk[j + 1];
      OverlaidKey(pk[1..], base, data);
    }
  }

  // The table has a key, and every row is complete and stored under its own.
  predicate WellKeyed(s: Schema, t: Table) {
    s.pk != [] && forall key :: key in t ==>
      t[key].Keys == Names(s.columns) && Keyed(s.pk, t[key]) && KeyOf(s.pk, t[key]) == key
  }

  // A row ready for the target: its key is mapped and it has no foreign column.
  predicate Ready(s: Schema, data: Row) {
    Keyed(s.pk, data) && data.Keys <= Names(s.columns)
  }

  predicate AllReady(s: Schema, rows: seq<Row>) {
    forall i :: 0 <= i < |rows| ==> Ready(s, rows[i])
  }

  predicate DistinctKeys(s: Schema, rows: seq<Row>)
  {
    forall i, j :: 0 <= i < j < |rows| ==> KeyOf(s.pk, rows[i]) != KeyOf(s.pk, rows[j])
  }

  predicate Changed(s: Schema, old_: Row, data: Row) {
    exists col :: col in data && col !in s.pk && col in old_ && old_[col] != data[col]
  }

  // ---- one row at a time ----

  function Judge(s: Schema, t: Table, data: Row): Outcome
  {
    var key := KeyOf(s.pk, data);
    if key !in t then Inserted else if Changed(s, t[key], data) then Updated else Unchanged
  }

  function UpsertRow(s: Schema, t: Table, data: Row): Table
  {
    var key := KeyOf(s.pk, data);
    match Judge(s, t, data)
    case Inserted => t[key := Blank(s.columns) + data]
    case Updated => t[key := t[key] + data]
    case Unchanged => t
  }

  function Plus(c: Counts, o: Outcome): Counts {
    match o
    case Inserted => c.(inserted := c.inserted + 1)
    case Updated => c.(updated := c.updated + 1)
    case Unchanged => c.(kept := c.kept + 1)
  }

  function Add(a: Counts, b: Counts): Counts {
    Counts(a.inserted + b.inserted, a.updated + b.updated, a.kept + b.kept)
  }

  const ZERO := Counts(0, 0, 0)

  // The table and the counts after upserting all rows in order.
  function UpsertAll(s: Schema, t: Table, rows: seq<Row>): Table
    decreases rows
  {
    if rows == [] then t else UpsertAll(s, UpsertRow(s, t, rows[0]), rows[1..])
  }

  function CountAll(s: Schema, t: Table, rows: seq<Row>): Counts
    decreases rows
  {
    if rows == [] then ZERO
    else Plus(CountAll(s, UpsertRow(s, t, rows[0]), rows[1..]), Judge(s, t, rows[0]))
  }

  // ---- what it all comes to ----

  function Keys(s: Schema, rows: seq<Row>): set<Key>
  {
    set row | row in rows :: KeyOf(s.pk, row)
  }

  function Base(s: Schema, t: Table, key: Key): Row {
    if key in t then t[key] else Blank(s.columns)
  }

  // t' is t with every row laid over what its key had, and nothing else touched.
  predicate Overlays(s: Schema, t: Table, rows: seq<Row>, t': Table)
  {
    t'.Keys == t.Keys + Keys(s, rows) &&
    (forall key :: key in t && key !in Keys(s, rows) ==> t'[key] == t[key]) &&
    (forall row :: row in rows ==> KeyOf(s.pk, row) in t' && t'[KeyOf(s.pk, row)] == Base(s, t, KeyOf(s.pk, row)) + row)
  }

  // How the rows compare with one snapshot of the table.
  function Tally(s: Schema, t: Table, rows: seq<Row>): Counts
  {
    if rows == [] then ZERO else Plus(Tally(s, t, rows[..|rows| - 1]), Judge(s, t, rows[|rows| - 1]))
  }

  lemma UnchangedIsOverlaid(s: Schema, t: Table, data: Row)
    requires WellKeyed(s, t) && Ready(s, data) && Judge(s, t, data) == Unchanged
    ensures var key := KeyOf(s.pk, data); t[key] + data == t[key]
  {
    var key := KeyOf(s.pk, data);
    forall col | col in data
      ensures col in t[key] && t[key][col] == data[col]
    {
      assert col in Names(s.columns);
      if col in s.pk {
        var i :| 0 <= i < |s.pk| && s.pk[i] == col;
        SameKey(s.pk, t[key], data, i);
      }
    }
  }

  // Whatever the outcome, a row is laid over what its key had.
  lemma UpsertRowOverlays(s: Schema, t: Table, data: Row)
    requires WellKeyed(s, t) && Ready(s, data)
    ensures UpsertRow(s, t, data) == t[KeyOf(s.pk, data) := Base(s, t, KeyOf(s.pk, data)) + data]
    ensures WellKeyed(s, UpsertRow(s, t, data))
  {
    var key := KeyOf(s.pk, data);
    if Judge(s, t, data) == Unchanged {
      UnchangedIsOverlaid(s, t, data);
    }
    var row := Base(s, t, key) + data;
    assert row.Keys == Names(s.columns);
    OverlaidKey(s.pk, Base(s, t, key), data);
  }

  // ---- the sequential run in closed form ----

  lemma {:induction false} TallyFront(s: Schema, t: Table, rows: seq<Row>)
    requires rows != []
    ensures Tally(s, t, rows) == Plus(Tally(s, t, rows[1..]), Judge(s, t, rows[0]))
    decreases rows
  {
    if |rows| > 1 {
      var init := rows[..|rows| - 1];
      TallyFront(s, t, init);
      assert init[1..] == rows[1..][..|rows| - 2];
    } else {
      assert rows[1..] == [] && rows[..0] == [];
    }
  }

  lemma {:induction false} TallyStable(s: Schema, t: Table, t': Table, rows: seq<Row>)
    requires forall row :: row in rows ==> Judge(s, t, row) == Judge(s, t', row)
    ensures Tally(s, t, rows) == Tally(s, t', rows)
    decreases rows
  {
    if rows != [] {
      TallyStable(s, t, t', rows[..|rows| - 1]);
    }
  }

  lemma FirstKeyIsNew(s: Schema, rows: seq<Row>)
    requires rows != [] && DistinctKeys(s, rows)
    ensures DistinctKeys(s, rows[1..])
    ensures forall row :: row in rows[1..] ==> KeyOf(s.pk, row) != KeyOf(s.pk, rows[0])
    ensures forall row :: row in rows <==> row == rows[0] || row in rows[1..]
  {
    forall row | row in rows[1..]
      ensures KeyOf(s.pk, row) != KeyOf(s.pk, rows[0])
    {
      var j :| 0 <= j < |rows| - 1 && rows[1..][j] == row;
      assert rows[j + 1] == row;
    }
  }

  lemma OverlayFirst(s: Schema, t: Table, rows: seq<Row>, t1: Table, t': Table)
    requires rows != [] && DistinctKeys(s, rows)
    requires t1 == t[KeyOf(s.pk, rows[0]) := Base(s, t, KeyOf(s.pk, rows[0])) + rows[0]]
    requires Overlays(s, t1, rows[1..], t')
    ensures Overlays(s, t, rows, t')
  {
    FirstKeyIsNew(s, rows);
    assert Keys(s, rows) == {KeyOf(s.pk, rows[0])} + Keys(s, rows[1..]);
    forall row | row in rows
      ensures var key := KeyOf(s.pk, row); key in t' && t'[key] == Base(s, t, key) + row
    {
      if row !in rows[1..] {
        assert KeyOf(s.pk, row) !in Keys(s, rows[1..]);
      }
    }
  }

  lemma FirstLeavesRest(s: Schema, t: Table, rows: seq<Row>)
    requires WellKeyed(s, t) && AllReady(s, rows) && rows != [] && DistinctKeys(s, rows)
    ensures Tally(s, UpsertRow(s, t, rows[0]), rows[1..]) == Tally(s, t, rows[1..])
  {
    UpsertRowOverlays(s, t, rows[0]);
    FirstKeyIsNew(s, rows);
    TallyStable(s, UpsertRow(s, t, rows[0]), t, rows[1..]);
  }

  // With distinct keys the sequential run lays each row over what its key had
  // at the start ...
  lemma {:induction false} SequentialOverlays(s: Schema, t: Table, rows: seq<Row>)
    requires WellKeyed(s, t) && AllReady(s, rows) && DistinctKeys(s, rows)
    ensures Overlays(s, t, rows, UpsertAll(s, t, rows)) && WellKeyed(s, UpsertAll(s, t, rows))
    decreases rows
  {
    if rows != [] {
      var t1 := UpsertRow(s, t, rows[0]);
      UpsertRowOverlays(s, t, rows[0]);
      FirstKeyIsNew(s, rows);
      SequentialOverlays(s, t1, rows[1..]);
      OverlayFirst(s, t, rows, t1, UpsertAll(s, t1, rows[1..]));
    }
  }

  // ... and judges each row as the first snapshot would.
  lemma {:induction false} SequentialTally(s: Schema, t: Table, rows: seq<Row>)
    requires WellKeyed(s, t) && AllReady(s, rows) && DistinctKeys(s, rows)
    ensures CountAll(s, t, rows) == Tally(s, t, rows)
    decreases rows
  {
    if rows != [] {
      UpsertRowOverlays(s, t, rows[0]);
      FirstKeyIsNew(s, rows);
      SequentialTally(s, UpsertRow(s, t, rows[0]), rows[1..]);
      FirstLeavesRest(s, t, rows);
      TallyFront(s, t, rows);
    }
  }

  lemma OverlayIsUnique(s: Schema, t: Table, rows: seq<Row>, t1: Table, t2: Table)
    requires Overlays(s, t, rows, t1) && Overlays(s, t, rows, t2)
    ensures t1 == t2
  {
    forall key | key in t1
      ensures t1[key] == t2[key]
    {
      if key in Keys(s, rows) {
        var row :| row in rows && KeyOf(s.pk, row) == key;
      }
    }
  }

  lemma {:induction false} UpsertAllAppend(s: Schema, t: Table, xs: seq<Row>, ys: seq<Row>)
    ensures UpsertAll(s, t, xs + ys) == UpsertAll(s, UpsertAll(s, t, xs), ys)
    ensures CountAll(s, t, xs + ys) == Add(CountAll(s, t, xs), CountAll(s, UpsertAll(s, t, xs), ys))
    decreases xs
  {
    var all := xs + ys;
    if xs == [] {
      assert all == ys;
    } else {
      assert all[0] == xs[0] && all[1..] == xs[1..] + ys;
      UpsertAllAppend(s, UpsertRow(s, t, xs[0]), xs[1..], ys);
    }
  }

  // ---- the bulk run in closed form ----

  function Picked(s: Schema, t: Table, rows: seq<Row>, o: Outcome): (r: seq<Row>)
    ensures forall row :: row in r <==> row in rows && Judge(s, t, row) == o
  {
    if rows == [] then [] else
      var last := rows[|rows| - 1];
      assert forall row :: row in rows <==> row in rows[..|rows| - 1] || row == last;
      Picked(s, t, rows[..|rows| - 1], o) + (if Judge(s, t, last) == o then [last] else [])
  }

  lemma PickedSnoc(s: Schema, t: Table, rows: seq<Row>, i: nat, o: Outcome)
    requires i < |rows|
    ensures rows[i] in rows
    ensures Picked(s, t, rows[..i + 1], o)
         == Picked(s, t, rows[..i], o) + (if Judge(s, t, rows[i]) == o then [rows[i]] else [])
  {
    assert rows[..i + 1][..i] == rows[..i];
  }

  lemma {:induction false} PickedCounts(s: Schema, t: Table, rows: seq<Row>)
    ensures Tally(s, t, rows)
         == Counts(|Picked(s, t, rows, Inserted)|, |Picked(s, t, rows, Updated)|, |Picked(s, t, rows, Unchanged)|)
    decreases rows
  {
    if rows != [] {
      PickedCounts(s, t, rows[..|rows| - 1]);
    }
  }

  lemma {:induction false} PickedDistinct(s: Schema, t: Table, rows: seq<Row>, o: Outcome)
    requires DistinctKeys(s, rows)
    ensures DistinctKeys(s, Picked(s, t, rows, o))
    decreases rows
  {
    if rows != [] {
      var init, last := rows[..|rows| - 1], rows[|rows| - 1];
      PickedDistinct(s, t, init, o);
      var p := Picked(s, t, init, o);
      forall i | 0 <= i < |p|
        ensures KeyOf(s.pk, p[i]) != KeyOf(s.pk, last)
      {
        assert p[i] in p;
        var j :| 0 <= j < |init| && init[j] == p[i];
      }
    }
  }

  lemma SameKeySameRow(s: Schema, rows: seq<Row>, a: Row, b: Row)
    requires DistinctKeys(s, rows) && a in rows && b in rows
    requires KeyOf(s.pk, a) == KeyOf(s.pk, b)
    ensures a == b
  {
    var i :| 0 <= i < |rows| && rows[i] == a;
    var j :| 0 <= j < |rows| && rows[j] == b;
    assert i == j;
  }

  lemma PickedElsewhere(s: Schema, t: Table, rows: seq<Row>, o: Outcome, row: Row)
    requires DistinctKeys(s, rows) && row in rows && Judge(s, t, row) != o
    ensures KeyOf(s.pk, row) !in Keys(s, Picked(s, t, rows, o))
  {
    forall other | other in Picked(s, t, rows, o)
      ensures KeyOf(s.pk, other) != KeyOf(s.pk, row)
    {
      if KeyOf(s.pk, other) == KeyOf(s.pk, row) {
        SameKeySameRow(s, rows, other, row);
      }
    }
  }

  lemma BulkRow(s: Schema, t: Table, rows: seq<Row>, t1: Table, t2: Table, row: Row)
    requires WellKeyed(s, t) && AllReady(s, rows) && DistinctKeys(s, rows) && row in rows
    requires Overlays(s, t, Picked(s, t, rows, Inserted), t1)
    requires Overlays(s, t1, Picked(s, t, rows, Updated), t2)
    ensures KeyOf(s.pk, row) in t2 && t2[KeyOf(s.pk, row)] == Base(s, t, KeyOf(s.pk, row)) + row
  {
    match Judge(s, t, row)
    case Inserted =>
      assert row in Picked(s, t, rows, Inserted);
      PickedElsewhere(s, t, rows, Updated, row);
    case Updated =>
      PickedElsewhere(s, t, rows, Inserted, row);
      assert row in Picked(s, t, rows, Updated);
    case Unchanged =>
      PickedElsewhere(s, t, rows, Inserted, row);
      PickedElsewhere(s, t, rows, Updated, row);
      UnchangedIsOverlaid(s, t, row);
  }

  lemma PickedKeys(s: Schema, t: Table, rows: seq<Row>, o: Outcome)
    ensures Keys(s, Picked(s, t, rows, o)) <= Keys(s, rows)
  {
  }

  lemma TwoWrites(t: Table, k1: set<Key>, t1: Table, k2: set<Key>, t2: Table, k: set<Key>)
    requires t1.Keys == t.Keys + k1 && t2.Keys == t1.Keys + k2 && k1 <= k && k2 <= k <= t2.Keys
    requires forall key :: key in t && key !in k1 ==> t1[key] == t[key]
    requires forall key :: key in t1 && key !in k2 ==> t2[key] == t1[key]
    ensures t2.Keys == t.Keys + k && forall key :: key in t && key !in k ==> t2[key] == t[key]
  {
  }

  lemma BulkKeys(s: Schema, t: Table, rows: seq<Row>, t1: Table, t2: Table)
    requires WellKeyed(s, t) && AllReady(s, rows) && DistinctKeys(s, rows)
    requires Overlays(s, t, Picked(s, t, rows, Inserted), t1)
    requires Overlays(s, t1, Picked(s, t, rows, Updated), t2)
    ensures t2.Keys == t.Keys + Keys(s, rows)
    ensures forall key :: key in t && key !in Keys(s, rows) ==> t2[key] == t[key]
  {
    forall key | key in Keys(s, rows)
      ensures key in t2
    {
      var row :| row in rows && KeyOf(s.pk, row) == key;
      BulkRow(s, t, rows, t1, t2, row);
    }
    PickedKeys(s, t, rows, Inserted);
    PickedKeys(s, t, rows, Updated);
    TwoWrites(t, Keys(s, Picked(s, t, rows, Inserted)), t1, Keys(s, Picked(s, t, rows, Updated)), t2, Keys(s, rows));
  }

  // Inserting the new rows and then updating the changed ones is the overlay.
  lemma BulkOverlays(s: Schema, t: Table, rows: seq<Row>, t1: Table, t2: Table)
    requires WellKeyed(s, t) && AllReady(s, rows) && DistinctKeys(s, rows)
    requires Overlays(s, t, Picked(s, t, rows, Inserted), t1)
    requires Overlays(s, t1, Picked(s, t, rows, Updated), t2)
    ensures Overlays(s, t, rows, t2)
  {
    BulkKeys(s, t, rows, t1, t2);
    forall row | row in rows
      ensures KeyOf(s.pk, row) in t2 && t2[KeyOf(s.pk, row)] == Base(s, t, KeyOf(s.pk, row)) + row
    {
      BulkRow(s, t, rows, t1, t2, row);
    }
  }

  // ---- what a migration promises ----

  lemma {:induction false} RowsAccountedFor(s: Schema, t: Table, rows: seq<Row>)
    ensures var c := CountAll(s, t, rows); c.inserted + c.updated + c.kept == |rows|
    decreases rows
  {
    if rows != [] {
      RowsAccountedFor(s, UpsertRow(s, t, rows[0]), rows[1..]);
    }
  }

  // The stored keys whose rows differ from before.
  function ChangedKeys(t: Table, t': Table): set<Key> {
    set key | key in t && (key !in t' || t'[key] != t[key])
  }

  // Rows inserted are those the table grows by, whatever the keys ...
  lemma {:induction false} InsertedCount(s: Schema, t: Table, rows: seq<Row>)
    requires WellKeyed(s, t) && AllReady(s, rows)
    ensures CountAll(s, t, rows).inserted == |UpsertAll(s, t, rows).Keys| - |t.Keys|
    decreases rows
  {
    if rows != [] {
      UpsertRowOverlays(s, t, rows[0]);
      InsertedCount(s, UpsertRow(s, t, rows[0]), rows[1..]);
      RowGrows(s, t, rows[0]);
    }
  }

  lemma RowGrows(s: Schema, t: Table, data: Row)
    ensures |UpsertRow(s, t, data).Keys| == |t.Keys| + if Judge(s, t, data) == Inserted then 1 else 0
  {
    var key := KeyOf(s.pk, data);
    assert UpsertRow(s, t, data).Keys == if Judge(s, t, data) == Inserted then t.Keys + {key} else t.Keys;
  }

  // ... and with distinct keys the rows updated are the stored rows that change.
  lemma {:induction false} UpdatedCount(s: Schema, t: Table, rows: seq<Row>)
    requires WellKeyed(s, t) && AllReady(s, rows) && DistinctKeys(s, rows)
    ensures CountAll(s, t, rows).updated == |ChangedKeys(t, UpsertAll(s, t, rows))|
    decreases rows
  {
    if rows == [] {
      assert ChangedKeys(t, t) == {};
    } else {
      var t1 := UpsertRow(s, t, rows[0]);
      UpsertRowOverlays(s, t, rows[0]);
      FirstKeyIsNew(s, rows);
      UpdatedCount(s, t1, rows[1..]);
      FirstStays(s, t1, rows);
      FirstChange(s, t, rows[0], UpsertAll(s, t1, rows[1..]));
    }
  }

  lemma FirstStays(s: Schema, t1: Table, rows: seq<Row>)
    requires WellKeyed(s, t1) && AllReady(s, rows) && rows != [] && DistinctKeys(s, rows)
    requires KeyOf(s.pk, rows[0]) in t1
    ensures var t', key := UpsertAll(s, t1, rows[1..]), KeyOf(s.pk, rows[0]); key in t' && t'[key] == t1[key]
  {
    FirstKeyIsNew(s, rows);
    SequentialOverlays(s, t1, rows[1..]);
    assert KeyOf(s.pk, rows[0]) !in Keys(s, rows[1..]);
  }

  // A row upserted before the others, and not touched by them, is the one more
  // that changes, if it was judged an update.
  lemma FirstChange(s: Schema, t: Table, data: Row, t': Table)
    requires WellKeyed(s, t) && Ready(s, data)
    requires var t1, key := UpsertRow(s, t, data), KeyOf(s.pk, data); key in t1 && key in t' && t'[key] == t1[key]
    ensures |ChangedKeys(t, t')|
         == |ChangedKeys(UpsertRow(s, t, data), t')| + if Judge(s, t, data) == Updated then 1 else 0
  {
    var t1, key := UpsertRow(s, t, data), KeyOf(s.pk, data);
    match Judge(s, t, data)
    case Updated =>
      UpdateChanges(s, t[key], data);
      OneMoreChange(t, key, t1[key], t');
    case Inserted => NoMoreChange(t, key, t1[key], t');
    case Unchanged =>
  }

  lemma NoMoreChange(t: Table, key: Key, row: Row, t': Table)
    requires key !in t && key in t' && t'[key] == row
    ensures ChangedKeys(t, t') == ChangedKeys(t[key := row], t')
  {
  }

  lemma UpdateChanges(s: Schema, row: Row, data: Row)
    requires Changed(s, row, data)
    ensures row + data != row
  {
    var col :| col in data && col !in s.pk && col in row && row[col] != data[col];
    assert (row + data)[col] == data[col];
  }

  lemma OneMoreChange(t: Table, key: Key, row: Row, t': Table)
    requires key in t && row != t[key] && key in t' && t'[key] == row
    ensures |ChangedKeys(t, t')| == |ChangedKeys(t[key := row], t')| + 1
  {
    assert ChangedKeys(t, t') == ChangedKeys(t[key := row], t') + {key};
  }

  // Rows with other keys and columns that are not mapped stay as they were;
  // mapped columns hold what was migrated.
  lemma MigratedContents(s: Schema, t: Table, rows: seq<Row>)
    requires WellKeyed(s, t) && AllReady(s, rows) && DistinctKeys(s, rows)
    ensures var t' := UpsertAll(s, t, rows);
      t'.Keys == t.Keys + Keys(s, rows) &&
      (forall key :: key in t && key !in Keys(s, rows) ==> t'[key] == t[key]) &&
      (forall i, col :: 0 <= i < |rows| && col in rows[i] ==>
        var key := KeyOf(s.pk, rows[i]); key in t' && col in t'[key] && t'[key][col] == rows[i][col]) &&
      (forall i, col ::
        0 <= i < |rows| && KeyOf(s.pk, rows[i]) in t && col in t[KeyOf(s.pk, rows[i])] && col !in rows[i] ==>
        var key := KeyOf(s.pk, rows[i]); col in t'[key] && t'[key][col] == t[key][col])
  {
    SequentialOverlays(s, t, rows);
    assert forall i :: 0 <= i < |rows| ==> rows[i] in rows;
  }

  lemma {:induction false} NothingToDo(s: Schema, t: Table, rows: seq<Row>)
    requires forall i :: 0 <= i < |rows| ==> Judge(s, t, rows[i]) == Unchanged
    ensures UpsertAll(s, t, rows) == t && CountAll(s, t, rows) == Counts(0, 0, |rows|)
    decreases rows
  {
    if rows != [] {
      assert Judge(s, t, rows[0]) == Unchanged;
      NothingToDo(s, t, rows[1..]);
    }
  }

  // Migrating the same rows again reports every one unchanged and leaves the
  // table alone.
  lemma RerunChangesNothing(s: Schema, t: Table, rows: seq<Row>)
    requires WellKeyed(s, t) && AllReady(s, rows) && DistinctKeys(s, rows)
    ensures var t' := UpsertAll(s, t, rows);
      UpsertAll(s, t', rows) == t' && CountAll(s, t', rows) == Counts(0, 0, |rows|)
  {
    MigratedContents(s, t, rows);
    NothingToDo(s, UpsertAll(s, t, rows), rows);
  }

  // ---- mapping ----

  datatype Origin = From(col: string) | Const(value: Value) | Neither

  function MapColumns(mapping: seq<(string, Origin)>, names: set<string>, row: Row): (data: Row)
    ensures data.Keys <= names
  {
    if mapping == [] then map[] else
      var data := MapColumns(mapping[..|mapping| - 1], names, row);
      MapColumn(mapping[|mapping| - 1], names, row, data)
  }

  function MapColumn(entry: (string, Origin), names: set<string>, row: Row, data: Row): Row {
    if entry.0 !in names then data else
      match entry.1
      case From(col) => if col in row then data[entry.0 := row[col]] else data
      case Const(value) => data[entry.0 := value]
      case Neither => data
  }

  function Zero(kind: Kind): Value {
    match kind
    case Varchar => Text("")
    case Integer => Num(0)
    case Decimal => Num(0)
    case Boolean => Flag(false)
    case Other => Text("")
  }

  function Fill(column: Column, data: Row): Row {
    if column.name in data || column.nullable || column.hasDefault then data
    else data[column.name := Zero(column.kind)]
  }

  function FillAll(columns: seq<Column>, data: Row): (r: Row)
    ensures data.Keys <= r.Keys <= data.Keys + Names(columns)
  {
    if columns == [] then data else
      var r := FillAll(columns[..|columns| - 1], data);
      assert Names(columns[..|columns| - 1]) <= Names(columns) && columns[|columns| - 1].name in Names(columns);
      Fill(columns[|columns| - 1], r)
  }

  function MapRow(s: Schema, mapping: seq<(string, Origin)>, row: Row): (data: Row)
    ensures data.Keys <= Names(s.columns)
  {
    FillAll(s.columns, MapColumns(mapping, Names(s.columns), row))
  }

  function MapAll(s: Schema, mapping: seq<(string, Origin)>, rows: seq<Row>): (data: seq<Row>)
    ensures |data| == |rows| && forall i :: 0 <= i < |rows| ==> data[i] == MapRow(s, mapping, rows[i])
  {
    seq(|rows|, i requires 0 <= i < |rows| => MapRow(s, mapping, rows[i]))
  }

  predicate Uniform(rows: seq<Row>) {
    forall i :: 0 <= i < |rows| ==> rows[i].Keys == rows[0].Keys
  }

  lemma {:induction false} MappedAlike(mapping: seq<(string, Origin)>, names: set<string>, a: Row, b: Row)
    requires a.Keys == b.Keys
    ensures MapColumns(mapping, names, a).Keys == MapColumns(mapping, names, b).Keys
  {
    if mapping != [] {
      MappedAlike(mapping[..|mapping| - 1], names, a, b);
    }
  }

  lemma {:induction false} FilledAlike(columns: seq<Column>, a: Row, b: Row)
    requires a.Keys == b.Keys
    ensures FillAll(columns, a).Keys == FillAll(columns, b).Keys
  {
    if columns != [] {
      FilledAlike(columns[..|columns| - 1], a, b);
    }
  }

  // Rows of one query are mapped to the same columns, so one insert statement
  // can take them all.
  lemma MappedRowsAreUniform(s: Schema, mapping: seq<(string, Origin)>, rows: seq<Row>)
    requires Uniform(rows)
    ensures Uniform(MapAll(s, mapping, rows))
  {
    forall i | 0 <= i < |rows|
      ensures MapRow(s, mapping, rows[i]).Keys == MapRow(s, mapping, rows[0]).Keys
    {
      MappedAlike(mapping, Names(s.columns), rows[i], rows[0]);
      var a, b := MapColumns(mapping, Names(s.columns), rows[i]), MapColumns(mapping, Names(s.columns), rows[0]);
      FilledAlike(s.columns, a, b);
    }
  }

  // The value a mapping entry supplies for a source row, if any.
  predicate Supplies(origin: Origin, row: Row, v: Value) {
    match origin
    case From(col) => col in row && row[col] == v
    case Const(value) => value == v
    case Neither => false
  }

  predicate Silent(origin: Origin, row: Row) {
    match origin
    case From(col) => col !in row
    case Const(_) => false
    case Neither => true
  }

  // A mapping and a schema name each column once.
  predicate OnceEach(mapping: seq<(string, Origin)>) {
    forall i, j :: 0 <= i < j < |mapping| ==> mapping[i].0 != mapping[j].0
  }

  predicate Mentions(mapping: seq<(string, Origin)>, name: string) {
    exists i :: 0 <= i < |mapping| && mapping[i].0 == name
  }

  predicate OneOfName(columns: seq<Column>) {
    forall i, j :: 0 <= i < j < |columns| ==> columns[i].name != columns[j].name
  }

  lemma {:induction false} MapColumnsMentions(
    mapping: seq<(string, Origin)>, names: set<string>, row: Row, name: string)
    requires name in MapColumns(mapping, names, row)
    ensures Mentions(mapping, name)
    decreases mapping
  {
    var n := |mapping| - 1;
    if name in MapColumns(mapping[..n], names, row) {
      MapColumnsMentions(mapping[..n], names, row, name);
      var i :| 0 <= i < n && mapping[..n][i].0 == name;
      assert mapping[i].0 == name;
    } else {
      assert mapping[n].0 == name;
    }
  }

  lemma {:induction false} MapColumnsMeans(mapping: seq<(string, Origin)>, names: set<string>, row: Row, i: nat)
    requires OnceEach(mapping) && i < |mapping| && mapping[i].0 in names
    ensures var data, (name, origin) := MapColumns(mapping, names, row), mapping[i];
      if name in data then Supplies(origin, row, data[name]) else Silent(origin, row)
    decreases mapping
  {
    var n := |mapping| - 1;
    var name, before := mapping[i].0, MapColumns(mapping[..n], names, row);
    if i < n {
      MapColumnsMeans(mapping[..n], names, row, i);
      assert mapping[..n][i] == mapping[i] && mapping[n].0 != name;
    } else {
      assert !Mentions(mapping[..n], name);
      if name in before {
        MapColumnsMentions(mapping[..n], names, row, name);
      }
    }
  }

  lemma {:induction false} FillAllKeeps(columns: seq<Column>, data: Row, name: string)
    requires name in data || name !in Names(columns)
    ensures var r := FillAll(columns, data);
      (name in r <==> name in data) && (name in data ==> r[name] == data[name])
    decreases columns
  {
    if columns != [] {
      var n := |columns| - 1;
      assert columns[n] in columns && columns[n].name in Names(columns);
      assert forall c :: c in columns[..n] ==> c in columns && c.name in Names(columns);
      FillAllKeeps(columns[..n], data, name);
    }
  }

  lemma {:induction false} FillAllFills(columns: seq<Column>, data: Row, i: nat)
    requires OneOfName(columns) && i < |columns| && columns[i].name !in data
    ensures var r, column := FillAll(columns, data), columns[i];
      if column.nullable || column.hasDefault then column.name !in r
      else column.name in r && r[column.name] == Zero(column.kind)
    decreases columns
  {
    var n := |columns| - 1;
    if i < n {
      assert columns[..n][i] == columns[i] && columns[n].name != columns[i].name;
      FillAllFills(columns[..n], data, i);
    } else {
      NameIsNew(columns, n);
      FillAllKeeps(columns[..n], data, columns[n].name);
    }
  }

  lemma NameIsNew(columns: seq<Column>, n: nat)
    requires n < |columns| && OneOfName(columns)
    ensures columns[n].name !in Names(columns[..n])
  {
    forall column | column in columns[..n]
      ensures column.name != columns[n].name
    {
      var i :| 0 <= i < n && columns[..n][i] == column;
      assert columns[i].name != columns[n].name;
    }
  }

  // The empty value of a kind of column.
  predicate IsEmpty(kind: Kind, v: Value) {
    (kind == Varchar || kind == Other ==> v == Text("")) &&
    (kind == Integer || kind == Decimal ==> v == Num(0)) &&
    (kind == Boolean ==> v == Flag(false))
  }

  // A mapped row column by column: what its mapping entry supplies; without
  // that an empty value if the column is required, and otherwise nothing.
  lemma MappedRowMeans(s: Schema, mapping: seq<(string, Origin)>, row: Row, k: nat)
    requires OnceEach(mapping) && OneOfName(s.columns) && k < |s.columns|
    ensures var data := MapRow(s, mapping, row); var column := s.columns[k];
      (forall i :: 0 <= i < |mapping| && mapping[i].0 == column.name && !Silent(mapping[i].1, row) ==>
        column.name in data && Supplies(mapping[i].1, row, data[column.name])) &&
      ((forall i :: 0 <= i < |mapping| && mapping[i].0 == column.name ==> Silent(mapping[i].1, row)) ==>
        if column.nullable || column.hasDefault then column.name !in data
        else column.name in data && IsEmpty(column.kind, data[column.name]))
  {
    var column := s.columns[k];
    var mapped := MapColumns(mapping, Names(s.columns), row);
    assert column in s.columns && column.name in Names(s.columns);
    if column.name in mapped {
      FillAllKeeps(s.columns, mapped, column.name);
    } else {
      FillAllFills(s.columns, mapped, k);
    }
    forall i | 0 <= i < |mapping| && mapping[i].0 == column.name
      ensures column.name in mapped ==> Supplies(mapping[i].1, row, mapped[column.name])
      ensures column.name !in mapped ==> Silent(mapping[i].1, row)
    {
      MapColumnsMeans(mapping, Names(s.columns), row, i);
    }
    if column.name in mapped {
      MapColumnsMentions(mapping, Names(s.columns), row, column.name);
      var i :| 0 <= i < |mapping| && mapping[i].0 == column.name;
      assert !Silent(mapping[i].1, row);
    }
  }

  // ---- the target database ----

  // What inserting and what updating row by row would leave.
  function InsertAll(s: Schema, t: Table, rows: seq<Row>): Table {
    if rows == [] then t
    else
      var last := rows[|rows| - 1];
      InsertAll(s, t, rows[..|rows| - 1])[KeyOf(s.pk, last) := Blank(s.columns) + last]
  }

  function UpdateAll(s: Schema, t: Table, rows: seq<Row>): Table {
    if rows == [] then t
    else
      var last := rows[|rows| - 1];
      UpdateOne(UpdateAll(s, t, rows[..|rows| - 1]), KeyOf(s.pk, last), last)
  }

  function UpdateOne(t: Table, key: Key, data: Row): Table {
    if key in t then t[key := t[key] + data] else t
  }

  predicate AllNew(s: Schema, t: Table, rows: seq<Row>) {
    forall row :: row in rows ==> KeyOf(s.pk, row) !in t
  }

  class Target {
    const schema: Schema
    var rows: Table

    constructor (schema: Schema)
      ensures this.schema == schema && rows == map[]
    {
      this.schema := schema;
      rows := map[];
    }

    // The rows that satisfy one of the conditions, in no particular order.
    method Select(conditions: seq<Key>) returns (found: seq<Row>)
      ensures forall row :: row in found <==> exists key :: key in conditions && key in rows && rows[key] == row
    {
      found := [];
      var pending := set key | key in rows && key in conditions;
      ghost var seen: set<Key> := {};
      while pending != {}
        invariant forall key :: key in rows && key in conditions <==> key in pending || key in seen
        invariant forall row :: row in found <==> exists key :: key in seen && key in rows && rows[key] == row
        decreases pending
      {
        var key :| key in pending;
        found := found + [rows[key]];
        pending, seen := pending - {key}, seen + {key};
      }
    }

    method Store(data: seq<Row>)
      requires DistinctKeys(schema, data) && AllNew(schema, rows, data)
      modifies this
      ensures rows == InsertAll(schema, old(rows), data) && Overlays(schema, old(rows), data, rows)
    {
      for i := 0 to |data|
        invariant rows == InsertAll(schema, old(rows), data[..i])
        invariant Overlays(schema, old(rows), data[..i], rows)
      {
        var key := KeyOf(schema.pk, data[i]);
        LastKeyIsNew(schema, data, i);
        OverlayLast(schema, old(rows), data[..i], data[i], rows);
        SliceSnoc(data, 0, i);
        assert data[..i + 1][..i] == data[..i] && data[i] in data;
        rows := rows[key := Blank(schema.columns) + data[i]];
      }
      assert data[..|data|] == data;
    }

    // One statement for all rows: it goes through whole or not at all.
    method InsertMany(data: seq<Row>) returns (ok: bool)
      modifies this
      ensures ok == (Uniform(data) && DistinctKeys(schema, data) && AllNew(schema, old(rows), data))
      ensures rows == if ok then InsertAll(schema, old(rows), data) else old(rows)
      ensures ok ==> Overlays(schema, old(rows), data, rows)
    {
      ok := Uniform(data) && DistinctKeys(schema, data) && AllNew(schema, rows, data);
      if ok {
        Store(data);
      }
    }

    method Update(key: Key, data: Row)
      modifies this
      ensures rows == UpdateOne(old(rows), key, data)
    {
      if key in rows {
        rows := rows[key := rows[key] + data];
      }
    }
  }

  lemma LastKeyIsNew(s: Schema, rows: seq<Row>, i: nat)
    requires i < |rows| && DistinctKeys(s, rows)
    ensures KeyOf(s.pk, rows[i]) !in Keys(s, rows[..i])
  {
    forall row | row in rows[..i]
      ensures KeyOf(s.pk, row) != KeyOf(s.pk, rows[i])
    {
      var j :| 0 <= j < i && rows[..i][j] == row;
    }
  }

  lemma KeysSnoc(s: Schema, rows: seq<Row>, row: Row)
    ensures Keys(s, rows + [row]) == Keys(s, rows) + {KeyOf(s.pk, row)}
  {
    assert forall r :: r in rows + [row] <==> r in rows || r == row;
  }

  // The overlay as a map: rows with equal keys aside, there is only one.
  lemma OverlayGrows(s: Schema, t: Table, keys: set<Key>, rows: seq<Row>, more: seq<Row>, row: Row,
                     t': Table, next: Table)
    requires Overlays(s, t, rows, t') && keys == Keys(s, rows) && KeyOf(s.pk, row) !in keys
    requires Keys(s, more) == keys + {KeyOf(s.pk, row)}
    requires forall r :: r in more ==> r in rows || r == row
    requires next == t'[KeyOf(s.pk, row) := Base(s, t, KeyOf(s.pk, row)) + row]
    ensures Overlays(s, t, more, next)
  {
    forall r | r in more
      ensures KeyOf(s.pk, r) in next && next[KeyOf(s.pk, r)] == Base(s, t, KeyOf(s.pk, r)) + r
    {
      if r in rows {
        assert KeyOf(s.pk, r) in keys;
      }
    }
    assert next.Keys == t.Keys + Keys(s, more);
  }

  lemma OverlayLast(s: Schema, t: Table, rows: seq<Row>, row: Row, t': Table)
    requires Overlays(s, t, rows, t') && KeyOf(s.pk, row) !in Keys(s, rows)
    ensures Overlays(s, t, rows + [row], t'[KeyOf(s.pk, row) := Base(s, t, KeyOf(s.pk, row)) + row])
  {
    KeysSnoc(s, rows, row);
    var next := t'[KeyOf(s.pk, row) := Base(s, t, KeyOf(s.pk, row)) + row];
    OverlayGrows(s, t, Keys(s, rows), rows, rows + [row], row, t', next);
  }

  lemma NewKeyKeepsBase(s: Schema, t: Table, rows: seq<Row>, key: Key, t': Table)
    requires Overlays(s, t, rows, t') && key !in Keys(s, rows)
    ensures (key in t' <==> key in t) && Base(s, t', key) == Base(s, t, key)
  {
  }

  // ---- the migrator ----

  class DataMigrator {
    var totalRows: nat
    var stats: Counts
    var errors: nat

    constructor ()
      ensures totalRows == 0 && stats == ZERO && errors == 0
    {
      totalRows, stats, errors := 0, ZERO, 0;
    }

    method HasChanges(s: Schema, existing: Row, data: Row) returns (changes: bool)
      ensures changes == Changed(s, existing, data)
    {
      var cols := data.Keys;
      while cols != {}
        invariant forall col :: col in data && col !in cols ==>
          col in s.pk || col !in existing || existing[col] == data[col]
        decreases cols
      {
        var col :| col in cols;
        if col !in s.pk && col in existing && existing[col] != data[col] {
          return true;
        }
        cols := cols - {col};
      }
      return false;
    }

    // The snapshot of the rows a batch may meet, by key.
    method Snapshot(target: Target, batch: seq<Row>) returns (existing: Table)
      requires WellKeyed(target.schema, target.rows)
      ensures forall key :: key in existing <==> key in target.rows && key in Keys(target.schema, batch)
      ensures forall key :: key in existing ==> existing[key] == target.rows[key]
    {
      var conditions: seq<Key> := [];
      for i := 0 to |batch|
        invariant forall key :: key in conditions <==> key in Keys(target.schema, batch[..i])
      {
        assert forall row :: row in batch[..i + 1] <==> row in batch[..i] || row == batch[i];
        conditions := conditions + [KeyOf(target.schema.pk, batch[i])];
      }
      assert batch[..|batch|] == batch;
      var found := target.Select(conditions);
      existing := map[];
      for i := 0 to |found|
        invariant forall key :: key in existing ==>
          key in target.rows && key in conditions && existing[key] == target.rows[key]
        invariant forall j :: 0 <= j < i ==> KeyOf(target.schema.pk, found[j]) in existing
      {
        assert found[i] in found;
        existing := existing[KeyOf(target.schema.pk, found[i]) := found[i]];
      }
      forall key | key in target.rows && key in conditions
        ensures key in existing
      {
        assert target.rows[key] in found;
        var j :| 0 <= j < |found| && found[j] == target.rows[key];
      }
    }

    // Sort a batch into what to insert and what to update.
    method Classify(s: Schema, ghost t: Table, existing: Table, batch: seq<Row>)
      returns (toInsert: seq<Row>, toUpdate: seq<Row>, kept: nat)
      requires forall key :: key in existing <==> key in t && key in Keys(s, batch)
      requires forall key :: key in existing ==> existing[key] == t[key]
      ensures toInsert == Picked(s, t, batch, Inserted) && toUpdate == Picked(s, t, batch, Updated)
      ensures kept == |Picked(s, t, batch, Unchanged)|
    {
      toInsert, toUpdate, kept := [], [], 0;
      for i := 0 to |batch|
        invariant toInsert == Picked(s, t, batch[..i], Inserted)
        invariant toUpdate == Picked(s, t, batch[..i], Updated)
        invariant kept == |Picked(s, t, batch[..i], Unchanged)|
      {
        var data := batch[i];
        var key := KeyOf(s.pk, data);
        PickedSnoc(s, t, batch, i, Inserted);
        PickedSnoc(s, t, batch, i, Updated);
        PickedSnoc(s, t, batch, i, Unchanged);
        if key in existing {
          var changes := HasChanges(s, existing[key], data);
          if changes {
            toUpdate := toUpdate + [data];
          } else {
            kept := kept + 1;
          }
        } else {
          toInsert := toInsert + [data];
        }
      }
      assert batch[..|batch|] == batch;
    }

    // One update statement per changed row.
    method UpdateEach(target: Target, toUpdate: seq<Row>) returns (updated: nat)
      modifies target
      ensures updated == |toUpdate| && target.rows == UpdateAll(target.schema, old(target.rows), toUpdate)
    {
      updated := 0;
      for i := 0 to |toUpdate|
        invariant updated == i && target.rows == UpdateAll(target.schema, old(target.rows), toUpdate[..i])
      {
        assert toUpdate[..i + 1][..i] == toUpdate[..i];
        target.Update(KeyOf(target.schema.pk, toUpdate[i]), toUpdate[i]);
        updated := updated + 1;
      }
      assert toUpdate[..|toUpdate|] == toUpdate;
    }

    // The bulk upsert of any batch: one insert of the new rows, refused as a
    // whole when two share a key or differ in columns, then updates in order.
    // With distinct keys it does what upserting row by row does.
    method ExecuteBatch(target: Target, batch: seq<Row>) returns (c: Counts)
      requires WellKeyed(target.schema, target.rows) && AllReady(target.schema, batch)
      modifies this`errors, target
      ensures (target.rows, c) == Bulk(target.schema, old(target.rows), batch)
      ensures errors == old(errors) + if Insertable(target.schema, old(target.rows), batch) then 0 else 1
      ensures DistinctKeys(target.schema, batch) && Uniform(batch) ==>
        target.rows == UpsertAll(target.schema, old(target.rows), batch) &&
        c == CountAll(target.schema, old(target.rows), batch) &&
        WellKeyed(target.schema, target.rows) && errors == old(errors)
    {
      var s := target.schema;
      ghost var t := target.rows;
      var existing := Snapshot(target, batch);
      var toInsert, toUpdate, kept := Classify(s, t, existing, batch);
      PickedIsNew(s, t, batch);
      c := WriteBatch(target, toInsert, toUpdate, kept);
      if DistinctKeys(s, batch) && Uniform(batch) {
        BulkIsSequential(s, t, batch);
      }
    }

    // Insert the new rows, and unless that is refused update the changed ones.
    method WriteBatch(target: Target, toInsert: seq<Row>, toUpdate: seq<Row>, kept: nat) returns (c: Counts)
      requires AllNew(target.schema, target.rows, toInsert)
      modifies this`errors, target
      ensures var s, t := target.schema, old(target.rows);
        if Uniform(toInsert) && DistinctKeys(s, toInsert) then
          target.rows == UpdateAll(s, InsertAll(s, t, toInsert), toUpdate) &&
          c == Counts(|toInsert|, |toUpdate|, kept) && errors == old(errors)
        else target.rows == t && c == Counts(0, 0, kept) && errors == old(errors) + 1
    {
      var inserted := 0;
      if toInsert != [] {
        var ok := target.InsertMany(toInsert);
        if !ok {
          errors := errors + 1;
          return Counts(0, 0, kept);
        }
        inserted := |toInsert|;
      }
      var updated := UpdateEach(target, toUpdate);
      c := Counts(inserted, updated, kept);
    }

    // Map one source row, then fill what the target insists on.
    method Map(s: Schema, mapping: seq<(string, Origin)>, row: Row) returns (data: Row)
      ensures data == MapRow(s, mapping, row)
    {
      data := map[];
      for i := 0 to |mapping|
        invariant data == MapColumns(mapping[..i], Names(s.columns), row)
      {
        assert mapping[..i + 1][..i] == mapping[..i];
        var (targetCol, origin) := mapping[i];
        if targetCol in Names(s.columns) {
          match origin {
            case From(col) =>
              if col in row {
                data := data[targetCol := row[col]];
              }
            case Const(value) => data := data[targetCol := value];
            case Neither =>
          }
        }
      }
      assert mapping[..|mapping|] == mapping;
      ghost var mapped := data;
      for i := 0 to |s.columns|
        invariant data == FillAll(s.columns[..i], mapped)
      {
        assert s.columns[..i + 1][..i] == s.columns[..i];
        var column := s.columns[i];
        if column.name !in data && !column.nullable && !column.hasDefault {
          data := data[column.name := Zero(column.kind)];
        }
      }
      assert s.columns[..|s.columns|] == s.columns;
    }

    // The table and the counts are those of upserting the first rows of data.
    static predicate Upserted(s: Schema, t: Table, data: seq<Row>, done: nat, table: Table, counts: Counts)
      requires done <= |data|
    {
      table == UpsertAll(s, t, data[..done]) && counts == CountAll(s, t, data[..done]) && WellKeyed(s, table)
    }

    // Execute one batch, the rows of data from done to end.
    method Flush(target: Target, batch: seq<Row>, counts: Counts, ghost t: Table,
                 ghost mapping: seq<(string, Origin)>, ghost rows: seq<Row>, ghost done: nat, ghost end: nat)
      returns (total: Counts)
      requires Migratable(target.schema, mapping, rows)
      requires Standing(target.schema, t, MapAll(target.schema, mapping, rows), done, end, target.rows, counts, batch)
      modifies this`errors, target
      ensures Upserted(target.schema, t, MapAll(target.schema, mapping, rows), end, target.rows, total)
      ensures errors == old(errors)
    {
      ghost var data := MapAll(target.schema, mapping, rows);
      SliceIsGood(target.schema, mapping, rows, done, end);
      UpsertMore(target.schema, t, data, done, end);
      var result := ExecuteBatch(target, batch);
      total := Add(counts, result);
    }

    // Where a task stands after i rows: the first done are in the target and
    // the rest of them wait in the batch.
    static predicate Standing(s: Schema, t: Table, data: seq<Row>, done: nat, i: nat,
                              table: Table, counts: Counts, batch: seq<Row>) {
      done <= i <= |data| && batch == data[done..i] && Upserted(s, t, data, done, table, counts)
    }

    static lemma StandingStarts(s: Schema, t: Table, data: seq<Row>)
      requires WellKeyed(s, t)
      ensures Standing(s, t, data, 0, 0, t, ZERO, [])
    {
      assert data[..0] == [] && data[0..0] == [];
    }

    static lemma StandingEnds(s: Schema, t: Table, data: seq<Row>, done: nat, table: Table, counts: Counts)
      requires Standing(s, t, data, done, |data|, table, counts, [])
      ensures Upserted(s, t, data, |data|, table, counts)
    {
      assert |data[done..|data|]| == |data| - done;
    }

    static lemma StandingAdds(s: Schema, t: Table, data: seq<Row>, done: nat, i: nat,
                              table: Table, counts: Counts, batch: seq<Row>)
      requires Standing(s, t, data, done, i, table, counts, batch) && i < |data|
      ensures Standing(s, t, data, done, i + 1, table, counts, batch + [data[i]])
    {
      SliceSnoc(data, done, i);
    }

    static lemma StandingFlushed(s: Schema, t: Table, data: seq<Row>, end: nat, table: Table, counts: Counts)
      requires end <= |data| && Upserted(s, t, data, end, table, counts)
      ensures Standing(s, t, data, end, end, table, counts, [])
    {
      assert data[end..end] == [];
    }

    // Add the next row to the batch, and execute the batch when it is full.
    method AddToBatch(target: Target, row: Row, batch: seq<Row>, counts: Counts, batchSize: nat,
                      mapping: seq<(string, Origin)>, ghost rows: seq<Row>, ghost t: Table,
                      ghost done: nat, ghost i: nat)
      returns (batch': seq<Row>, counts': Counts, ghost done': nat)
      requires i < |rows| && row == MapRow(target.schema, mapping, rows[i]) && Migratable(target.schema, mapping, rows)
      requires Standing(target.schema, t, MapAll(target.schema, mapping, rows), done, i, target.rows, counts, batch)
      modifies this`errors, target
      ensures
        Standing(target.schema, t, MapAll(target.schema, mapping, rows), done', i + 1, target.rows, counts', batch')
      ensures if |batch| + 1 < batchSize then batch' == batch + [row] && target.rows == old(target.rows)
        else batch' == [] && done' == i + 1
      ensures errors == old(errors)
    {
      ghost var data := MapAll(target.schema, mapping, rows);
      StandingAdds(target.schema, t, data, done, i, target.rows, counts, batch);
      batch', counts', done' := batch + [row], counts, done;
      if |batch'| >= batchSize {
        counts' := Flush(target, batch', counts, t, mapping, rows, done, i + 1);
        batch', done' := [], i + 1;
        StandingFlushed(target.schema, t, data, i + 1, target.rows, counts');
      }
    }

    // Map the rows one by one, executing a batch whenever it is full.
    method RunBatches(target: Target, rows: seq<Row>, mapping: seq<(string, Origin)>, batchSize: nat)
      returns (counts: Counts)
      requires batchSize > 0 && WellKeyed(target.schema, target.rows) && Migratable(target.schema, mapping, rows)
      modifies this`errors, target
      ensures var data := MapAll(target.schema, mapping, rows);
        Upserted(target.schema, old(target.rows), data, |rows|, target.rows, counts)
      ensures errors == old(errors)
    {
      ghost var t, data, done := target.rows, MapAll(target.schema, mapping, rows), 0;
      var batch: seq<Row> := [];
      counts := ZERO;
      StandingStarts(target.schema, t, data);
      for i := 0 to |rows|
        invariant Standing(target.schema, t, data, done, i, target.rows, counts, batch) && errors == old(errors)
        invariant |batch| < batchSize
      {
        var row := Map(target.schema, mapping, rows[i]);
        batch, counts, done := AddToBatch(target, row, batch, counts, batchSize, mapping, rows, t, done, i);
      }
      if batch != [] {
        counts := Flush(target, batch, counts, t, mapping, rows, done, |rows|);
      } else {
        StandingEnds(target.schema, t, data, done, target.rows, counts);
      }
    }

    // One task: all rows of the source in batches, the last one partial. The
    // size of the batches does not show in the result.
    method ProcessTask(target: Target, rows: seq<Row>, mapping: seq<(string, Origin)>, batchSize: nat)
      returns (success: bool)
      requires batchSize > 0 && WellKeyed(target.schema, target.rows) && Migratable(target.schema, mapping, rows)
      modifies this, target
      ensures var data := MapAll(target.schema, mapping, rows);
        success && errors == old(errors) && totalRows == old(totalRows) + |rows| &&
        target.rows == UpsertAll(target.schema, old(target.rows), data) &&
        stats == Add(old(stats), CountAll(target.schema, old(target.rows), data)) &&
        WellKeyed(target.schema, target.rows)
    {
      totalRows := totalRows + |rows|;
      if |rows| == 0 {
        return true;
      }
      ghost var data := MapAll(target.schema, mapping, rows);
      var counts := RunBatches(target, rows, mapping, batchSize);
      assert data[..|rows|] == data;
      stats := Add(stats, counts);
      return true;
    }
  }

  lemma UpsertMore(s: Schema, t: Table, data: seq<Row>, done: nat, end: nat)
    requires done <= end <= |data|
    ensures UpsertAll(s, t, data[..end]) == UpsertAll(s, UpsertAll(s, t, data[..done]), data[done..end])
    ensures CountAll(s, t, data[..end])
         == Add(CountAll(s, t, data[..done]), CountAll(s, UpsertAll(s, t, data[..done]), data[done..end]))
  {
    UpsertAllAppend(s, t, data[..done], data[done..end]);
    assert data[..done] + data[done..end] == data[..end];
  }

  lemma SliceSnoc(data: seq<Row>, i: nat, j: nat)
    requires i <= j < |data|
    ensures data[i..j] + [data[j]] == data[i..j + 1] && data[j + 1..j + 1] == []
  {
  }

  // Rows of one query whose mapped keys are complete and distinct.
  predicate Migratable(s: Schema, mapping: seq<(string, Origin)>, rows: seq<Row>) {
    Uniform(rows) && AllReady(s, MapAll(s, mapping, rows)) && DistinctKeys(s, MapAll(s, mapping, rows))
  }

  // Any slice of the mapped rows makes a good batch.
  lemma SliceIsGood(s: Schema, mapping: seq<(string, Origin)>, rows: seq<Row>, i: nat, j: nat)
    requires Migratable(s, mapping, rows) && i <= j <= |rows|
    ensures var batch := MapAll(s, mapping, rows)[i..j];
      AllReady(s, batch) && DistinctKeys(s, batch) && Uniform(batch)
  {
    MappedRowsAreUniform(s, mapping, rows);
    var data := MapAll(s, mapping, rows);
    assert forall k :: 0 <= k < j - i ==> data[i..j][k] == data[i + k];
  }

  lemma PickedIsGood(s: Schema, t: Table, batch: seq<Row>)
    requires DistinctKeys(s, batch) && Uniform(batch)
    ensures DistinctKeys(s, Picked(s, t, batch, Inserted)) && Uniform(Picked(s, t, batch, Inserted))
    ensures DistinctKeys(s, Picked(s, t, batch, Updated))
  {
    PickedDistinct(s, t, batch, Inserted);
    PickedDistinct(s, t, batch, Updated);
    PickedUniform(s, t, batch, Inserted);
  }

  // The new rows of a batch can be inserted by one statement.
  predicate Insertable(s: Schema, t: Table, batch: seq<Row>) {
    Uniform(Picked(s, t, batch, Inserted)) && DistinctKeys(s, Picked(s, t, batch, Inserted))
  }

  // What the bulk upsert leaves and counts.
  function Bulk(s: Schema, t: Table, batch: seq<Row>): (Table, Counts) {
    var toInsert, toUpdate := Picked(s, t, batch, Inserted), Picked(s, t, batch, Updated);
    var kept := |Picked(s, t, batch, Unchanged)|;
    if Insertable(s, t, batch) then
      (UpdateAll(s, InsertAll(s, t, toInsert), toUpdate), Counts(|toInsert|, |toUpdate|, kept))
    else (t, Counts(0, 0, kept))
  }

  lemma PickedIsNew(s: Schema, t: Table, batch: seq<Row>)
    ensures AllNew(s, t, Picked(s, t, batch, Inserted))
  {
  }

  lemma {:induction false} InsertAllOverlays(s: Schema, t: Table, rows: seq<Row>)
    requires DistinctKeys(s, rows) && AllNew(s, t, rows)
    ensures Overlays(s, t, rows, InsertAll(s, t, rows))
    decreases rows
  {
    if rows != [] {
      var n := |rows| - 1;
      InsertAllOverlays(s, t, rows[..n]);
      LastKeyIsNew(s, rows, n);
      OverlayLast(s, t, rows[..n], rows[n], InsertAll(s, t, rows[..n]));
      assert rows[..n] + [rows[n]] == rows && rows[n] in rows;
    }
  }

  lemma {:induction false} UpdateAllOverlays(s: Schema, t: Table, rows: seq<Row>)
    requires DistinctKeys(s, rows) && forall row :: row in rows ==> KeyOf(s.pk, row) in t
    ensures Overlays(s, t, rows, UpdateAll(s, t, rows))
    decreases rows
  {
    if rows != [] {
      var n := |rows| - 1;
      UpdateAllOverlays(s, t, rows[..n]);
      LastKeyIsNew(s, rows, n);
      OverlayLast(s, t, rows[..n], rows[n], UpdateAll(s, t, rows[..n]));
      NewKeyKeepsBase(s, t, rows[..n], KeyOf(s.pk, rows[n]), UpdateAll(s, t, rows[..n]));
      assert rows[..n] + [rows[n]] == rows && rows[n] in rows;
    }
  }

  // With distinct keys and one set of columns the bulk upsert leaves and counts
  // what upserting row by row does.
  lemma BulkIsSequential(s: Schema, t: Table, batch: seq<Row>)
    requires WellKeyed(s, t) && AllReady(s, batch) && DistinctKeys(s, batch) && Uniform(batch)
    ensures Insertable(s, t, batch)
    ensures Bulk(s, t, batch) == (UpsertAll(s, t, batch), CountAll(s, t, batch))
    ensures WellKeyed(s, UpsertAll(s, t, batch))
  {
    var toInsert, toUpdate := Picked(s, t, batch, Inserted), Picked(s, t, batch, Updated);
    var t1 := InsertAll(s, t, toInsert);
    PickedIsGood(s, t, batch);
    InsertAllOverlays(s, t, toInsert);
    UpdateAllOverlays(s, t1, toUpdate);
    PickedCounts(s, t, batch);
    SequentialOverlays(s, t, batch);
    SequentialTally(s, t, batch);
    BulkOverlays(s, t, batch, t1, UpdateAll(s, t1, toUpdate));
    OverlayIsUnique(s, t, batch, UpdateAll(s, t1, toUpdate), UpsertAll(s, t, batch));
  }

  lemma PickedUniform(s: Schema, t: Table, rows: seq<Row>, o: Outcome)
    requires Uniform(rows)
    ensures Uniform(Picked(s, t, rows, o))
  {
    var p := Picked(s, t, rows, o);
    forall i | 0 <= i < |p|
      ensures p[i].Keys == p[0].Keys
    {
      assert p[i] in p && p[0] in p;
      var j :| 0 <= j < |rows| && rows[j] == p[i];
      var k :| 0 <= k < |rows| && rows[k] == p[0];
    }
  }
}
