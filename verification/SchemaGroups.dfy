/**
 What each assembled table holds, in terms of the introspection rows alone: its names are
 those of its first column row, and its columns, key, indexes and constraints are the rows of
 that very relation, in their order.
 */
module SchemaGroups {
  import opened Schema
  import opened SchemaFold
  import opened Text

  // ---- Places in a list --------------------------------------------------------------

  predicate Increasing(places: seq<nat>) {
    forall i, j | 0 <= i < j < |places| :: places[i] < places[j]
  }

  /** The places with this label, in order. */
  predicate PlacesOf(labels: seq<string>, name: string, places: seq<nat>) {
    && Increasing(places)
    && (forall i | 0 <= i < |places| :: places[i] < |labels|)
    && forall k | 0 <= k < |labels| :: k in places <==> labels[k] == name
  }

  predicate IsFirst(labels: seq<string>, k: nat) {
    k < |labels| && forall j | 0 <= j < k :: labels[j] != labels[k]
  }

  /** The places where a label occurs for the first time, in order. */
  predicate FirstPlaces(labels: seq<string>, places: seq<nat>) {
    && Increasing(places)
    && (forall i | 0 <= i < |places| :: IsFirst(labels, places[i]))
    && forall k | 0 <= k < |labels| :: IsFirst(labels, k) ==> k in places
  }

  lemma OnePlaceMore(labels: seq<string>, last: string, name: string, places: seq<nat>)
    requires PlacesOf(labels, name, places)
    ensures PlacesOf(labels + [last], name, if last == name then places + [|labels|] else places)
  {
    var all, more := labels + [last], if last == name then places + [|labels|] else places;
    forall k | 0 <= k < |all| ensures k in more <==> all[k] == name {
      if k < |labels| {
        assert k in more <==> k in places;
      } else {
        assert k !in places;
      }
    }
  }

  lemma StillFirst(labels: seq<string>, last: string, k: nat)
    requires k < |labels|
    ensures IsFirst(labels + [last], k) <==> IsFirst(labels, k)
  {
    var all := labels + [last];
    assert forall j | 0 <= j <= k :: all[j] == labels[j];
  }

  lemma LastIsFirst(labels: seq<string>, last: string)
    ensures IsFirst(labels + [last], |labels|) <==> last !in labels
  {
    var all := labels + [last];
    assert forall j | 0 <= j < |labels| :: all[j] == labels[j];
  }

  lemma OneFirstMore(labels: seq<string>, last: string, places: seq<nat>)
    requires FirstPlaces(labels, places)
    ensures FirstPlaces(labels + [last], if last in labels then places else places + [|labels|])
  {
    var all, more := labels + [last], if last in labels then places else places + [|labels|];
    LastIsFirst(labels, last);
    forall i | 0 <= i < |places| ensures IsFirst(all, places[i]) {
      StillFirst(labels, last, places[i]);
    }
    forall k | 0 <= k < |all| && IsFirst(all, k) ensures k in more {
      if k < |labels| {
        StillFirst(labels, last, k);
        assert k in places;
      } else {
        assert more[|places|] == k;
      }
    }
  }

  /** These are the ones at these places. */
  predicate Picks<T(==)>(some: seq<T>, all: seq<T>, places: seq<nat>) {
    && |some| == |places|
    && forall i | 0 <= i < |places| :: places[i] < |all| && some[i] == all[places[i]]
  }

  lemma PicksOneMore<T>(some: seq<T>, all: seq<T>, last: T, places: seq<nat>)
    requires Picks(some, all, places)
    ensures Picks(some, all + [last], places)
    ensures Picks(some + [last], all + [last], places + [|all|])
  {
  }

  lemma {:induction false} FirstsAt(labels: seq<string>) returns (places: seq<nat>)
    ensures FirstPlaces(labels, places) && Picks(Firsts(labels), labels, places)
    decreases |labels|
  {
    if labels == [] {
      places := [];
    } else {
      var front, last := labels[..|labels| - 1], labels[|labels| - 1];
      var before := FirstsAt(front);
      assert labels == front + [last];
      FirstsOneMore(front, last);
      OneFirstMore(front, last, before);
      PicksOneMore(Firsts(front), front, last, before);
      places := if last in front then before else before + [|front|];
    }
  }

  // ---- The rows of a relation ----------------------------------------------------------

  function Labels<V>(rows: seq<Row<V>>): seq<string> {
    seq(|rows|, i requires 0 <= i < |rows| => Joined(rows[i].schema, rows[i].table))
  }

  predicate Is<V>(r: Row<V>, schema: string, table: string) {
    r.schema == schema && r.table == table
  }

  /** The places of the rows of one relation, in order. */
  predicate RowsOf<V>(rows: seq<Row<V>>, schema: string, table: string, places: seq<nat>) {
    && Increasing(places)
    && (forall i | 0 <= i < |places| :: places[i] < |rows|)
    && forall k | 0 <= k < |rows| :: k in places <==> Is(rows[k], schema, table)
  }

  predicate Clean<V>(rows: seq<Row<V>>) {
    forall k | 0 <= k < |rows| :: NoNul(rows[k].schema)
  }

  lemma LabelIsRelation<V>(rows: seq<Row<V>>, schema: string, table: string, places: seq<nat>)
    requires Clean(rows) && NoNul(schema) && PlacesOf(Labels(rows), Joined(schema, table), places)
    ensures RowsOf(rows, schema, table, places)
  {
    forall k | 0 <= k < |rows| ensures k in places <==> Is(rows[k], schema, table) {
      RelationsStayApart(rows[k].schema, rows[k].table, schema, table);
      assert Labels(rows)[k] == Joined(rows[k].schema, rows[k].table);
    }
  }

  /** These are the values of the rows at these places. */
  predicate Carries<V(==)>(values: seq<V>, rows: seq<Row<V>>, places: seq<nat>) {
    && |values| == |places|
    && forall i | 0 <= i < |places| :: places[i] < |rows| && values[i] == rows[places[i]].value
  }

  lemma CarriesOneMore<V>(values: seq<V>, rows: seq<Row<V>>, last: Row<V>, places: seq<nat>)
    requires Carries(values, rows, places)
    ensures Carries(values, rows + [last], places)
    ensures Carries(values + [last.value], rows + [last], places + [|rows|])
  {
  }

  lemma {:induction false} OfAt<V>(key: string, rows: seq<Row<V>>) returns (places: seq<nat>)
    ensures PlacesOf(Labels(rows), key, places) && Carries(Of(key, rows), rows, places)
    decreases |rows|
  {
    if rows == [] {
      places := [];
    } else {
      var front, last := rows[..|rows| - 1], rows[|rows| - 1];
      var before := OfAt(key, front);
      assert rows == front + [last];
      assert Labels(rows) == Labels(front) + [Joined(last.schema, last.table)];
      OnePlaceMore(Labels(front), Joined(last.schema, last.table), key, before);
      OfOneMore(key, front, last);
      CarriesOneMore(Of(key, front), front, last, before);
      places := if Joined(last.schema, last.table) == key then before + [|front|] else before;
    }
  }

  /** The rows of a relation, by their values in order. */
  lemma ValuesOf<V>(rows: seq<Row<V>>, schema: string, table: string) returns (places: seq<nat>)
    requires Clean(rows) && NoNul(schema)
    ensures RowsOf(rows, schema, table, places) && |Of(Joined(schema, table), rows)| == |places|
    ensures forall i | 0 <= i < |places| :: Of(Joined(schema, table), rows)[i] == rows[places[i]].value
  {
    places := OfAt(Joined(schema, table), rows);
    LabelIsRelation(rows, schema, table, places);
  }

  // ---- Tables ------------------------------------------------------------------------

  /** The first row of its relation. */
  predicate FirstOfRelation<V>(rows: seq<Row<V>>, k: nat) {
    k < |rows| && forall j | 0 <= j < k :: !Is(rows[j], rows[k].schema, rows[k].table)
  }

  lemma FirstLabelIsFirst<V>(rows: seq<Row<V>>, k: nat)
    requires Clean(rows) && k < |rows|
    ensures IsFirst(Labels(rows), k) <==> FirstOfRelation(rows, k)
  {
    forall j | 0 <= j < k ensures Labels(rows)[j] == Labels(rows)[k] <==> Is(rows[j], rows[k].schema, rows[k].table) {
      RelationsStayApart(rows[j].schema, rows[j].table, rows[k].schema, rows[k].table);
    }
  }

  lemma {:induction false} FirstRowAt(columns: seq<Row<ColumnValue>>, k: nat)
    requires IsFirst(Labels(columns), k)
    ensures Labels(columns) == Keys(columns) && Keys(columns)[k] in Keys(columns)
    ensures FirstRow(Keys(columns)[k], columns) == columns[k]
    decreases |columns|
  {
    assert Labels(columns) == Keys(columns);
    var front, key := columns[..|columns| - 1], Keys(columns)[k];
    assert Keys(columns)[k] in Keys(columns);
    if k < |front| {
      assert Keys(front)[k] == key;
      assert forall j | 0 <= j < k :: Labels(front)[j] == Labels(columns)[j];
      FirstRowAt(front, k);
    } else {
      assert forall j | 0 <= j < |front| :: Keys(front)[j] == Keys(columns)[j];
    }
  }

  /**
   There is one table for each relation with a column row, in the order in which the relations
   first appear, and it has the schema, the name and the kind of that first row.
   */
  lemma TablesAreRelations(rows: Rows) returns (firsts: seq<nat>)
    requires Clean(rows.columns)
    ensures Increasing(firsts) && |Assembled(rows)| == |firsts|
    ensures forall k | 0 <= k < |rows.columns| :: k in firsts <==> FirstOfRelation(rows.columns, k)
    ensures forall i | 0 <= i < |firsts| ::
              && firsts[i] < |rows.columns|
              && var t, r := Assembled(rows)[i], rows.columns[firsts[i]];
                 t.schema == r.schema && t.name == r.table && t.kind == r.value.kind
  {
    var columns := rows.columns;
    assert Labels(columns) == Keys(columns);
    firsts := FirstsAt(Keys(columns));
    forall k | 0 <= k < |columns| ensures k in firsts <==> FirstOfRelation(columns, k) {
      FirstLabelIsFirst(columns, k);
    }
    forall i | 0 <= i < |firsts|
      ensures firsts[i] < |columns|
      ensures var t, r := Assembled(rows)[i], columns[firsts[i]];
              t.schema == r.schema && t.name == r.table && t.kind == r.value.kind
    {
      FirstRowAt(columns, firsts[i]);
    }
  }

  /** Its columns and its key are those of the relation's rows, each row once, in order. */
  lemma ColumnsAreRows(rows: Rows, i: nat) returns (columnsAt: seq<nat>, keysAt: seq<nat>)
    requires Clean(rows.columns) && Clean(rows.primaryKeys) && i < |Assembled(rows)|
    ensures var t := Assembled(rows)[i];
            && RowsOf(rows.columns, t.schema, t.name, columnsAt) && |t.columns| == |columnsAt|
            && (forall k | 0 <= k < |columnsAt| :: t.columns[k] == rows.columns[columnsAt[k]].value.column)
            && RowsOf(rows.primaryKeys, t.schema, t.name, keysAt) && |t.primaryKey| == |keysAt|
            && (forall k | 0 <= k < |keysAt| :: t.primaryKey[k] == rows.primaryKeys[keysAt[k]].value)
  {
    var t := Assembled(rows)[i];
    TableIsEntry(rows, i);
    columnsAt := ValuesOf(rows.columns, t.schema, t.name);
    keysAt := ValuesOf(rows.primaryKeys, t.schema, t.name);
  }

  /** The table in place `i` is what its relation's rows are folded into. */
  lemma TableIsEntry(rows: Rows, i: nat)
    requires Clean(rows.columns) && i < |Assembled(rows)|
    ensures var t := Assembled(rows)[i];
            var key := Joined(t.schema, t.name);
            && NoNul(t.schema) && key in Keys(rows.columns)
            && t.columns == ColumnsOf(Of(key, rows.columns)) && t.primaryKey == Of(key, rows.primaryKeys)
            && t.indexes == IndexesOf(Of(key, rows.indexes)) && t.foreignKeys == ForeignsOf(Of(key, rows.foreignKeys))
  {
    var firsts := TablesAreRelations(rows);
    var places := FirstsAt(Keys(rows.columns));
    FirstRowAt(rows.columns, places[i]);
    assert Firsts(Keys(rows.columns))[i] in Firsts(Keys(rows.columns));
  }

  // ---- Rows with names of their own: indexes and constraints ------------------------------

  /** Row `k` is of this relation and has this name. */
  predicate HasName<V>(rows: seq<Row<V>>, names: seq<string>, schema: string, table: string, name: string, k: nat) {
    k < |rows| && k < |names| && Is(rows[k], schema, table) && names[k] == name
  }

  /** The places of those rows, in order. */
  predicate NamedRows<V>(
    rows: seq<Row<V>>, names: seq<string>, schema: string, table: string, name: string, places: seq<nat>)
  {
    && Increasing(places)
    && (forall i | 0 <= i < |places| :: places[i] < |rows|)
    && forall k | 0 <= k < |rows| :: k in places <==> HasName(rows, names, schema, table, name, k)
  }

  /** The first row of its name in this relation. */
  predicate FirstNamed<V>(rows: seq<Row<V>>, names: seq<string>, schema: string, table: string, k: nat) {
    && k < |rows| == |names| && Is(rows[k], schema, table)
    && forall j | 0 <= j < k :: !HasName(rows, names, schema, table, names[k], j)
  }

  /** The places of the first rows, in order. */
  predicate FirstRows<V>(rows: seq<Row<V>>, names: seq<string>, schema: string, table: string, firsts: seq<nat>) {
    && Increasing(firsts)
    && (forall n | 0 <= n < |firsts| :: firsts[n] < |rows|)
    && forall k | 0 <= k < |rows| :: k in firsts <==> FirstNamed(rows, names, schema, table, k)
  }

  /** The names of the relation's rows are those of all rows, at its places. */
  predicate NamesThere(names: seq<string>, own: seq<string>, outer: seq<nat>) {
    |own| == |outer| && forall i | 0 <= i < |outer| :: outer[i] < |names| && own[i] == names[outer[i]]
  }

  /** Places found among places. */
  function Through(outer: seq<nat>, inner: seq<nat>): seq<nat>
    requires forall i | 0 <= i < |inner| :: inner[i] < |outer|
  {
    seq(|inner|, i requires 0 <= i < |inner| => outer[inner[i]])
  }

  lemma PlaceThrough(outer: seq<nat>, inner: seq<nat>, k: nat) returns (j: nat)
    requires forall i | 0 <= i < |inner| :: inner[i] < |outer|
    requires k in Through(outer, inner)
    ensures j in inner && j < |outer| && outer[j] == k
  {
    var i :| 0 <= i < |inner| && Through(outer, inner)[i] == k;
    j := inner[i];
  }

  lemma ThroughPlace(outer: seq<nat>, inner: seq<nat>, j: nat)
    requires forall i | 0 <= i < |inner| :: inner[i] < |outer|
    requires j in inner
    ensures outer[j] in Through(outer, inner)
  {
    var i :| 0 <= i < |inner| && inner[i] == j;
    assert Through(outer, inner)[i] == outer[j];
  }

  lemma ThroughRows<V>(
    rows: seq<Row<V>>, names: seq<string>, schema: string, table: string, name: string,
    outer: seq<nat>, own: seq<string>, inner: seq<nat>)
    requires RowsOf(rows, schema, table, outer) && |names| == |rows| && NamesThere(names, own, outer)
    requires PlacesOf(own, name, inner)
    ensures NamedRows(rows, names, schema, table, name, Through(outer, inner))
  {
    var places := Through(outer, inner);
    forall k | 0 <= k < |rows| ensures k in places <==> HasName(rows, names, schema, table, name, k) {
      if k in places {
        var j := PlaceThrough(outer, inner, k);
        assert k in outer;
      }
      if HasName(rows, names, schema, table, name, k) {
        assert k in outer;
        var j :| 0 <= j < |outer| && outer[j] == k;
        ThroughPlace(outer, inner, j);
      }
    }
  }

  /** The first among the relation's own rows is the first among all. */
  lemma FirstOwnIsFirst<V>(
    rows: seq<Row<V>>, names: seq<string>, schema: string, table: string, outer: seq<nat>, own: seq<string>, j: nat)
    requires RowsOf(rows, schema, table, outer) && |names| == |rows| && NamesThere(names, own, outer) && j < |outer|
    ensures FirstNamed(rows, names, schema, table, outer[j]) <==> IsFirst(own, j)
  {
    var k := outer[j];
    assert k in outer;
    if FirstNamed(rows, names, schema, table, k) {
      forall i | 0 <= i < j ensures own[i] != own[j] {
        assert outer[i] in outer && outer[i] < k;
        assert !HasName(rows, names, schema, table, names[k], outer[i]);
      }
    }
    if IsFirst(own, j) {
      forall m | 0 <= m < k ensures !HasName(rows, names, schema, table, names[k], m) {
        if m in outer {
          var i :| 0 <= i < |outer| && outer[i] == m;
          assert i < j;
        }
      }
    }
  }

  lemma FirstsThrough<V>(
    rows: seq<Row<V>>, names: seq<string>, schema: string, table: string,
    outer: seq<nat>, own: seq<string>, inner: seq<nat>)
    requires RowsOf(rows, schema, table, outer) && |names| == |rows| && NamesThere(names, own, outer)
    requires FirstPlaces(own, inner)
    ensures FirstRows(rows, names, schema, table, Through(outer, inner))
  {
    var firsts := Through(outer, inner);
    forall k | 0 <= k < |rows| ensures k in firsts <==> FirstNamed(rows, names, schema, table, k) {
      if k in firsts {
        var j := PlaceThrough(outer, inner, k);
        FirstOwnIsFirst(rows, names, schema, table, outer, own, j);
      }
      if FirstNamed(rows, names, schema, table, k) {
        assert k in outer;
        var j :| 0 <= j < |outer| && outer[j] == k;
        FirstOwnIsFirst(rows, names, schema, table, outer, own, j);
        ThroughPlace(outer, inner, j);
      }
    }
  }

  // ---- Indexes -----------------------------------------------------------------------

  function NamesOfIndexes(rows: seq<Row<IndexValue>>): seq<string> {
    seq(|rows|, i requires 0 <= i < |rows| => rows[i].value.name)
  }

  /** The index is made of these rows, in order; it is unique if the first of them is. */
  predicate IndexFrom(rows: seq<Row<IndexValue>>, ix: IndexInfo, places: seq<nat>) {
    && places != [] && |ix.columns| == |places|
    && (forall i | 0 <= i < |places| :: places[i] < |rows| && ix.columns[i] == rows[places[i]].value.column)
    && ix.unique == rows[places[0]].value.unique
  }

  lemma {:induction false} OfIndexAt(name: string, values: seq<IndexValue>) returns (places: seq<nat>)
    ensures PlacesOf(IndexNames(values), name, places) && Picks(OfIndex(name, values), values, places)
    decreases |values|
  {
    if values == [] {
      places := [];
    } else {
      var front, last := values[..|values| - 1], values[|values| - 1];
      var before := OfIndexAt(name, front);
      IndexOneMore(name, front, last);
      assert values == front + [last];
      OnePlaceMore(IndexNames(front), last.name, name, before);
      PicksOneMore(OfIndex(name, front), front, last, before);
      places := if last.name == name then before + [|front|] else before;
    }
  }

  lemma IndexIsFromRows(rows: seq<Row<IndexValue>>, schema: string, table: string, name: string) returns (places: seq<nat>)
    requires Clean(rows) && NoNul(schema) && name in IndexNames(Of(Joined(schema, table), rows))
    ensures NamedRows(rows, NamesOfIndexes(rows), schema, table, name, places)
    ensures IndexFrom(rows, IndexOf(name, Of(Joined(schema, table), rows)), places)
  {
    var values := Of(Joined(schema, table), rows);
    var outer := ValuesOf(rows, schema, table);
    var inner := OfIndexAt(name, values);
    ThroughRows(rows, NamesOfIndexes(rows), schema, table, name, outer, IndexNames(values), inner);
    places := Through(outer, inner);
  }

  lemma IndexesOfRelation(all: seq<Row<IndexValue>>, schema: string, table: string) returns (firsts: seq<nat>)
    requires Clean(all) && NoNul(schema)
    ensures FirstRows(all, NamesOfIndexes(all), schema, table, firsts)
    ensures var infos := IndexesOf(Of(Joined(schema, table), all));
            |infos| == |firsts| && forall m | 0 <= m < |firsts| :: infos[m].name == all[firsts[m]].value.name
  {
    var values := Of(Joined(schema, table), all);
    var outer := ValuesOf(all, schema, table);
    var inner := FirstsAt(IndexNames(values));
    firsts := Through(outer, inner);
    FirstsThrough(all, NamesOfIndexes(all), schema, table, outer, IndexNames(values), inner);
  }

  lemma IndexOfRelation(all: seq<Row<IndexValue>>, schema: string, table: string, n: nat) returns (places: seq<nat>)
    requires Clean(all) && NoNul(schema) && n < |IndexesOf(Of(Joined(schema, table), all))|
    ensures var ix := IndexesOf(Of(Joined(schema, table), all))[n];
            NamedRows(all, NamesOfIndexes(all), schema, table, ix.name, places) && IndexFrom(all, ix, places)
  {
    var names := Firsts(IndexNames(Of(Joined(schema, table), all)));
    assert names[n] in names;
    places := IndexIsFromRows(all, schema, table, names[n]);
  }

  /**
   A relation's indexes are one for each name its index rows have, in the order in which the
   names first appear, and each is made of all the rows of its name, in order.
   */
  lemma IndexesAreRows(rows: Rows, i: nat, n: nat) returns (firsts: seq<nat>, places: seq<nat>)
    requires Clean(rows.columns) && Clean(rows.indexes) && i < |Assembled(rows)|
    ensures var t, all := Assembled(rows)[i], rows.indexes;
            && FirstRows(all, NamesOfIndexes(all), t.schema, t.name, firsts) && |t.indexes| == |firsts|
            && (forall m | 0 <= m < |firsts| :: t.indexes[m].name == all[firsts[m]].value.name)
            && (n < |t.indexes| ==>
                && NamedRows(all, NamesOfIndexes(all), t.schema, t.name, t.indexes[n].name, places)
                && IndexFrom(all, t.indexes[n], places))
  {
    var t := Assembled(rows)[i];
    TableIsEntry(rows, i);
    firsts := IndexesOfRelation(rows.indexes, t.schema, t.name);
    places := [];
    if n < |t.indexes| {
      places := IndexOfRelation(rows.indexes, t.schema, t.name, n);
    }
  }

  // ---- Constraints -------------------------------------------------------------------

  function NamesOfForeigns(rows: seq<Row<ForeignValue>>): seq<string> {
    seq(|rows|, i requires 0 <= i < |rows| => rows[i].value.name)
  }

  /**
   The constraint is made of these rows, in order, its two column lists row by row; it refers
   to the table that the first of them refers to.
   */
  predicate ForeignFrom(rows: seq<Row<ForeignValue>>, fk: ForeignInfo, places: seq<nat>) {
    && places != [] && |fk.columns| == |places| == |fk.referenced|
    && (forall i | 0 <= i < |places| ::
          && places[i] < |rows|
          && fk.columns[i] == rows[places[i]].value.column && fk.referenced[i] == rows[places[i]].value.referenced)
    && fk.schema == rows[places[0]].value.schema && fk.table == rows[places[0]].value.table
  }

  lemma {:induction false} OfForeignAt(name: string, values: seq<ForeignValue>) returns (places: seq<nat>)
    ensures PlacesOf(ForeignNames(values), name, places) && Picks(OfForeign(name, values), values, places)
    decreases |values|
  {
    if values == [] {
      places := [];
    } else {
      var front, last := values[..|values| - 1], values[|values| - 1];
      var before := OfForeignAt(name, front);
      ForeignOneMore(name, front, last);
      assert values == front + [last];
      OnePlaceMore(ForeignNames(front), last.name, name, before);
      PicksOneMore(OfForeign(name, front), front, last, before);
      places := if last.name == name then before + [|front|] else before;
    }
  }

  lemma ForeignIsFromRows(rows: seq<Row<ForeignValue>>, schema: string, table: string, name: string) returns (places: seq<nat>)
    requires Clean(rows) && NoNul(schema) && name in ForeignNames(Of(Joined(schema, table), rows))
    ensures NamedRows(rows, NamesOfForeigns(rows), schema, table, name, places)
    ensures ForeignFrom(rows, ForeignOf(name, Of(Joined(schema, table), rows)), places)
  {
    var values := Of(Joined(schema, table), rows);
    var outer := ValuesOf(rows, schema, table);
    var inner := OfForeignAt(name, values);
    ThroughRows(rows, NamesOfForeigns(rows), schema, table, name, outer, ForeignNames(values), inner);
    places := Through(outer, inner);
  }

  lemma ForeignsOfRelation(all: seq<Row<ForeignValue>>, schema: string, table: string) returns (firsts: seq<nat>)
    requires Clean(all) && NoNul(schema)
    ensures FirstRows(all, NamesOfForeigns(all), schema, table, firsts)
    ensures |ForeignsOf(Of(Joined(schema, table), all))| == |firsts|
    ensures Picks(Firsts(ForeignNames(Of(Joined(schema, table), all))), NamesOfForeigns(all), firsts)
  {
    var values := Of(Joined(schema, table), all);
    var outer := ValuesOf(all, schema, table);
    var inner := FirstsAt(ForeignNames(values));
    firsts := Through(outer, inner);
    FirstsThrough(all, NamesOfForeigns(all), schema, table, outer, ForeignNames(values), inner);
  }

  lemma ForeignOfRelation(all: seq<Row<ForeignValue>>, schema: string, table: string, n: nat) returns (places: seq<nat>)
    requires Clean(all) && NoNul(schema) && n < |ForeignsOf(Of(Joined(schema, table), all))|
    ensures var name := Firsts(ForeignNames(Of(Joined(schema, table), all)))[n];
            && NamedRows(all, NamesOfForeigns(all), schema, table, name, places)
            && ForeignFrom(all, ForeignsOf(Of(Joined(schema, table), all))[n], places)
  {
    var names := Firsts(ForeignNames(Of(Joined(schema, table), all)));
    assert names[n] in names;
    places := ForeignIsFromRows(all, schema, table, names[n]);
  }

  /**
   A relation's constraints are one for each name its rows have, in the order in which the
   names first appear, and each is made of all the rows of its name, in order.
   */
  lemma ForeignKeysAreRows(rows: Rows, i: nat, n: nat) returns (firsts: seq<nat>, places: seq<nat>)
    requires Clean(rows.columns) && Clean(rows.foreignKeys) && i < |Assembled(rows)|
    ensures var t, all := Assembled(rows)[i], rows.foreignKeys;
            && FirstRows(all, NamesOfForeigns(all), t.schema, t.name, firsts) && |t.foreignKeys| == |firsts|
            && (n < |t.foreignKeys| ==>
                && NamedRows(all, NamesOfForeigns(all), t.schema, t.name, all[firsts[n]].value.name, places)
                && ForeignFrom(all, t.foreignKeys[n], places))
  {
    var t := Assembled(rows)[i];
    TableIsEntry(rows, i);
    firsts := ForeignsOfRelation(rows.foreignKeys, t.schema, t.name);
    places := [];
    if n < |t.foreignKeys| {
      places := ForeignOfRelation(rows.foreignKeys, t.schema, t.name, n);
    }
  }
}
