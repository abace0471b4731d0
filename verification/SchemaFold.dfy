/**
 Folding introspection rows into tables: a row-by-row fold that reaches each table from its
 list and from a map by key, and each index's and constraint's arrays from the table's lists
 and from maps by name; and the group-by it computes.
 */
module SchemaFold {
  import opened Schema
  import opened Text

  /** A row about a relation: a column, a key column, an index column or a foreign-key column. */
  datatype Row<V> = Row(schema: string, table: string, value: V)

  datatype ColumnValue = ColumnValue(column: Column, kind: Option<Kind>)

  datatype IndexValue = IndexValue(name: string, unique: bool, column: string)

  datatype ForeignValue = ForeignValue(
    name: string, column: string, schema: string, table: string, referenced: string)

  // ---- First appearances and positions -----------------------------------------------

  /** Each key once, where it first occurs. */
  function Firsts(keys: seq<string>): (r: seq<string>)
    ensures forall k :: k in r <==> k in keys
  {
    if keys == [] then []
    else
      var front := Firsts(keys[..|keys| - 1]);
      if keys[|keys| - 1] in front then front else front + [keys[|keys| - 1]]
  }

  function Positions(keys: seq<string>): map<string, nat> {
    if keys == [] then map[]
    else
      var front := Positions(keys[..|keys| - 1]);
      if keys[|keys| - 1] in front then front else front[keys[|keys| - 1] := |front|]
  }

  /** Each of the distinct keys is recorded with its place. */
  ghost predicate Placed(firsts: seq<string>, at: map<string, nat>) {
    && |at| == |firsts|
    && (forall k :: k in at <==> k in firsts)
    && (forall k :: k in at ==> at[k] < |firsts| && firsts[at[k]] == k)
    && (forall i, j | 0 <= i < j < |firsts| :: firsts[i] != firsts[j])
  }

  lemma PlacedOneMore(firsts: seq<string>, at: map<string, nat>, k: string)
    requires Placed(firsts, at) && k !in firsts
    ensures Placed(firsts + [k], at[k := |firsts|])
  {
  }

  lemma {:induction false} AllPlaced(keys: seq<string>)
    ensures Placed(Firsts(keys), Positions(keys))
  {
    if keys != [] {
      var front, last := keys[..|keys| - 1], keys[|keys| - 1];
      AllPlaced(front);
      if last !in Firsts(front) {
        PlacedOneMore(Firsts(front), Positions(front), last);
      }
    }
  }

  lemma PositionsAreFirsts(keys: seq<string>)
    ensures |Positions(keys)| == |Firsts(keys)|
    ensures forall k :: k in Positions(keys) <==> k in keys
    ensures forall k :: k in Positions(keys) ==>
              Positions(keys)[k] < |Firsts(keys)| && Firsts(keys)[Positions(keys)[k]] == k
    ensures forall i, j | 0 <= i < j < |Firsts(keys)| :: Firsts(keys)[i] != Firsts(keys)[j]
  {
    AllPlaced(keys);
  }

  // ---- The group-by ------------------------------------------------------------------

  /** The one separator no identifier can hold keeps distinct relations apart. */
  function Joined(schema: string, table: string): string {
    schema + ("\0" + table)
  }

  /** What the rows of one relation carry, in arrival order. */
  function Of<V>(key: string, rows: seq<Row<V>>): seq<V> {
    if rows == [] then []
    else
      var last := rows[|rows| - 1];
      Of(key, rows[..|rows| - 1]) + if Joined(last.schema, last.table) == key then [last.value] else []
  }

  function Keys(columns: seq<Row<ColumnValue>>): seq<string> {
    seq(|columns|, i requires 0 <= i < |columns| => Joined(columns[i].schema, columns[i].table))
  }

  function FirstRow(key: string, columns: seq<Row<ColumnValue>>): Row<ColumnValue>
    requires key in Keys(columns)
  {
    var front := columns[..|columns| - 1];
    if key in Keys(front) then FirstRow(key, front) else columns[|columns| - 1]
  }

  function ColumnsOf(values: seq<ColumnValue>): seq<Column> {
    seq(|values|, i requires 0 <= i < |values| => values[i].column)
  }

  function IndexNames(values: seq<IndexValue>): seq<string> {
    seq(|values|, i requires 0 <= i < |values| => values[i].name)
  }

  /** The rows of one index, in arrival order. */
  function OfIndex(name: string, values: seq<IndexValue>): (r: seq<IndexValue>)
    ensures name in IndexNames(values) ==> r != []
  {
    if values == [] then []
    else
      var front, last := values[..|values| - 1], values[|values| - 1];
      assert IndexNames(values) == IndexNames(front) + [last.name];
      OfIndex(name, front) + if last.name == name then [last] else []
  }

  function IndexOf(name: string, values: seq<IndexValue>): IndexInfo
    requires name in IndexNames(values)
  {
    var rows := OfIndex(name, values);
    IndexInfo(name, seq(|rows|, i requires 0 <= i < |rows| => rows[i].column), rows[0].unique)
  }

  function IndexesOf(values: seq<IndexValue>): seq<IndexInfo> {
    var names := Firsts(IndexNames(values));
    seq(|names|, i requires 0 <= i < |names| => assert names[i] in names; IndexOf(names[i], values))
  }

  function ForeignNames(values: seq<ForeignValue>): seq<string> {
    seq(|values|, i requires 0 <= i < |values| => values[i].name)
  }

  function OfForeign(name: string, values: seq<ForeignValue>): (r: seq<ForeignValue>)
    ensures name in ForeignNames(values) ==> r != []
  {
    if values == [] then []
    else
      var front, last := values[..|values| - 1], values[|values| - 1];
      assert ForeignNames(values) == ForeignNames(front) + [last.name];
      OfForeign(name, front) + if last.name == name then [last] else []
  }

  /** Local and referenced columns come from the same rows, so they line up. */
  function ForeignOf(name: string, values: seq<ForeignValue>): (r: ForeignInfo)
    requires name in ForeignNames(values)
    ensures |r.columns| == |r.referenced| == |OfForeign(name, values)|
  {
    var rows := OfForeign(name, values);
    ForeignInfo(seq(|rows|, i requires 0 <= i < |rows| => rows[i].column), rows[0].schema, rows[0].table,
                seq(|rows|, i requires 0 <= i < |rows| => rows[i].referenced))
  }

  lemma {:induction false} RowsOfForeign(name: string, values: seq<ForeignValue>)
    ensures forall v :: v in OfForeign(name, values) <==> v in values && v.name == name
  {
    if values != [] {
      var front, last := values[..|values| - 1], values[|values| - 1];
      RowsOfForeign(name, front);
      assert values == front + [last];
    }
  }

  /**
   Local and referenced columns line up: the pairs are those of the constraint's rows, one
   pair from each row, in the rows' order.
   */
  lemma ForeignPairsAlign(name: string, values: seq<ForeignValue>, i: nat)
    requires name in ForeignNames(values) && i < |ForeignOf(name, values).columns|
    ensures var fk, rows := ForeignOf(name, values), OfForeign(name, values);
            && |fk.columns| == |fk.referenced| == |rows|
            && rows[i] in values && rows[i].name == name
            && fk.columns[i] == rows[i].column && fk.referenced[i] == rows[i].referenced
  {
    RowsOfForeign(name, values);
    assert OfForeign(name, values)[i] in OfForeign(name, values);
  }

  function ForeignsOf(values: seq<ForeignValue>): seq<ForeignInfo> {
    var names := Firsts(ForeignNames(values));
    seq(|names|, i requires 0 <= i < |names| => assert names[i] in names; ForeignOf(names[i], values))
  }

  /** A table while it is being folded: itself, and where its indexes and constraints stand. */
  datatype Entry = Entry(info: TableInfo, idxByName: map<string, nat>, fkByName: map<string, nat>)

  datatype Rows = Rows(
    columns: seq<Row<ColumnValue>>, primaryKeys: seq<Row<string>>,
    indexes: seq<Row<IndexValue>>, foreignKeys: seq<Row<ForeignValue>>)

  function EntryOf(key: string, rows: Rows): Entry
    requires key in Keys(rows.columns)
  {
    var first := FirstRow(key, rows.columns);
    Entry(TableInfo(first.schema, first.table, first.value.kind, ColumnsOf(Of(key, rows.columns)),
                    Of(key, rows.primaryKeys), IndexesOf(Of(key, rows.indexes)), ForeignsOf(Of(key, rows.foreignKeys))),
          Positions(IndexNames(Of(key, rows.indexes))), Positions(ForeignNames(Of(key, rows.foreignKeys))))
  }

  function Entries(rows: Rows): (r: seq<Entry>)
    ensures |r| == |Firsts(Keys(rows.columns))|
  {
    var keys := Firsts(Keys(rows.columns));
    seq(|keys|, i requires 0 <= i < |keys| => assert keys[i] in keys; EntryOf(keys[i], rows))
  }

  /** The group-by: tables in first-appearance order of their columns, each with its own rows. */
  function Assembled(rows: Rows): seq<TableInfo> {
    seq(|Entries(rows)|, i requires 0 <= i < |Entries(rows)| => Entries(rows)[i].info)
  }

  // ---- One more row ------------------------------------------------------------------

  /** The indexes, and where each stands by name, after one more row. */
  function IndexesAfter(infos: seq<IndexInfo>, at: map<string, nat>, v: IndexValue): (seq<IndexInfo>, map<string, nat>) {
    var more := if v.name in at then infos else infos + [IndexInfo(v.name, [], v.unique)];
    var known := if v.name in at then at else at[v.name := |infos|];
    var j := known[v.name];
    (if j < |more| then more[j := Extended(more[j], v.column)] else more, known)
  }

  function ForeignsAfter(infos: seq<ForeignInfo>, at: map<string, nat>, v: ForeignValue): (seq<ForeignInfo>, map<string, nat>) {
    var more := if v.name in at then infos else infos + [ForeignInfo([], v.schema, v.table, [])];
    var known := if v.name in at then at else at[v.name := |infos|];
    var j := known[v.name];
    (if j < |more| then more[j := ExtendedKey(more[j], v)] else more, known)
  }

  function AddIndex(e: Entry, v: IndexValue): Entry {
    var (indexes, at) := IndexesAfter(e.info.indexes, e.idxByName, v);
    e.(idxByName := at, info := e.info.(indexes := indexes))
  }

  function AddForeign(e: Entry, v: ForeignValue): Entry {
    var (foreignKeys, at) := ForeignsAfter(e.info.foreignKeys, e.fkByName, v);
    e.(fkByName := at, info := e.info.(foreignKeys := foreignKeys))
  }

  lemma OfOneMore<V>(key: string, rows: seq<Row<V>>, r: Row<V>)
    ensures Of(key, rows + [r]) == Of(key, rows) + if Joined(r.schema, r.table) == key then [r.value] else []
  {
    assert (rows + [r])[..|rows|] == rows;
  }

  lemma FirstsOneMore(keys: seq<string>, k: string)
    ensures Firsts(keys + [k]) == if k in keys then Firsts(keys) else Firsts(keys) + [k]
    ensures Positions(keys + [k]) == if k in keys then Positions(keys) else Positions(keys)[k := |Firsts(keys)|]
  {
    assert (keys + [k])[..|keys|] == keys;
    PositionsAreFirsts(keys);
  }

  lemma IndexOneMore(name: string, values: seq<IndexValue>, v: IndexValue)
    ensures OfIndex(name, values + [v]) == OfIndex(name, values) + if v.name == name then [v] else []
    ensures IndexNames(values + [v]) == IndexNames(values) + [v.name]
  {
    assert (values + [v])[..|values|] == values;
  }

  lemma {:induction false} UnnamedIndex(name: string, values: seq<IndexValue>)
    requires name !in IndexNames(values)
    ensures OfIndex(name, values) == []
  {
    if values != [] {
      var front, last := values[..|values| - 1], values[|values| - 1];
      assert IndexNames(values) == IndexNames(front) + [last.name];
      UnnamedIndex(name, front);
    }
  }

  function Extended(ix: IndexInfo, column: string): IndexInfo {
    ix.(columns := ix.columns + [column])
  }

  lemma IndexOfOneMore(name: string, values: seq<IndexValue>, v: IndexValue)
    requires name in IndexNames(values)
    ensures name in IndexNames(values + [v])
    ensures IndexOf(name, values + [v]) ==
            if v.name == name then Extended(IndexOf(name, values), v.column) else IndexOf(name, values)
  {
    IndexOneMore(name, values, v);
  }

  lemma IndexOfNew(values: seq<IndexValue>, v: IndexValue)
    requires v.name !in IndexNames(values)
    ensures v.name in IndexNames(values + [v])
    ensures IndexOf(v.name, values + [v]) == IndexInfo(v.name, [v.column], v.unique)
  {
    IndexOneMore(v.name, values, v);
    UnnamedIndex(v.name, values);
  }

  lemma SameNamesIndex(values: seq<IndexValue>, v: IndexValue)
    requires v.name in IndexNames(values)
    ensures Firsts(IndexNames(values + [v])) == Firsts(IndexNames(values))
  {
    IndexOneMore(v.name, values, v);
    FirstsOneMore(IndexNames(values), v.name);
  }

  lemma IndexAt(values: seq<IndexValue>, v: IndexValue, i: nat)
    requires v.name in IndexNames(values) && i < |Firsts(IndexNames(values))|
    ensures |IndexesOf(values + [v])| == |IndexesOf(values)|
    ensures var name, before := Firsts(IndexNames(values))[i], IndexesOf(values)[i];
            IndexesOf(values + [v])[i] == if v.name == name then Extended(before, v.column) else before
  {
    var name := Firsts(IndexNames(values))[i];
    assert name in Firsts(IndexNames(values));
    SameNamesIndex(values, v);
    IndexOfOneMore(name, values, v);
  }

  lemma IndexesKnown(values: seq<IndexValue>, v: IndexValue, j: nat)
    requires var firsts := Firsts(IndexNames(values)); j < |firsts| && firsts[j] == v.name
    ensures IndexesOf(values + [v]) == IndexesOf(values)[j := Extended(IndexesOf(values)[j], v.column)]
  {
    var firsts, before, after := Firsts(IndexNames(values)), IndexesOf(values), IndexesOf(values + [v]);
    assert v.name in firsts;
    PositionsAreFirsts(IndexNames(values));
    IndexAt(values, v, j);
    forall i | 0 <= i < |firsts| && i != j ensures after[i] == before[i] {
      IndexAt(values, v, i);
    }
  }

  lemma OldIndexAt(values: seq<IndexValue>, v: IndexValue, i: nat)
    requires v.name !in IndexNames(values) && i < |IndexesOf(values)|
    ensures |IndexesOf(values + [v])| == |IndexesOf(values)| + 1
    ensures IndexesOf(values + [v])[i] == IndexesOf(values)[i]
  {
    var firsts := Firsts(IndexNames(values));
    IndexOneMore(v.name, values, v);
    FirstsOneMore(IndexNames(values), v.name);
    assert firsts[i] in firsts;
    IndexOfOneMore(firsts[i], values, v);
  }

  lemma LastIndexIsNew(values: seq<IndexValue>, v: IndexValue)
    requires v.name !in IndexNames(values)
    ensures |IndexesOf(values + [v])| == |IndexesOf(values)| + 1
    ensures IndexesOf(values + [v])[|IndexesOf(values)|] == IndexInfo(v.name, [v.column], v.unique)
  {
    IndexOneMore(v.name, values, v);
    FirstsOneMore(IndexNames(values), v.name);
    IndexOfNew(values, v);
  }

  lemma IndexesNew(values: seq<IndexValue>, v: IndexValue)
    requires v.name !in IndexNames(values)
    ensures IndexesOf(values + [v]) == IndexesOf(values) + [IndexInfo(v.name, [v.column], v.unique)]
  {
    var before, after := IndexesOf(values), IndexesOf(values + [v]);
    LastIndexIsNew(values, v);
    forall i | 0 <= i < |before| ensures after[i] == before[i] {
      OldIndexAt(values, v, i);
    }
  }

  lemma ForeignOneMore(name: string, values: seq<ForeignValue>, v: ForeignValue)
    ensures OfForeign(name, values + [v]) == OfForeign(name, values) + if v.name == name then [v] else []
    ensures ForeignNames(values + [v]) == ForeignNames(values) + [v.name]
  {
    assert (values + [v])[..|values|] == values;
  }

  lemma {:induction false} UnnamedForeign(name: string, values: seq<ForeignValue>)
    requires name !in ForeignNames(values)
    ensures OfForeign(name, values) == []
  {
    if values != [] {
      var front, last := values[..|values| - 1], values[|values| - 1];
      assert ForeignNames(values) == ForeignNames(front) + [last.name];
      UnnamedForeign(name, front);
    }
  }

  function ExtendedKey(fk: ForeignInfo, v: ForeignValue): ForeignInfo {
    fk.(columns := fk.columns + [v.column], referenced := fk.referenced + [v.referenced])
  }

  lemma ForeignOfOneMore(name: string, values: seq<ForeignValue>, v: ForeignValue)
    requires name in ForeignNames(values)
    ensures name in ForeignNames(values + [v])
    ensures ForeignOf(name, values + [v]) ==
            if v.name == name then ExtendedKey(ForeignOf(name, values), v) else ForeignOf(name, values)
  {
    ForeignOneMore(name, values, v);
  }

  lemma ForeignOfNew(values: seq<ForeignValue>, v: ForeignValue)
    requires v.name !in ForeignNames(values)
    ensures v.name in ForeignNames(values + [v])
    ensures ForeignOf(v.name, values + [v]) == ForeignInfo([v.column], v.schema, v.table, [v.referenced])
  {
    ForeignOneMore(v.name, values, v);
    UnnamedForeign(v.name, values);
  }

  lemma SameNamesForeign(values: seq<ForeignValue>, v: ForeignValue)
    requires v.name in ForeignNames(values)
    ensures Firsts(ForeignNames(values + [v])) == Firsts(ForeignNames(values))
  {
    ForeignOneMore(v.name, values, v);
    FirstsOneMore(ForeignNames(values), v.name);
  }

  lemma ForeignAt(values: seq<ForeignValue>, v: ForeignValue, i: nat)
    requires v.name in ForeignNames(values) && i < |Firsts(ForeignNames(values))|
    ensures |ForeignsOf(values + [v])| == |ForeignsOf(values)|
    ensures var name, before := Firsts(ForeignNames(values))[i], ForeignsOf(values)[i];
            ForeignsOf(values + [v])[i] == if v.name == name then ExtendedKey(before, v) else before
  {
    var name := Firsts(ForeignNames(values))[i];
    assert name in Firsts(ForeignNames(values));
    SameNamesForeign(values, v);
    ForeignOfOneMore(name, values, v);
  }

  lemma ForeignsKnown(values: seq<ForeignValue>, v: ForeignValue, j: nat)
    requires var firsts := Firsts(ForeignNames(values)); j < |firsts| && firsts[j] == v.name
    ensures ForeignsOf(values + [v]) == ForeignsOf(values)[j := ExtendedKey(ForeignsOf(values)[j], v)]
  {
    var firsts, before, after := Firsts(ForeignNames(values)), ForeignsOf(values), ForeignsOf(values + [v]);
    assert v.name in firsts;
    PositionsAreFirsts(ForeignNames(values));
    ForeignAt(values, v, j);
    forall i | 0 <= i < |firsts| && i != j ensures after[i] == before[i] {
      ForeignAt(values, v, i);
    }
  }

  lemma OldForeignAt(values: seq<ForeignValue>, v: ForeignValue, i: nat)
    requires v.name !in ForeignNames(values) && i < |ForeignsOf(values)|
    ensures |ForeignsOf(values + [v])| == |ForeignsOf(values)| + 1
    ensures ForeignsOf(values + [v])[i] == ForeignsOf(values)[i]
  {
    var firsts := Firsts(ForeignNames(values));
    ForeignOneMore(v.name, values, v);
    FirstsOneMore(ForeignNames(values), v.name);
    assert firsts[i] in firsts;
    ForeignOfOneMore(firsts[i], values, v);
  }

  lemma LastForeignIsNew(values: seq<ForeignValue>, v: ForeignValue)
    requires v.name !in ForeignNames(values)
    ensures |ForeignsOf(values + [v])| == |ForeignsOf(values)| + 1
    ensures ForeignsOf(values + [v])[|ForeignsOf(values)|] ==
            ForeignInfo([v.column], v.schema, v.table, [v.referenced])
  {
    ForeignOneMore(v.name, values, v);
    FirstsOneMore(ForeignNames(values), v.name);
    ForeignOfNew(values, v);
  }

  lemma ForeignsNew(values: seq<ForeignValue>, v: ForeignValue)
    requires v.name !in ForeignNames(values)
    ensures ForeignsOf(values + [v]) ==
            ForeignsOf(values) + [ForeignInfo([v.column], v.schema, v.table, [v.referenced])]
  {
    var before, after := ForeignsOf(values), ForeignsOf(values + [v]);
    LastForeignIsNew(values, v);
    forall i | 0 <= i < |before| ensures after[i] == before[i] {
      OldForeignAt(values, v, i);
    }
  }

  // ---- One more row, for an entry and for all of them --------------------------------

  lemma LastReplaced<T>(s: seq<T>, a: T, b: T)
    ensures (s + [a])[|s| := b] == s + [b]
  {
  }

  lemma NewIndexAfter(infos: seq<IndexInfo>, at: map<string, nat>, v: IndexValue)
    requires v.name !in at
    ensures IndexesAfter(infos, at, v) ==
            (infos + [IndexInfo(v.name, [v.column], v.unique)], at[v.name := |infos|])
  {
    assert [] + [v.column] == [v.column];
    LastReplaced(infos, IndexInfo(v.name, [], v.unique), IndexInfo(v.name, [v.column], v.unique));
  }

  lemma NewForeignAfter(infos: seq<ForeignInfo>, at: map<string, nat>, v: ForeignValue)
    requires v.name !in at
    ensures ForeignsAfter(infos, at, v) ==
            (infos + [ForeignInfo([v.column], v.schema, v.table, [v.referenced])], at[v.name := |infos|])
  {
    assert [] + [v.column] == [v.column] && [] + [v.referenced] == [v.referenced];
    LastReplaced(infos, ForeignInfo([], v.schema, v.table, []),
                 ForeignInfo([v.column], v.schema, v.table, [v.referenced]));
  }

  /** Grouping one more row is what pushing it does. */
  lemma IndexRowAdds(values: seq<IndexValue>, v: IndexValue)
    ensures (IndexesOf(values + [v]), Positions(IndexNames(values + [v]))) ==
            IndexesAfter(IndexesOf(values), Positions(IndexNames(values)), v)
  {
    PositionsAreFirsts(IndexNames(values));
    IndexPlaceAfter(values, v);
    if v.name in IndexNames(values) {
      IndexesKnown(values, v, Positions(IndexNames(values))[v.name]);
    } else {
      IndexesNew(values, v);
      NewIndexAfter(IndexesOf(values), Positions(IndexNames(values)), v);
    }
  }

  lemma IndexPlaceAfter(values: seq<IndexValue>, v: IndexValue)
    ensures Positions(IndexNames(values + [v])) ==
            if v.name in IndexNames(values) then Positions(IndexNames(values))
            else Positions(IndexNames(values))[v.name := |IndexesOf(values)|]
  {
    FirstsOneMore(IndexNames(values), v.name);
    IndexOneMore(v.name, values, v);
  }

  lemma ForeignRowAdds(values: seq<ForeignValue>, v: ForeignValue)
    ensures (ForeignsOf(values + [v]), Positions(ForeignNames(values + [v]))) ==
            ForeignsAfter(ForeignsOf(values), Positions(ForeignNames(values)), v)
  {
    PositionsAreFirsts(ForeignNames(values));
    ForeignPlaceAfter(values, v);
    if v.name in ForeignNames(values) {
      ForeignsKnown(values, v, Positions(ForeignNames(values))[v.name]);
    } else {
      ForeignsNew(values, v);
      NewForeignAfter(ForeignsOf(values), Positions(ForeignNames(values)), v);
    }
  }

  lemma ForeignPlaceAfter(values: seq<ForeignValue>, v: ForeignValue)
    ensures Positions(ForeignNames(values + [v])) ==
            if v.name in ForeignNames(values) then Positions(ForeignNames(values))
            else Positions(ForeignNames(values))[v.name := |ForeignsOf(values)|]
  {
    FirstsOneMore(ForeignNames(values), v.name);
    ForeignOneMore(v.name, values, v);
  }

  lemma EntryAddsIndex(key: string, rows: Rows, r: Row<IndexValue>)
    requires key in Keys(rows.columns)
    ensures EntryOf(key, rows.(indexes := rows.indexes + [r])) ==
            if Joined(r.schema, r.table) == key then AddIndex(EntryOf(key, rows), r.value) else EntryOf(key, rows)
  {
    var values, v := Of(key, rows.indexes), r.value;
    OfOneMore(key, rows.indexes, r);
    if Joined(r.schema, r.table) != key {
      assert values + [] == values;
    } else {
      IndexRowAdds(values, v);
    }
  }

  lemma EntryAddsForeign(key: string, rows: Rows, r: Row<ForeignValue>)
    requires key in Keys(rows.columns)
    ensures EntryOf(key, rows.(foreignKeys := rows.foreignKeys + [r])) ==
            if Joined(r.schema, r.table) == key then AddForeign(EntryOf(key, rows), r.value) else EntryOf(key, rows)
  {
    var values, v := Of(key, rows.foreignKeys), r.value;
    OfOneMore(key, rows.foreignKeys, r);
    if Joined(r.schema, r.table) != key {
      assert values + [] == values;
    } else {
      ForeignRowAdds(values, v);
    }
  }

  function AddKey(e: Entry, column: string): Entry {
    e.(info := e.info.(primaryKey := e.info.primaryKey + [column]))
  }

  function AddColumn(e: Entry, v: ColumnValue): Entry {
    e.(info := e.info.(columns := e.info.columns + [v.column]))
  }

  lemma EntryAddsKey(key: string, rows: Rows, r: Row<string>)
    requires key in Keys(rows.columns)
    ensures EntryOf(key, rows.(primaryKeys := rows.primaryKeys + [r])) ==
            if Joined(r.schema, r.table) == key then AddKey(EntryOf(key, rows), r.value) else EntryOf(key, rows)
  {
    OfOneMore(key, rows.primaryKeys, r);
  }

  lemma EntryAddsColumn(key: string, rows: Rows, r: Row<ColumnValue>)
    requires key in Keys(rows.columns)
    ensures key in Keys(rows.columns + [r])
    ensures EntryOf(key, rows.(columns := rows.columns + [r])) ==
            if Joined(r.schema, r.table) == key then AddColumn(EntryOf(key, rows), r.value) else EntryOf(key, rows)
  {
    OfOneMore(key, rows.columns, r);
    assert Keys(rows.columns + [r]) == Keys(rows.columns) + [Joined(r.schema, r.table)];
    assert (rows.columns + [r])[..|rows.columns|] == rows.columns;
  }

  lemma EntriesAddsKey(rows: Rows, r: Row<string>)
    ensures var before, after := Entries(rows), Entries(rows.(primaryKeys := rows.primaryKeys + [r]));
            && |after| == |before|
            && forall i | 0 <= i < |before| ::
                 after[i] == if Firsts(Keys(rows.columns))[i] == Joined(r.schema, r.table)
                             then AddKey(before[i], r.value) else before[i]
  {
    var keys := Firsts(Keys(rows.columns));
    forall i | 0 <= i < |keys|
      ensures Entries(rows.(primaryKeys := rows.primaryKeys + [r]))[i] ==
              if keys[i] == Joined(r.schema, r.table) then AddKey(Entries(rows)[i], r.value) else Entries(rows)[i]
    {
      assert keys[i] in keys;
      EntryAddsKey(keys[i], rows, r);
    }
  }

  lemma EntriesAddsIndex(rows: Rows, r: Row<IndexValue>)
    ensures var before, after := Entries(rows), Entries(rows.(indexes := rows.indexes + [r]));
            && |after| == |before|
            && forall i | 0 <= i < |before| ::
                 after[i] == if Firsts(Keys(rows.columns))[i] == Joined(r.schema, r.table)
                             then AddIndex(before[i], r.value) else before[i]
  {
    var keys := Firsts(Keys(rows.columns));
    forall i | 0 <= i < |keys|
      ensures Entries(rows.(indexes := rows.indexes + [r]))[i] ==
              if keys[i] == Joined(r.schema, r.table) then AddIndex(Entries(rows)[i], r.value) else Entries(rows)[i]
    {
      assert keys[i] in keys;
      EntryAddsIndex(keys[i], rows, r);
    }
  }

  lemma EntriesAddsForeign(rows: Rows, r: Row<ForeignValue>)
    ensures var before, after := Entries(rows), Entries(rows.(foreignKeys := rows.foreignKeys + [r]));
            && |after| == |before|
            && forall i | 0 <= i < |before| ::
                 after[i] == if Firsts(Keys(rows.columns))[i] == Joined(r.schema, r.table)
                             then AddForeign(before[i], r.value) else before[i]
  {
    var keys := Firsts(Keys(rows.columns));
    forall i | 0 <= i < |keys|
      ensures Entries(rows.(foreignKeys := rows.foreignKeys + [r]))[i] ==
              if keys[i] == Joined(r.schema, r.table) then AddForeign(Entries(rows)[i], r.value) else Entries(rows)[i]
    {
      assert keys[i] in keys;
      EntryAddsForeign(keys[i], rows, r);
    }
  }

  /** Where a relation's entry stands. */
  function Place(columns: seq<Row<ColumnValue>>, key: string): Option<nat> {
    if key in Positions(Keys(columns)) then Some(Positions(Keys(columns))[key]) else None
  }

  lemma PlaceIsFirst(columns: seq<Row<ColumnValue>>, key: string)
    ensures var keys := Firsts(Keys(columns));
            match Place(columns, key)
            case Some(j) => j < |keys| && keys[j] == key && forall i | 0 <= i < |keys| && i != j :: keys[i] != key
            case None => key !in keys
  {
    PositionsAreFirsts(Keys(columns));
  }

  function NewEntry(r: Row<ColumnValue>): Entry {
    Entry(TableInfo(r.schema, r.table, r.value.kind, [], [], [], []), map[], map[])
  }

  lemma SameTables(columns: seq<Row<ColumnValue>>, r: Row<ColumnValue>)
    requires Joined(r.schema, r.table) in Keys(columns)
    ensures Firsts(Keys(columns + [r])) == Firsts(Keys(columns))
    ensures Positions(Keys(columns + [r])) == Positions(Keys(columns))
  {
    assert Keys(columns + [r]) == Keys(columns) + [Joined(r.schema, r.table)];
    FirstsOneMore(Keys(columns), Joined(r.schema, r.table));
  }

  lemma ColumnAt(columns: seq<Row<ColumnValue>>, r: Row<ColumnValue>, i: nat)
    requires Joined(r.schema, r.table) in Keys(columns) && i < |Firsts(Keys(columns))|
    ensures var before, after := Entries(Rows(columns, [], [], [])), Entries(Rows(columns + [r], [], [], []));
            && |after| == |before|
            && after[i] == if Firsts(Keys(columns))[i] == Joined(r.schema, r.table)
                           then AddColumn(before[i], r.value) else before[i]
  {
    var key := Firsts(Keys(columns))[i];
    assert key in Firsts(Keys(columns));
    SameTables(columns, r);
    EntryAddsColumn(key, Rows(columns, [], [], []), r);
  }

  lemma KnownPlace(columns: seq<Row<ColumnValue>>, r: Row<ColumnValue>)
    requires Place(columns, Joined(r.schema, r.table)).Some?
    ensures Joined(r.schema, r.table) in Keys(columns)
    ensures Place(columns, Joined(r.schema, r.table)).value < |Entries(Rows(columns, [], [], []))|
  {
    PositionsAreFirsts(Keys(columns));
  }

  lemma ColumnAtPlace(columns: seq<Row<ColumnValue>>, r: Row<ColumnValue>, j: nat, i: nat)
    requires Place(columns, Joined(r.schema, r.table)) == Some(j) && i < |Firsts(Keys(columns))|
    ensures var before, after := Entries(Rows(columns, [], [], [])), Entries(Rows(columns + [r], [], [], []));
            |after| == |before| && after[i] == if i == j then AddColumn(before[i], r.value) else before[i]
  {
    PlaceIsFirst(columns, Joined(r.schema, r.table));
    KnownPlace(columns, r);
    ColumnAt(columns, r, i);
  }

  lemma EntriesAddColumn(columns: seq<Row<ColumnValue>>, r: Row<ColumnValue>)
    requires Place(columns, Joined(r.schema, r.table)).Some?
    ensures var before, j := Entries(Rows(columns, [], [], [])), Place(columns, Joined(r.schema, r.table)).value;
            && j < |before|
            && Entries(Rows(columns + [r], [], [], [])) == before[j := AddColumn(before[j], r.value)]
    ensures Positions(Keys(columns + [r])) == Positions(Keys(columns))
  {
    var before, after := Entries(Rows(columns, [], [], [])), Entries(Rows(columns + [r], [], [], []));
    var j := Place(columns, Joined(r.schema, r.table)).value;
    KnownPlace(columns, r);
    SameTables(columns, r);
    ColumnAtPlace(columns, r, j, j);
    forall i | 0 <= i < |before| && i != j ensures after[i] == before[i] {
      ColumnAtPlace(columns, r, j, i);
    }
  }

  lemma {:induction false} NoRowsOf(key: string, columns: seq<Row<ColumnValue>>)
    requires key !in Keys(columns)
    ensures Of(key, columns) == []
  {
    if columns != [] {
      var front, last := columns[..|columns| - 1], columns[|columns| - 1];
      assert Keys(columns) == Keys(front) + [Joined(last.schema, last.table)];
      NoRowsOf(key, front);
    }
  }

  lemma NewTable(columns: seq<Row<ColumnValue>>, r: Row<ColumnValue>)
    requires Joined(r.schema, r.table) !in Keys(columns)
    ensures Joined(r.schema, r.table) in Keys(columns + [r])
    ensures EntryOf(Joined(r.schema, r.table), Rows(columns + [r], [], [], [])) == AddColumn(NewEntry(r), r.value)
  {
    var key := Joined(r.schema, r.table);
    assert Keys(columns + [r]) == Keys(columns) + [key];
    assert (columns + [r])[..|columns|] == columns;
    NoRowsOf(key, columns);
    OfOneMore(key, columns, r);
    assert ColumnsOf([r.value]) == [] + [r.value.column];
  }

  lemma OneMoreTable(columns: seq<Row<ColumnValue>>, r: Row<ColumnValue>)
    requires Joined(r.schema, r.table) !in Keys(columns)
    ensures Firsts(Keys(columns + [r])) == Firsts(Keys(columns)) + [Joined(r.schema, r.table)]
    ensures Positions(Keys(columns + [r])) ==
            Positions(Keys(columns))[Joined(r.schema, r.table) := |Firsts(Keys(columns))|]
  {
    assert Keys(columns + [r]) == Keys(columns) + [Joined(r.schema, r.table)];
    FirstsOneMore(Keys(columns), Joined(r.schema, r.table));
  }

  lemma OldTableAt(columns: seq<Row<ColumnValue>>, r: Row<ColumnValue>, i: nat)
    requires Joined(r.schema, r.table) !in Keys(columns) && i < |Firsts(Keys(columns))|
    ensures var before, after := Entries(Rows(columns, [], [], [])), Entries(Rows(columns + [r], [], [], []));
            |after| == |before| + 1 && after[i] == before[i]
  {
    var key := Firsts(Keys(columns))[i];
    assert key in Firsts(Keys(columns));
    OneMoreTable(columns, r);
    EntryAddsColumn(key, Rows(columns, [], [], []), r);
  }

  lemma NewTableAt(columns: seq<Row<ColumnValue>>, r: Row<ColumnValue>)
    requires Joined(r.schema, r.table) !in Keys(columns)
    ensures var before, after := Entries(Rows(columns, [], [], [])), Entries(Rows(columns + [r], [], [], []));
            |after| == |before| + 1 && after[|before|] == AddColumn(NewEntry(r), r.value)
  {
    OneMoreTable(columns, r);
    NewTable(columns, r);
  }

  lemma EntriesNewTable(columns: seq<Row<ColumnValue>>, r: Row<ColumnValue>)
    requires Place(columns, Joined(r.schema, r.table)).None?
    ensures Entries(Rows(columns + [r], [], [], [])) ==
            Entries(Rows(columns, [], [], [])) + [AddColumn(NewEntry(r), r.value)]
    ensures Positions(Keys(columns + [r])) ==
            Positions(Keys(columns))[Joined(r.schema, r.table) := |Entries(Rows(columns, [], [], []))|]
  {
    var before, after := Entries(Rows(columns, [], [], [])), Entries(Rows(columns + [r], [], [], []));
    PositionsAreFirsts(Keys(columns));
    OneMoreTable(columns, r);
    NewTableAt(columns, r);
    forall i | 0 <= i < |before| ensures after[i] == before[i] {
      OldTableAt(columns, r, i);
    }
  }

  // ---- The tables being folded -------------------------------------------------------

  /** An array of column names that a table's list and its map by name share. */
  class Strings {
    var items: seq<string>
    ghost const owner: object

    constructor (owner: object)
      ensures items == [] && this.owner == owner
    {
      items := [];
      this.owner := owner;
    }

    method Push(item: string)
      modifies this
      ensures items == old(items) + [item]
    {
      items := items + [item];
    }
  }

  /** The local and the referenced columns of one constraint, shared in the same way. */
  class ColumnPairs {
    var cols: seq<string>
    var refCols: seq<string>
    ghost const owner: object

    constructor (owner: object)
      ensures cols == [] && refCols == [] && this.owner == owner
    {
      cols, refCols := [], [];
      this.owner := owner;
    }

    method Push(column: string, referenced: string)
      modifies this
      ensures cols == old(cols) + [column] && refCols == old(refCols) + [referenced]
    {
      cols, refCols := cols + [column], refCols + [referenced];
    }
  }

  datatype SharedIndex = SharedIndex(name: string, columns: Strings, unique: bool)

  datatype SharedForeign = SharedForeign(pairs: ColumnPairs, schema: string, table: string)

  /** Each array is listed once, and the map by name reaches the very array listed. */
  ghost predicate IndexesListed(
    idx: seq<SharedIndex>, byName: map<string, Strings>, at: map<string, nat>, arrays: set<Strings>)
  {
    && (forall k | 0 <= k < |idx| :: idx[k].columns in arrays)
    && (forall j, k | 0 <= j < k < |idx| :: idx[j].columns != idx[k].columns)
    && byName.Keys == at.Keys
    && (forall n | n in byName :: at[n] < |idx| && byName[n] == idx[at[n]].columns)
  }

  ghost predicate ForeignsListed(
    fk: seq<SharedForeign>, byName: map<string, ColumnPairs>, at: map<string, nat>, arrays: set<ColumnPairs>)
  {
    && (forall k | 0 <= k < |fk| :: fk[k].pairs in arrays)
    && (forall j, k | 0 <= j < k < |fk| :: fk[j].pairs != fk[k].pairs)
    && byName.Keys == at.Keys
    && (forall n | n in byName :: at[n] < |fk| && byName[n] == fk[at[n]].pairs)
  }

  lemma OneMoreIndex(
    idx: seq<SharedIndex>, byName: map<string, Strings>, at: map<string, nat>, arrays: set<Strings>, x: SharedIndex)
    requires IndexesListed(idx, byName, at, arrays) && x.columns !in arrays && x.name !in byName
    ensures IndexesListed(idx + [x], byName[x.name := x.columns], at[x.name := |idx|], arrays + {x.columns})
  {
  }

  lemma OneMoreForeign(
    fk: seq<SharedForeign>, byName: map<string, ColumnPairs>, at: map<string, nat>, arrays: set<ColumnPairs>,
    name: string, x: SharedForeign)
    requires ForeignsListed(fk, byName, at, arrays) && x.pairs !in arrays && name !in byName
    ensures ForeignsListed(fk + [x], byName[name := x.pairs], at[name := |fk|], arrays + {x.pairs})
  {
  }

  /**
   The indexes of one table: listed in order of appearance, and reached by name. Pushing a
   column through the map is what fills the list. The ghost fields are what the list holds,
   where each name stands, and which arrays are in use.
   */
  class IndexList {
    var idx: seq<SharedIndex>
    var byName: map<string, Strings>
    ghost var infos: seq<IndexInfo>
    ghost var at: map<string, nat>
    ghost var arrays: set<Strings>

    ghost predicate Valid()
      reads this, arrays
    {
      && IndexesListed(idx, byName, at, arrays) && |idx| == |infos|
      && (forall o | o in arrays :: o.owner == this)
      && (forall k | 0 <= k < |idx| :: IndexInfo(idx[k].name, idx[k].columns.items, idx[k].unique) == infos[k])
    }

    constructor ()
      ensures Valid() && infos == [] && at == map[] && arrays == {}
    {
      idx, byName, infos, at, arrays := [], map[], [], map[], {};
    }

    /** A new array for this index, listed and named. */
    method List(v: IndexValue)
      requires Valid() && v.name !in byName
      modifies this
      ensures Valid() && fresh(arrays - old(arrays)) && old(arrays) <= arrays && v.name in byName
      ensures infos == old(infos) + [IndexInfo(v.name, [], v.unique)] && at == old(at)[v.name := |old(infos)|]
    {
      var columns := new Strings(this);
      OneMoreIndex(idx, byName, at, arrays, SharedIndex(v.name, columns, v.unique));
      byName := byName[v.name := columns];
      at := at[v.name := |idx|];
      idx := idx + [SharedIndex(v.name, columns, v.unique)];
      infos := infos + [IndexInfo(v.name, [], v.unique)];
      arrays := arrays + {columns};
    }

    /** A column more in the array the map by name reaches, which is the one listed. */
    method Extend(v: IndexValue)
      requires Valid() && v.name in byName
      modifies this`infos, arrays
      ensures Valid() && v.name in at && at[v.name] < |old(infos)|
      ensures infos == old(infos)[at[v.name] := Extended(old(infos)[at[v.name]], v.column)]
    {
      var columns := byName[v.name];
      ghost var j := at[v.name];
      assert forall k | 0 <= k < |idx| && k != j :: idx[k].columns != columns;
      columns.Push(v.column);
      infos := infos[j := Extended(infos[j], v.column)];
    }

    method PushRow(v: IndexValue)
      requires Valid()
      modifies this, arrays
      ensures Valid() && fresh(arrays - old(arrays))
      ensures (infos, at) == IndexesAfter(old(infos), old(at), v)
    {
      if v.name !in byName {
        List(v);
      }
      Extend(v);
    }

    method Finish() returns (r: seq<IndexInfo>)
      requires Valid()
      ensures r == infos
    {
      r := [];
      for k := 0 to |idx|
        invariant r == infos[..k]
      {
        r := r + [IndexInfo(idx[k].name, idx[k].columns.items, idx[k].unique)];
      }
    }
  }

  /** The constraints of one table, kept in the same way. */
  class ForeignList {
    var fk: seq<SharedForeign>
    var byName: map<string, ColumnPairs>
    ghost var infos: seq<ForeignInfo>
    ghost var at: map<string, nat>
    ghost var arrays: set<ColumnPairs>

    ghost predicate Valid()
      reads this, arrays
    {
      && ForeignsListed(fk, byName, at, arrays) && |fk| == |infos|
      && (forall o | o in arrays :: o.owner == this)
      && (forall k | 0 <= k < |fk| ::
            ForeignInfo(fk[k].pairs.cols, fk[k].schema, fk[k].table, fk[k].pairs.refCols) == infos[k])
    }

    constructor ()
      ensures Valid() && infos == [] && at == map[] && arrays == {}
    {
      fk, byName, infos, at, arrays := [], map[], [], map[], {};
    }

    method List(v: ForeignValue)
      requires Valid() && v.name !in byName
      modifies this
      ensures Valid() && fresh(arrays - old(arrays)) && old(arrays) <= arrays && v.name in byName
      ensures infos == old(infos) + [ForeignInfo([], v.schema, v.table, [])]
      ensures at == old(at)[v.name := |old(infos)|]
    {
      var acc := new ColumnPairs(this);
      OneMoreForeign(fk, byName, at, arrays, v.name, SharedForeign(acc, v.schema, v.table));
      byName := byName[v.name := acc];
      at := at[v.name := |fk|];
      fk := fk + [SharedForeign(acc, v.schema, v.table)];
      infos := infos + [ForeignInfo([], v.schema, v.table, [])];
      arrays := arrays + {acc};
    }

    method Extend(v: ForeignValue)
      requires Valid() && v.name in byName
      modifies this`infos, arrays
      ensures Valid() && v.name in at && at[v.name] < |old(infos)|
      ensures infos == old(infos)[at[v.name] := ExtendedKey(old(infos)[at[v.name]], v)]
    {
      var acc := byName[v.name];
      ghost var j := at[v.name];
      assert forall k | 0 <= k < |fk| && k != j :: fk[k].pairs != acc;
      acc.Push(v.column, v.referenced);
      infos := infos[j := ExtendedKey(infos[j], v)];
    }

    method PushRow(v: ForeignValue)
      requires Valid()
      modifies this, arrays
      ensures Valid() && fresh(arrays - old(arrays))
      ensures (infos, at) == ForeignsAfter(old(infos), old(at), v)
    {
      if v.name !in byName {
        List(v);
      }
      Extend(v);
    }

    method Finish() returns (r: seq<ForeignInfo>)
      requires Valid()
      ensures r == infos
    {
      r := [];
      for k := 0 to |fk|
        invariant r == infos[..k]
      {
        r := r + [ForeignInfo(fk[k].pairs.cols, fk[k].schema, fk[k].table, fk[k].pairs.refCols)];
      }
    }
  }

  /** One table while it is folded, reached both from the result and from the map by key. */
  class Accumulator {
    const schema: string
    const name: string
    const kind: Option<Kind>
    const indexes: IndexList
    const foreigns: ForeignList
    var cols: seq<Column>
    var pk: seq<string>

    ghost function View(): Entry
      reads this, indexes, foreigns
    {
      Entry(TableInfo(schema, name, kind, cols, pk, indexes.infos, foreigns.infos), indexes.at, foreigns.at)
    }

    ghost predicate Valid()
      reads indexes, foreigns, indexes.arrays, foreigns.arrays
    {
      indexes.Valid() && foreigns.Valid()
    }

    constructor (row: Row<ColumnValue>)
      ensures Valid() && View() == NewEntry(row)
      ensures fresh(indexes) && fresh(foreigns) && indexes.arrays == {} && foreigns.arrays == {}
    {
      schema, name, kind := row.schema, row.table, row.value.kind;
      cols, pk := [], [];
      indexes := new IndexList();
      foreigns := new ForeignList();
    }

    method PushColumn(v: ColumnValue)
      modifies this
      ensures View() == AddColumn(old(View()), v)
    {
      cols := cols + [v.column];
    }

    method PushKey(column: string)
      modifies this
      ensures View() == AddKey(old(View()), column)
    {
      pk := pk + [column];
    }

    method PushIndex(v: IndexValue)
      requires Valid()
      modifies indexes, indexes.arrays
      ensures Valid() && fresh(indexes.arrays - old(indexes.arrays)) && View() == AddIndex(old(View()), v)
    {
      indexes.PushRow(v);
    }

    method PushForeign(v: ForeignValue)
      requires Valid()
      modifies foreigns, foreigns.arrays
      ensures Valid() && fresh(foreigns.arrays - old(foreigns.arrays)) && View() == AddForeign(old(View()), v)
    {
      foreigns.PushRow(v);
    }

    method Finish() returns (info: TableInfo)
      requires Valid()
      ensures info == View().info
    {
      var ixs := indexes.Finish();
      var fks := foreigns.Finish();
      info := TableInfo(schema, name, kind, cols, pk, ixs, fks);
    }
  }

  /** A table, its lists and their arrays. */
  ghost function Own(t: Accumulator): set<object>
    reads t.indexes, t.foreigns
  {
    {t, t.indexes, t.foreigns} + t.indexes.arrays + t.foreigns.arrays
  }

  ghost predicate Distinct(tables: seq<Accumulator>) {
    forall i, j | 0 <= i < |tables| && 0 <= j < |tables| && i != j ::
      && tables[i] != tables[j]
      && tables[i].indexes != tables[j].indexes
      && tables[i].foreigns != tables[j].foreigns
  }

  /** The first `n` tables lie in `foot` and stand for the first `n` entries. */
  ghost predicate Each(tables: seq<Accumulator>, entries: seq<Entry>, n: nat, foot: set<object>)
    requires n <= |tables| == |entries|
    reads foot
  {
    n == 0
    || (Each(tables, entries, n - 1, foot) && Standing(tables[n - 1], entries[n - 1], foot))
  }

  ghost predicate Standing(t: Accumulator, entry: Entry, foot: set<object>)
    reads foot
  {
    && t in foot && t.indexes in foot && t.foreigns in foot && Own(t) <= foot
    && t.Valid() && t.View() == entry
  }

  ghost predicate Reaches(tables: seq<Accumulator>, index: map<string, Accumulator>, at: map<string, nat>) {
    && index.Keys == at.Keys
    && (forall key | key in index :: at[key] < |tables| && index[key] == tables[at[key]])
  }

  /** Each table stands for its entry, and the map by key reaches the very same tables. */
  ghost predicate Stands(
    tables: seq<Accumulator>, index: map<string, Accumulator>, entries: seq<Entry>, at: map<string, nat>, foot: set<object>)
    reads foot
  {
    |tables| == |entries| && Distinct(tables) && Each(tables, entries, |tables|, foot) && Reaches(tables, index, at)
  }

  lemma {:induction false} EachAt(tables: seq<Accumulator>, entries: seq<Entry>, n: nat, foot: set<object>, j: nat)
    requires j < n <= |tables| == |entries| && Each(tables, entries, n, foot)
    ensures Standing(tables[j], entries[j], foot)
  {
    if j < n - 1 {
      EachAt(tables, entries, n - 1, foot, j);
    }
  }

  lemma StandsWider(t: Accumulator, entry: Entry, foot: set<object>, wider: set<object>)
    requires Standing(t, entry, foot) && foot <= wider
    ensures Standing(t, entry, wider)
  {
  }

  lemma {:induction false} EachWidens(
    tables: seq<Accumulator>, more: seq<Accumulator>, entries: seq<Entry>, longer: seq<Entry>, n: nat,
    foot: set<object>, wider: set<object>)
    requires n <= |tables| == |entries| && tables <= more && entries <= longer && |more| == |longer|
    requires foot <= wider && Each(tables, entries, n, foot)
    ensures Each(more, longer, n, wider)
  {
    if n > 0 {
      EachWidens(tables, more, entries, longer, n - 1, foot, wider);
      StandsWider(tables[n - 1], entries[n - 1], foot, wider);
    }
  }

  lemma NewIsDistinct(tables: seq<Accumulator>, entries: seq<Entry>, foot: set<object>, t: Accumulator)
    requires |tables| == |entries| && Distinct(tables) && Each(tables, entries, |tables|, foot)
    requires t !in foot && t.indexes !in foot && t.foreigns !in foot
    ensures Distinct(tables + [t])
  {
    forall i | 0 <= i < |tables|
      ensures tables[i] != t && tables[i].indexes != t.indexes && tables[i].foreigns != t.foreigns
    {
      EachAt(tables, entries, |tables|, foot, i);
    }
  }

  /** A row has changed table `at`, which owned `own`; `n` is any table beside it, or how many are looked at. */
  datatype Change = Change(
    tables: seq<Accumulator>, before: seq<Entry>, after: seq<Entry>, foot: set<object>, own: set<object>,
    at: nat, n: nat)

  ghost predicate Sized(c: Change) {
    && c.at < |c.tables| == |c.before| == |c.after| && Distinct(c.tables)
    && forall i | 0 <= i < |c.tables| && i != c.at :: c.after[i] == c.before[i]
  }

  ghost function OneRow(
    tables: seq<Accumulator>, entries: seq<Entry>, at: nat, entry: Entry, foot: set<object>, own: set<object>): (c: Change)
    requires at < |tables| == |entries| && Distinct(tables)
    ensures Sized(c)
  {
    Change(tables, entries, entries[at := entry], foot, own, at, |tables|)
  }

  twostate predicate OnlyMoved(foot: set<object>, own: set<object>)
    reads foot
  {
    forall o | o in foot && o !in own :: unchanged(o)
  }

  twostate lemma Unmoved(t: Accumulator)
    requires old(t.Valid()) && unchanged(old(Own(t)))
    ensures t.Valid() && t.View() == old(t.View()) && Own(t) == old(Own(t))
  {
  }

  /** Any other table stands for what it did. */
  twostate lemma OtherStands(c: Change)
    requires Sized(c) && c.n < |c.tables| && c.n != c.at
    requires old(c.tables[c.at].Valid()) && c.own == old(Own(c.tables[c.at])) && OnlyMoved(c.foot, c.own)
    requires old(Standing(c.tables[c.n], c.before[c.n], c.foot))
    ensures Standing(c.tables[c.n], c.after[c.n], c.foot)
  {
    var t := c.tables[c.n];
    forall o | o in old(t.indexes.arrays) ensures o !in c.own {
      assert o.owner == t.indexes;
    }
    forall o | o in old(t.foreigns.arrays) ensures o !in c.own {
      assert o.owner == t.foreigns;
    }
    Unmoved(t);
  }

  twostate lemma {:induction false} EachButOne(c: Change)
    requires Sized(c) && c.n <= |c.tables| && old(Each(c.tables, c.before, c.n, c.foot))
    requires old(c.tables[c.at].Valid()) && c.own == old(Own(c.tables[c.at])) && OnlyMoved(c.foot, c.own)
    requires c.tables[c.at].Valid() && c.tables[c.at].View() == c.after[c.at]
    ensures Each(c.tables, c.after, c.n, c.foot + Own(c.tables[c.at]))
    decreases c.n
  {
    if c.n > 0 {
      EachButOne(c.(n := c.n - 1));
      if c.n - 1 != c.at {
        OtherStands(c.(n := c.n - 1));
        StandsWider(c.tables[c.n - 1], c.after[c.n - 1], c.foot, c.foot + Own(c.tables[c.at]));
      }
    }
  }

  /** A new table comes last. */
  method AddTable(
    tables: seq<Accumulator>, index: map<string, Accumulator>, key: string, row: Row<ColumnValue>,
    ghost entries: seq<Entry>, ghost at: map<string, nat>, ghost foot: set<object>)
    returns (more: seq<Accumulator>, keyed: map<string, Accumulator>, ghost wider: set<object>)
    requires Stands(tables, index, entries, at, foot) && key !in index
    ensures Stands(more, keyed, entries + [NewEntry(row)], at[key := |entries|], wider) && fresh(wider - foot)
  {
    var t := new Accumulator(row);
    more, keyed, wider := tables + [t], index[key := t], foot + Own(t);
    NewIsDistinct(tables, entries, foot, t);
    EachWidens(tables, more, entries, entries + [NewEntry(row)], |tables|, foot, wider);
  }

  method PushColumnAt(
    tables: seq<Accumulator>, index: map<string, Accumulator>, key: string, v: ColumnValue,
    ghost entries: seq<Entry>, ghost at: map<string, nat>, ghost foot: set<object>)
    requires Stands(tables, index, entries, at, foot) && key in index
    modifies foot
    ensures Stands(tables, index, entries[at[key] := AddColumn(entries[at[key]], v)], at, foot)
  {
    EachAt(tables, entries, |tables|, foot, at[key]);
    ghost var own := Own(index[key]);
    index[key].PushColumn(v);
    EachButOne(OneRow(tables, entries, at[key], AddColumn(entries[at[key]], v), foot, own));
    assert foot + Own(index[key]) == foot;
  }

  method PushKeyAt(
    tables: seq<Accumulator>, index: map<string, Accumulator>, key: string, column: string,
    ghost entries: seq<Entry>, ghost at: map<string, nat>, ghost foot: set<object>)
    requires Stands(tables, index, entries, at, foot) && key in index
    modifies foot
    ensures Stands(tables, index, entries[at[key] := AddKey(entries[at[key]], column)], at, foot)
  {
    EachAt(tables, entries, |tables|, foot, at[key]);
    ghost var own := Own(index[key]);
    index[key].PushKey(column);
    EachButOne(OneRow(tables, entries, at[key], AddKey(entries[at[key]], column), foot, own));
    assert foot + Own(index[key]) == foot;
  }

  method PushIndexAt(
    tables: seq<Accumulator>, index: map<string, Accumulator>, key: string, v: IndexValue,
    ghost entries: seq<Entry>, ghost at: map<string, nat>, ghost foot: set<object>)
    returns (ghost wider: set<object>)
    requires Stands(tables, index, entries, at, foot) && key in index
    modifies foot
    ensures Stands(tables, index, entries[at[key] := AddIndex(entries[at[key]], v)], at, wider)
    ensures fresh(wider - foot)
  {
    EachAt(tables, entries, |tables|, foot, at[key]);
    ghost var own := Own(index[key]);
    index[key].PushIndex(v);
    EachButOne(OneRow(tables, entries, at[key], AddIndex(entries[at[key]], v), foot, own));
    wider := foot + Own(index[key]);
  }

  method PushForeignAt(
    tables: seq<Accumulator>, index: map<string, Accumulator>, key: string, v: ForeignValue,
    ghost entries: seq<Entry>, ghost at: map<string, nat>, ghost foot: set<object>)
    returns (ghost wider: set<object>)
    requires Stands(tables, index, entries, at, foot) && key in index
    modifies foot
    ensures Stands(tables, index, entries[at[key] := AddForeign(entries[at[key]], v)], at, wider)
    ensures fresh(wider - foot)
  {
    EachAt(tables, entries, |tables|, foot, at[key]);
    ghost var own := Own(index[key]);
    index[key].PushForeign(v);
    EachButOne(OneRow(tables, entries, at[key], AddForeign(entries[at[key]], v), foot, own));
    wider := foot + Own(index[key]);
  }

  lemma KeyAt(rows: Rows, r: Row<string>)
    ensures var before, after := Entries(rows), Entries(rows.(primaryKeys := rows.primaryKeys + [r]));
            match Place(rows.columns, Joined(r.schema, r.table))
            case None => after == before
            case Some(j) => j < |before| && after == before[j := AddKey(before[j], r.value)]
  {
    var before, after := Entries(rows), Entries(rows.(primaryKeys := rows.primaryKeys + [r]));
    PlaceIsFirst(rows.columns, Joined(r.schema, r.table));
    EntriesAddsKey(rows, r);
    if Place(rows.columns, Joined(r.schema, r.table)).None? {
      forall i | 0 <= i < |before| ensures after[i] == before[i] {
        assert Firsts(Keys(rows.columns))[i] in Firsts(Keys(rows.columns));
      }
    }
  }

  lemma IndexAtEntries(rows: Rows, r: Row<IndexValue>)
    ensures var before, after := Entries(rows), Entries(rows.(indexes := rows.indexes + [r]));
            match Place(rows.columns, Joined(r.schema, r.table))
            case None => after == before
            case Some(j) => j < |before| && after == before[j := AddIndex(before[j], r.value)]
  {
    var before, after := Entries(rows), Entries(rows.(indexes := rows.indexes + [r]));
    PlaceIsFirst(rows.columns, Joined(r.schema, r.table));
    EntriesAddsIndex(rows, r);
    if Place(rows.columns, Joined(r.schema, r.table)).None? {
      forall i | 0 <= i < |before| ensures after[i] == before[i] {
        assert Firsts(Keys(rows.columns))[i] in Firsts(Keys(rows.columns));
      }
    }
  }

  lemma ForeignAtEntries(rows: Rows, r: Row<ForeignValue>)
    ensures var before, after := Entries(rows), Entries(rows.(foreignKeys := rows.foreignKeys + [r]));
            match Place(rows.columns, Joined(r.schema, r.table))
            case None => after == before
            case Some(j) => j < |before| && after == before[j := AddForeign(before[j], r.value)]
  {
    var before, after := Entries(rows), Entries(rows.(foreignKeys := rows.foreignKeys + [r]));
    PlaceIsFirst(rows.columns, Joined(r.schema, r.table));
    EntriesAddsForeign(rows, r);
    if Place(rows.columns, Joined(r.schema, r.table)).None? {
      forall i | 0 <= i < |before| ensures after[i] == before[i] {
        assert Firsts(Keys(rows.columns))[i] in Firsts(Keys(rows.columns));
      }
    }
  }

  // ---- One row -----------------------------------------------------------------------

  method ColumnRow(
    tables: seq<Accumulator>, index: map<string, Accumulator>, col: Row<ColumnValue>,
    ghost before: seq<Row<ColumnValue>>, ghost foot: set<object>)
    returns (more: seq<Accumulator>, keyed: map<string, Accumulator>, ghost wider: set<object>)
    requires Stands(tables, index, Entries(Rows(before, [], [], [])), Positions(Keys(before)), foot)
    modifies foot
    ensures Stands(more, keyed, Entries(Rows(before + [col], [], [], [])), Positions(Keys(before + [col])), wider)
    ensures fresh(wider - foot)
  {
    var key := Joined(col.schema, col.table);
    ghost var entries, at := Entries(Rows(before, [], [], [])), Positions(Keys(before));
    more, keyed, wider := tables, index, foot;
    if key !in index {
      EntriesNewTable(before, col);
      LastReplaced(entries, NewEntry(col), AddColumn(NewEntry(col), col.value));
      more, keyed, wider := AddTable(tables, index, key, col, entries, at, foot);
      entries, at := entries + [NewEntry(col)], at[key := |entries|];
    } else {
      EntriesAddColumn(before, col);
    }
    PushColumnAt(more, keyed, key, col.value, entries, at, wider);
  }

  method KeyRow(
    tables: seq<Accumulator>, index: map<string, Accumulator>, pk: Row<string>,
    ghost before: Rows, ghost foot: set<object>)
    requires Stands(tables, index, Entries(before), Positions(Keys(before.columns)), foot)
    modifies foot
    ensures Stands(tables, index, Entries(before.(primaryKeys := before.primaryKeys + [pk])),
                   Positions(Keys(before.columns)), foot)
  {
    var key := Joined(pk.schema, pk.table);
    KeyAt(before, pk);
    if key !in index {
      return;
    }
    PushKeyAt(tables, index, key, pk.value, Entries(before), Positions(Keys(before.columns)), foot);
  }

  method IndexRow(
    tables: seq<Accumulator>, index: map<string, Accumulator>, ix: Row<IndexValue>,
    ghost before: Rows, ghost foot: set<object>)
    returns (ghost wider: set<object>)
    requires Stands(tables, index, Entries(before), Positions(Keys(before.columns)), foot)
    modifies foot
    ensures Stands(tables, index, Entries(before.(indexes := before.indexes + [ix])),
                   Positions(Keys(before.columns)), wider)
    ensures fresh(wider - foot)
  {
    var key := Joined(ix.schema, ix.table);
    IndexAtEntries(before, ix);
    if key !in index {
      return foot;
    }
    wider := PushIndexAt(tables, index, key, ix.value, Entries(before), Positions(Keys(before.columns)), foot);
  }

  method ForeignRow(
    tables: seq<Accumulator>, index: map<string, Accumulator>, constraint: Row<ForeignValue>,
    ghost before: Rows, ghost foot: set<object>)
    returns (ghost wider: set<object>)
    requires Stands(tables, index, Entries(before), Positions(Keys(before.columns)), foot)
    modifies foot
    ensures Stands(tables, index, Entries(before.(foreignKeys := before.foreignKeys + [constraint])),
                   Positions(Keys(before.columns)), wider)
    ensures fresh(wider - foot)
  {
    var key := Joined(constraint.schema, constraint.table);
    ForeignAtEntries(before, constraint);
    if key !in index {
      return foot;
    }
    wider := PushForeignAt(tables, index, key, constraint.value, Entries(before), Positions(Keys(before.columns)), foot);
  }

  // ---- The fold ----------------------------------------------------------------------

  method FoldColumns(columns: seq<Row<ColumnValue>>)
    returns (tables: seq<Accumulator>, index: map<string, Accumulator>, ghost foot: set<object>)
    ensures Stands(tables, index, Entries(Rows(columns, [], [], [])), Positions(Keys(columns)), foot) && fresh(foot)
  {
    tables, index, foot := [], map[], {};
    for i := 0 to |columns|
      invariant Stands(tables, index, Entries(Rows(columns[..i], [], [], [])), Positions(Keys(columns[..i])), foot)
      invariant fresh(foot)
    {
      assert columns[..i + 1] == columns[..i] + [columns[i]];
      tables, index, foot := ColumnRow(tables, index, columns[i], columns[..i], foot);
    }
    assert columns[..|columns|] == columns;
  }

  /** Key, index and foreign-key rows only add to tables that the columns have made. */
  method FoldKeys(rows: Rows, tables: seq<Accumulator>, index: map<string, Accumulator>, ghost foot: set<object>)
    requires Stands(tables, index, Entries(Rows(rows.columns, [], [], [])), Positions(Keys(rows.columns)), foot)
    modifies foot
    ensures Stands(tables, index, Entries(Rows(rows.columns, rows.primaryKeys, [], [])), Positions(Keys(rows.columns)), foot)
  {
    var keys := rows.primaryKeys;
    for i := 0 to |keys|
      invariant Stands(tables, index, Entries(Rows(rows.columns, keys[..i], [], [])), Positions(Keys(rows.columns)), foot)
    {
      assert keys[..i + 1] == keys[..i] + [keys[i]];
      KeyRow(tables, index, keys[i], Rows(rows.columns, keys[..i], [], []), foot);
    }
    assert keys[..|keys|] == keys;
  }

  method FoldIndexes(rows: Rows, tables: seq<Accumulator>, index: map<string, Accumulator>, ghost foot: set<object>)
    returns (ghost wider: set<object>)
    requires Stands(tables, index, Entries(rows.(indexes := [], foreignKeys := [])), Positions(Keys(rows.columns)), foot)
    modifies foot
    ensures Stands(tables, index, Entries(rows.(foreignKeys := [])), Positions(Keys(rows.columns)), wider)
    ensures fresh(wider - foot)
  {
    wider := foot;
    var indexes := rows.indexes;
    for i := 0 to |indexes|
      invariant Stands(tables, index, Entries(rows.(indexes := indexes[..i], foreignKeys := [])),
                       Positions(Keys(rows.columns)), wider)
      invariant fresh(wider - foot)
    {
      assert indexes[..i + 1] == indexes[..i] + [indexes[i]];
      wider := IndexRow(tables, index, indexes[i], rows.(indexes := indexes[..i], foreignKeys := []), wider);
    }
    assert indexes[..|indexes|] == indexes;
  }

  method FoldForeignKeys(rows: Rows, tables: seq<Accumulator>, index: map<string, Accumulator>, ghost foot: set<object>)
    returns (ghost wider: set<object>)
    requires Stands(tables, index, Entries(rows.(foreignKeys := [])), Positions(Keys(rows.columns)), foot)
    modifies foot
    ensures Stands(tables, index, Entries(rows), Positions(Keys(rows.columns)), wider) && fresh(wider - foot)
  {
    wider := foot;
    var constraints := rows.foreignKeys;
    for i := 0 to |constraints|
      invariant Stands(tables, index, Entries(rows.(foreignKeys := constraints[..i])), Positions(Keys(rows.columns)), wider)
      invariant fresh(wider - foot)
    {
      assert constraints[..i + 1] == constraints[..i] + [constraints[i]];
      wider := ForeignRow(tables, index, constraints[i], rows.(foreignKeys := constraints[..i]), wider);
    }
    assert constraints[..|constraints|] == constraints;
  }

  method FinishedAt(tables: seq<Accumulator>, ghost entries: seq<Entry>, ghost foot: set<object>, i: nat)
    returns (info: TableInfo)
    requires i < |tables| == |entries| && Each(tables, entries, |tables|, foot)
    ensures info == entries[i].info && Each(tables, entries, |tables|, foot)
  {
    EachAt(tables, entries, |tables|, foot, i);
    info := tables[i].Finish();
  }

  /** The tables read off through their lists. */
  method Finished(tables: seq<Accumulator>, ghost entries: seq<Entry>, ghost foot: set<object>)
    returns (result: seq<TableInfo>)
    requires |tables| == |entries| && Each(tables, entries, |tables|, foot)
    ensures |result| == |entries| && forall i | 0 <= i < |entries| :: result[i] == entries[i].info
  {
    result := [];
    for i := 0 to |tables|
      invariant |result| == i && forall k | 0 <= k < i :: result[k] == entries[k].info
      invariant Each(tables, entries, |tables|, foot)
    {
      var info := FinishedAt(tables, entries, foot, i);
      result := result + [info];
    }
  }

  /** The fold over shared arrays is the group-by. */
  method AssembleSchema(rows: Rows) returns (result: seq<TableInfo>)
    ensures result == Assembled(rows)
  {
    var tables, index, foot := FoldColumns(rows.columns);
    FoldKeys(rows, tables, index, foot);
    foot := FoldIndexes(rows, tables, index, foot);
    foot := FoldForeignKeys(rows, tables, index, foot);
    result := Finished(tables, Entries(rows), foot);
  }

  // ---- What the group-by gives -------------------------------------------------------

  /** Index, key and foreign-key rows never create, remove or move a table. */
  lemma OnlyColumnsMakeTables(rows: Rows, bare: Rows)
    requires bare == Rows(rows.columns, [], [], [])
    ensures |Assembled(rows)| == |Assembled(bare)| == |Firsts(Keys(rows.columns))|
    ensures forall i | 0 <= i < |Assembled(rows)| ::
              && Assembled(rows)[i].schema == Assembled(bare)[i].schema
              && Assembled(rows)[i].name == Assembled(bare)[i].name
              && Assembled(rows)[i].columns == Assembled(bare)[i].columns
  {
  }

  predicate NoNul(s: string) {
    forall k | 0 <= k < |s| :: s[k] != '\0'
  }

  /** Joined names are equal only for the same relation. */
  lemma {:induction false} RelationsStayApart(schema: string, table: string, other: string, otherTable: string)
    requires NoNul(schema) && NoNul(other)
    ensures Joined(schema, table) == Joined(other, otherTable) <==> schema == other && table == otherTable
    decreases |schema|
  {
    var a, b := Joined(schema, table), Joined(other, otherTable);
    if a == b {
      if schema == "" {
        assert a[0] == '\0';
        assert other == "";
        assert a[1..] == table && b[1..] == otherTable;
      } else {
        assert a[0] == schema[0];
        assert other != "";
        assert a[1..] == Joined(schema[1..], table) && b[1..] == Joined(other[1..], otherTable);
        RelationsStayApart(schema[1..], table, other[1..], otherTable);
        assert schema == [schema[0]] + schema[1..] && other == [other[0]] + other[1..];
      }
    }
  }
}
