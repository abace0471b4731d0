/**
 What the composed statements say outside their identifiers. With every span blanked out,
 a composed text is one fixed pattern that depends on how many names there are and never on
 what they hold.
 */
module SqlShapes {
  import opened Text
  import opened SqlScanner
  import opened SqlTokens
  import opened SqlFragments
  import opened SqlComposer
  import opened SqlCreateTable
  import Schema
  import TableRows

  /** The text the tokens make when each span is replaced by one mark. */
  function Blanked(toks: seq<Token>): string {
    if toks == [] then "" else [if toks[0].Char? then toks[0].c else '@'] + Blanked(toks[1..])
  }

  function Shape(engine: Engine, f: Fragment): string {
    match f
    case Nothing => ""
    case Literal(text) => text
    case Ident(_) => "@"
    case Param(index) => Placeholder(engine, index)
    case Then(a, b) => Shape(engine, a) + Shape(engine, b)
  }

  lemma {:induction false} BlankedChars(text: string, rest: seq<Token>)
    ensures Blanked(CharsThen(text, rest)) == text + Blanked(rest)
  {
    if text != "" {
      BlankedChars(text[1..], rest);
      assert text == [text[0]] + text[1..];
    }
  }

  lemma {:induction false} BlankedMeaning(engine: Engine, f: Fragment, rest: seq<Token>)
    ensures Blanked(Meaning(engine, f, rest)) == Shape(engine, f) + Blanked(rest)
    decreases f
  {
    match f
    case Nothing =>
    case Literal(text) => BlankedChars(text, rest);
    case Ident(name) =>
    case Param(index) => BlankedChars(Placeholder(engine, index), rest);
    case Then(a, b) =>
      var after := Meaning(engine, b, rest);
      BlankedMeaning(engine, b, rest);
      BlankedMeaning(engine, a, after);
      Chained(Blanked(Meaning(engine, a, after)), Shape(engine, a), Blanked(after), Shape(engine, b), Blanked(rest));
  }

  /** A text that a fragment renders to has the fragment's shape. */
  lemma SaidHasShape(
    d: Dialect, f: Fragment, text: string, names: seq<string>, indexes: seq<nat>, leaves: bool)
    requires Says(d.engine, f, false, text, names, indexes, leaves)
    ensures Blanked(Tokens(d, text, 0)) == Shape(d.engine, f)
  {
    RenderedTokens(d, f);
    BlankedMeaning(d.engine, f, []);
    assert Shape(d.engine, f) + "" == Shape(d.engine, f);
  }

  // ---- Shapes of the parts -----------------------------------------------------------

  /** `n` marks. */
  function Marks(n: nat): seq<string> {
    if n == 0 then [] else ["@"] + Marks(n - 1)
  }

  function TableMark(schema: Option<string>): string {
    if schema.Some? then "@.@" else "@"
  }

  lemma TableShape(engine: Engine, schema: Option<string>, table: string)
    ensures Shape(engine, TableFragment(schema, table)) == TableMark(schema)
  {
    if schema.Some? {
      assert Shape(engine, Then(Literal("."), Ident(table))) == "." + "@";
      assert "@" + ("." + "@") == "@.@";
    }
  }

  lemma HeadedShape(engine: Engine, keyword: FixedText, schema: Option<string>, table: string, f: Fragment)
    ensures Shape(engine, Headed(keyword, schema, table, f)) == keyword + (TableMark(schema) + Shape(engine, f))
  {
    TableShape(engine, schema, table);
    assert Shape(engine, Then(TableFragment(schema, table), f)) == TableMark(schema) + Shape(engine, f);
  }

  lemma CommaShape(engine: Engine, a: Fragment, b: Fragment)
    ensures Shape(engine, Then(a, Then(Literal(", "), b))) == Shape(engine, a) + (", " + Shape(engine, b))
  {
    assert Shape(engine, Then(Literal(", "), b)) == ", " + Shape(engine, b);
  }

  lemma {:induction false} ColumnsShape(engine: Engine, names: seq<string>)
    ensures |ColumnFragments(names)| == |Marks(|names|)| == |names|
    ensures Shape(engine, Commas(ColumnFragments(names))) == Join(Marks(|names|), ", ")
  {
    if names != [] {
      ColumnsShape(engine, names[1..]);
      assert ColumnFragments(names)[1..] == ColumnFragments(names[1..]);
      assert Marks(|names|)[1..] == Marks(|names| - 1);
      if |names| > 1 {
        CommaShape(engine, Ident(names[0]), Commas(ColumnFragments(names[1..])));
      }
    }
  }

  lemma {:induction false} ParamsShape(engine: Engine, from: nat, n: nat)
    ensures |ParamFragments(from, n)| == |Placeholders(engine, from, n)| == n
    ensures Shape(engine, Commas(ParamFragments(from, n))) == Join(Placeholders(engine, from, n), ", ")
    decreases n
  {
    if n > 0 {
      ParamsShape(engine, from + 1, n - 1);
      assert ParamFragments(from, n)[1..] == ParamFragments(from + 1, n - 1);
      assert Placeholders(engine, from, n)[1..] == Placeholders(engine, from + 1, n - 1);
      if n > 1 {
        CommaShape(engine, Param(from), Commas(ParamFragments(from + 1, n - 1)));
      }
    }
  }

  /** A numbered placeholder on Postgres, a question mark on MySQL. */
  function SlotMark(engine: Engine, index: nat): string {
    if engine == Mysql then "?" else "$" + Decimal(index)
  }

  /** `n` of them, the first numbered `from`. */
  function SlotMarks(engine: Engine, from: nat, n: nat): seq<string>
    decreases n
  {
    if n == 0 then [] else [SlotMark(engine, from)] + SlotMarks(engine, from + 1, n - 1)
  }

  lemma {:induction false} SlotsAreMarks(engine: Engine, from: nat, n: nat)
    ensures Placeholders(engine, from, n) == SlotMarks(engine, from, n)
    decreases n
  {
    if n > 0 {
      SlotsAreMarks(engine, from + 1, n - 1);
    }
  }

  /** The key's slot: on MySQL, where it has a scale, inside a cast. */
  function KeyMark(engine: Engine, index: nat, scale: Option<nat>): string {
    if engine == Mysql && scale != None then "CAST(? AS DECIMAL(65," + (Decimal(scale.value) + "))")
    else SlotMark(engine, index)
  }

  lemma KeyIsMark(engine: Engine, index: nat, scale: Option<nat>)
    ensures PkPlaceholder(engine, index, scale) == KeyMark(engine, index, scale)
  {
    if engine.Mysql? && scale.Some? {
      var tail := Decimal(scale.value) + "))";
      assert "CAST(" + ("?" + (" AS DECIMAL(65," + tail)) == "CAST(? AS DECIMAL(65," + tail;
      assert " AS DECIMAL(65," + Decimal(scale.value) + "))" == " AS DECIMAL(65," + tail;
    }
  }

  /** `@=` and a placeholder, `n` times. */
  function AssignmentMarks(engine: Engine, from: nat, n: nat): seq<string>
    decreases n
  {
    if n == 0 then [] else ["@=" + SlotMark(engine, from)] + AssignmentMarks(engine, from + 1, n - 1)
  }

  lemma AssignmentShape(engine: Engine, name: string, index: nat)
    ensures Shape(engine, AssignmentFragment(name, index)) == "@=" + SlotMark(engine, index)
  {
    assert Shape(engine, Then(Literal("="), Param(index))) == "=" + Placeholder(engine, index);
  }

  lemma {:induction false} AssignmentsShape(engine: Engine, names: seq<string>, from: nat)
    ensures |AssignmentFragments(names, from)| == |AssignmentMarks(engine, from, |names|)| == |names|
    ensures Shape(engine, Commas(AssignmentFragments(names, from))) ==
            Join(AssignmentMarks(engine, from, |names|), ", ")
  {
    if names != [] {
      AssignmentShape(engine, names[0], from);
      AssignmentsShape(engine, names[1..], from + 1);
      assert AssignmentFragments(names, from)[1..] == AssignmentFragments(names[1..], from + 1);
      assert AssignmentMarks(engine, from, |names|)[1..] == AssignmentMarks(engine, from + 1, |names| - 1);
      if |names| > 1 {
        CommaShape(engine, AssignmentFragment(names[0], from), Commas(AssignmentFragments(names[1..], from + 1)));
      }
    }
  }

  lemma PkShape(engine: Engine, index: nat, scale: Option<nat>)
    ensures Shape(engine, PkFragment(engine, index, scale)) == PkPlaceholder(engine, index, scale)
  {
    if engine.Mysql? && scale.Some? {
      var tail := CastTail(scale.value);
      assert Shape(engine, Then(Param(index), Literal(tail))) == Placeholder(engine, index) + tail;
    }
  }

  function WhereMark(engine: Engine, index: nat, scale: Option<nat>): string {
    " WHERE @=" + KeyMark(engine, index, scale)
  }

  lemma WhereShape(engine: Engine, pk: string, index: nat, scale: Option<nat>)
    ensures Shape(engine, WhereFragment(engine, pk, index, scale)) == WhereMark(engine, index, scale)
  {
    var f, t := PkFragment(engine, index, scale), PkPlaceholder(engine, index, scale);
    PkShape(engine, index, scale);
    KeyIsMark(engine, index, scale);
    assert Shape(engine, Then(Literal("="), f)) == "=" + t;
    assert Shape(engine, Then(Ident(pk), Then(Literal("="), f))) == "@" + ("=" + t);
    assert " WHERE " + ("@" + ("=" + t)) == " WHERE @=" + t;
  }

  function InsertTailMark(engine: Engine, n: nat): string {
    " (" + (Join(Marks(n), ", ") + (") VALUES (" + (Join(SlotMarks(engine, 1, n), ", ") + ")")))
  }

  lemma InsertTailShape(engine: Engine, names: seq<string>)
    ensures Shape(engine, InsertTail(names)) == InsertTailMark(engine, |names|)
  {
    var values := Commas(ParamFragments(1, |names|));
    ColumnsShape(engine, names);
    ParamsShape(engine, 1, |names|);
    SlotsAreMarks(engine, 1, |names|);
    assert Shape(engine, Then(values, Literal(")"))) == Shape(engine, values) + ")";
    assert Shape(engine, ValuesFragment(|names|)) == ") VALUES (" + (Shape(engine, values) + ")");
    assert Shape(engine, Then(Commas(ColumnFragments(names)), ValuesFragment(|names|))) ==
           Shape(engine, Commas(ColumnFragments(names))) + Shape(engine, ValuesFragment(|names|));
  }

  lemma SetThenShape(engine: Engine, names: seq<string>, f: Fragment)
    ensures Shape(engine, SetThen(names, f)) ==
            " SET " + (Join(AssignmentMarks(engine, 1, |names|), ", ") + Shape(engine, f))
  {
    AssignmentsShape(engine, names, 1);
    assert Shape(engine, Then(Commas(AssignmentFragments(names, 1)), f)) ==
           Shape(engine, Commas(AssignmentFragments(names, 1))) + Shape(engine, f);
  }

  function UpdateTailMark(engine: Engine, n: nat, scale: Option<nat>): string {
    " SET " + (Join(AssignmentMarks(engine, 1, n), ", ") + WhereMark(engine, n + 1, scale))
  }

  lemma UpdateTailShape(engine: Engine, names: seq<string>, pk: string, index: nat, scale: Option<nat>)
    requires index == |names| + 1
    ensures Shape(engine, SetThen(names, WhereFragment(engine, pk, index, scale))) ==
            UpdateTailMark(engine, |names|, scale)
  {
    WhereShape(engine, pk, index, scale);
    SetThenShape(engine, names, WhereFragment(engine, pk, index, scale));
  }

  // ---- The statements ----------------------------------------------------------------

  lemma HeadedHasShape(
    d: Dialect, keyword: FixedText, schema: Option<string>, table: string,
    f: Fragment, text: string, names: seq<string>, indexes: seq<nat>, leaves: bool, mark: string)
    requires Says(d.engine, f, true, text, names, indexes, leaves) && Shape(d.engine, f) == mark
    ensures Blanked(Tokens(d, keyword + (Qualified(d.engine, schema, table) + text), 0)) ==
            keyword + (TableMark(schema) + mark)
  {
    HeadedSays(d.engine, keyword, false, schema, table, f, text, names, indexes, leaves);
    SaidHasShape(d, Headed(keyword, schema, table, f), keyword + (Qualified(d.engine, schema, table) + text),
                 TableNames(schema, table) + names, indexes, leaves);
    HeadedShape(d.engine, keyword, schema, table, f);
  }

  /** An INSERT is `INSERT INTO @ (@, @) VALUES ($1, $2)`, whatever its names hold. */
  lemma InsertHasShape(d: Dialect, schema: Option<string>, table: string, names: seq<string>)
    ensures Blanked(Tokens(d, InsertSql(d.engine, schema, table, names), 0)) ==
            "INSERT INTO " + (TableMark(schema) + InsertTailMark(d.engine, |names|))
  {
    InsertTailSays(d.engine, names);
    InsertTailShape(d.engine, names);
    HeadedHasShape(d, INSERT_INTO, schema, table, InsertTail(names), InsertTailText(d.engine, names),
                   names, Counting(1, |names|), false, InsertTailMark(d.engine, |names|));
  }

  /** An UPDATE is `UPDATE @.@ SET @=$1, @=$2 WHERE @=$3`: only the addressed row, whatever the names. */
  lemma UpdateHasShape(
    d: Dialect, schema: string, table: string, names: seq<string>, pk: string, scale: Option<nat>)
    ensures Blanked(Tokens(d, UpdateSql(d.engine, schema, table, names, pk, scale), 0)) ==
            "UPDATE " + (TableMark(Some(schema)) + UpdateTailMark(d.engine, |names|, scale))
  {
    var index := |names| + 1;
    var f, text := WhereFragment(d.engine, pk, index, scale), WhereText(d.engine, pk, index, scale);
    WhereSays(d.engine, pk, index, scale, names != []);
    SetThenSays(d.engine, names, f, text, pk, index, PkLeaves(d.engine, scale));
    UpdateTailShape(d.engine, names, pk, index, scale);
    HeadedHasShape(d, UPDATE, Some(schema), table, SetThen(names, f), UpdateTailText(d.engine, names, pk, scale),
                   names + [pk], Counting(1, index), PkLeaves(d.engine, scale),
                   UpdateTailMark(d.engine, |names|, scale));
  }

  /** A DELETE is `DELETE FROM @.@ WHERE @=$1`: only the addressed row, whatever the names. */
  lemma DeleteHasShape(d: Dialect, schema: string, table: string, pk: string, scale: Option<nat>)
    ensures Blanked(Tokens(d, DeleteSql(d.engine, schema, table, pk, scale), 0)) ==
            "DELETE FROM " + (TableMark(Some(schema)) + WhereMark(d.engine, 1, scale))
  {
    WhereSays(d.engine, pk, 1, scale, true);
    WhereShape(d.engine, pk, 1, scale);
    HeadedHasShape(d, DELETE_FROM, Some(schema), table, WhereFragment(d.engine, pk, 1, scale),
                   WhereText(d.engine, pk, 1, scale), [pk], [1], PkLeaves(d.engine, scale),
                   WhereMark(d.engine, 1, scale));
  }

  // ---- CREATE TABLE ------------------------------------------------------------------

  /** The type names, which are the same on MySQL but for two: VARCHAR takes a length there. */
  const TYPE_NAMES := map[
    INTEGER := "INTEGER", BIGINT := "BIGINT", SMALLINT := "SMALLINT", TEXT := "TEXT", VARCHAR := "VARCHAR",
    BOOLEAN := "BOOLEAN", DATE := "DATE", TIMESTAMP := "TIMESTAMP", NUMERIC := "NUMERIC", REAL := "REAL",
    DOUBLE_PRECISION := "DOUBLE PRECISION", UUID := "UUID", JSON := "JSON"]

  function TypeMark(engine: Engine, kind: ColumnType): string
    requires kind in TYPE_NAMES
  {
    if engine == Mysql && kind == VARCHAR then "VARCHAR(255)" else TYPE_NAMES[kind]
  }

  lemma TypeIsMark(engine: Engine, kind: ColumnType)
    ensures kind in TYPE_NAMES && Ddl(engine, kind) == TypeMark(engine, kind)
  {
  }

  ghost function DefMark(engine: Engine, c: ColumnDef): string {
    TypeIsMark(engine, c.kind);
    "@" + (" " + (TypeMark(engine, c.kind) + if c.notNull then " NOT NULL" else ""))
  }

  ghost function DefMarks(engine: Engine, columns: seq<ColumnDef>): seq<string> {
    if columns == [] then [] else [DefMark(engine, columns[0])] + DefMarks(engine, columns[1..])
  }

  function KeyMarks(n: nat): seq<string> {
    if n == 0 then [] else ["PRIMARY KEY (" + (Join(Marks(n), ", ") + ")")]
  }

  lemma DefShape(engine: Engine, c: ColumnDef)
    ensures Shape(engine, DefFragment(engine, c)) == DefMark(engine, c)
  {
    var ddl, tail := Ddl(engine, c.kind), NotNullFragment(c.notNull);
    TypeIsMark(engine, c.kind);
    assert Shape(engine, Then(Literal(ddl), tail)) == ddl + NotNullText(c.notNull);
    assert Shape(engine, Then(Literal(" "), Then(Literal(ddl), tail))) == " " + (ddl + NotNullText(c.notNull));
  }

  lemma KeyShape(engine: Engine, keys: seq<string>)
    ensures Shape(engine, Commas(KeyFragments(keys))) == Join(KeyMarks(|keys|), ", ")
  {
    if keys != [] {
      var list := Commas(ColumnFragments(keys));
      ColumnsShape(engine, keys);
      assert Shape(engine, Then(list, Literal(")"))) == Shape(engine, list) + ")";
    }
  }

  lemma OneDefMoreShape(engine: Engine, f: Fragment, mark: string, fs: seq<Fragment>, marks: seq<string>)
    requires |fs| == |marks| && Shape(engine, f) == mark && Shape(engine, Commas(fs)) == Join(marks, ", ")
    ensures Shape(engine, Commas([f] + fs)) == Join([mark] + marks, ", ")
  {
    assert ([f] + fs)[1..] == fs && ([mark] + marks)[1..] == marks;
    if fs != [] {
      CommaShape(engine, f, Commas(fs));
    }
  }

  lemma {:induction false} EachDefShape(
    engine: Engine, fs: seq<Fragment>, marks: seq<string>, gs: seq<Fragment>, keyMarks: seq<string>)
    requires |fs| == |marks| && |gs| == |keyMarks|
    requires forall i | 0 <= i < |fs| :: Shape(engine, fs[i]) == marks[i]
    requires Shape(engine, Commas(gs)) == Join(keyMarks, ", ")
    ensures Shape(engine, Commas(fs + gs)) == Join(marks + keyMarks, ", ")
  {
    if fs == [] {
      assert fs + gs == gs && marks + keyMarks == keyMarks;
    } else {
      EachDefShape(engine, fs[1..], marks[1..], gs, keyMarks);
      OneDefMoreShape(engine, fs[0], marks[0], fs[1..] + gs, marks[1..] + keyMarks);
      assert fs + gs == [fs[0]] + (fs[1..] + gs) && marks + keyMarks == [marks[0]] + (marks[1..] + keyMarks);
    }
  }

  lemma {:induction false} DefMarkAt(engine: Engine, columns: seq<ColumnDef>, i: nat)
    requires i < |columns|
    ensures |DefMarks(engine, columns)| == |columns| && DefMarks(engine, columns)[i] == DefMark(engine, columns[i])
  {
    if |columns| > 1 {
      DefMarkAt(engine, columns[1..], if i == 0 then 0 else i - 1);
    }
  }

  lemma DefsShape(engine: Engine, columns: seq<ColumnDef>, keys: seq<string>)
    ensures Shape(engine, Commas(DefFragments(engine, columns) + KeyFragments(keys))) ==
            Join(DefMarks(engine, columns) + KeyMarks(|keys|), ", ")
  {
    var fs, marks := DefFragments(engine, columns), DefMarks(engine, columns);
    if columns != [] {
      DefMarkAt(engine, columns, 0);
    }
    forall i | 0 <= i < |columns| ensures Shape(engine, fs[i]) == marks[i] {
      DefMarkAt(engine, columns, i);
      DefShape(engine, columns[i]);
    }
    KeyShape(engine, keys);
    EachDefShape(engine, fs, marks, KeyFragments(keys), KeyMarks(|keys|));
  }

  ghost function BodyMark(engine: Engine, columns: seq<ColumnDef>, keys: nat): string {
    " (" + (Join(DefMarks(engine, columns) + KeyMarks(keys), ", ") + ")")
  }

  lemma BodyShape(engine: Engine, columns: seq<ColumnDef>, keys: seq<string>)
    ensures Shape(engine, BodyFragment(engine, columns, keys)) == BodyMark(engine, columns, |keys|)
  {
    var list := Commas(DefFragments(engine, columns) + KeyFragments(keys));
    DefsShape(engine, columns, keys);
    assert Shape(engine, Then(list, Literal(")"))) == Shape(engine, list) + ")";
  }

  /** A CREATE TABLE is `CREATE TABLE @ (@ INTEGER NOT NULL, PRIMARY KEY (@))`, whatever its names hold. */
  lemma CreateHasShape(
    d: Dialect, schema: Option<string>, table: string, columns: seq<ColumnDef>, keys: seq<string>)
    ensures Blanked(Tokens(d, CreateSql(d.engine, schema, table, columns, keys), 0)) ==
            "CREATE TABLE " + (TableMark(schema) + BodyMark(d.engine, columns, |keys|))
  {
    TableBodySays(d.engine, columns, keys);
    BodyShape(d.engine, columns, keys);
    HeadedHasShape(d, CREATE_TABLE, schema, table, BodyFragment(d.engine, columns, keys),
                   BodyText(d.engine, columns, keys), ColumnNames(columns) + keys, [], false,
                   BodyMark(d.engine, columns, |keys|));
  }

  // ---- The page query ----------------------------------------------------------------

  function OrderMark(n: nat): string {
    if n == 0 then "" else " ORDER BY " + Join(Marks(n), ", ")
  }

  lemma OrderShape(engine: Engine, order: seq<string>)
    ensures Shape(engine, TableRows.OrderFragment(order)) == OrderMark(|order|)
  {
    if order != [] {
      ColumnsShape(engine, order);
    }
  }

  function LimitMark(pageSize: nat, offset: nat): string {
    " LIMIT " + (Decimal(pageSize) + (" OFFSET " + Decimal(offset)))
  }

  lemma LimitShape(engine: Engine, pageSize: nat, offset: nat)
    ensures Shape(engine, TableRows.LimitFragment(pageSize, offset)) == LimitMark(pageSize, offset)
  {
    var a, b := TableRows.DigitsText(pageSize), TableRows.DigitsText(offset);
    assert Shape(engine, Then(Literal(" OFFSET "), Literal(b))) == " OFFSET " + b;
    assert Shape(engine, Then(Literal(a), Then(Literal(" OFFSET "), Literal(b)))) == a + (" OFFSET " + b);
  }

  lemma FromShape(engine: Engine, t: Schema.TableInfo, pageSize: nat, offset: nat)
    ensures Shape(engine, TableRows.FromFragment(t, TableRows.OrderColumns(engine, t), pageSize, offset)) ==
            " FROM " + ("@.@"
            + (OrderMark(|TableRows.OrderColumns(engine, t)|) + LimitMark(pageSize, offset)))
  {
    var order := TableRows.OrderColumns(engine, t);
    var tail := Then(TableRows.OrderFragment(order), TableRows.LimitFragment(pageSize, offset));
    OrderShape(engine, order);
    LimitShape(engine, pageSize, offset);
    assert Shape(engine, tail) == OrderMark(|order|) + LimitMark(pageSize, offset);
    HeadedShape(engine, " FROM ", Some(t.schema), t.name, tail);
  }

  /** A column list between SELECT and a tail whose own shape is known. */
  lemma ListedShape(
    d: Dialect, columns: seq<string>, from: Fragment, text: string, names: seq<string>, mark: string)
    requires Says(d.engine, from, columns != [], text, names, [], false) && Shape(d.engine, from) == mark
    ensures Blanked(Tokens(d, "SELECT " + (Join(QuoteAll(d.engine, columns), ", ") + text), 0)) ==
            "SELECT " + (Join(Marks(|columns|), ", ") + mark)
  {
    var list := Commas(ColumnFragments(columns));
    TableRows.SelectSays(d.engine, columns, from, text, names, false);
    SaidHasShape(d, Then(Literal("SELECT "), Then(list, from)),
                 "SELECT " + (Join(QuoteAll(d.engine, columns), ", ") + text), columns + names, [], false);
    ColumnsShape(d.engine, columns);
    assert Shape(d.engine, Then(list, from)) == Shape(d.engine, list) + mark;
  }

  /** The page query is `SELECT @, @ FROM @.@ ORDER BY @ LIMIT n OFFSET m`, whatever the names hold. */
  lemma SelectHasShape(d: Dialect, t: Schema.TableInfo, pageSize: nat, offset: nat)
    ensures Blanked(Tokens(d, TableRows.SelectSql(d.engine, t, pageSize, offset), 0)) ==
            "SELECT " + (Join(Marks(|t.columns|), ", ") + (" FROM " + ("@.@"
            + (OrderMark(|TableRows.OrderColumns(d.engine, t)|) + LimitMark(pageSize, offset)))))
  {
    var columns, order := Schema.NamesOf(t.columns), TableRows.OrderColumns(d.engine, t);
    var from := TableRows.FromFragment(t, order, pageSize, offset);
    var text := TableRows.FromText(d.engine, t, pageSize, offset);
    TableRows.FromSays(d.engine, t, pageSize, offset, columns != []);
    FromShape(d.engine, t, pageSize, offset);
    ListedShape(d, columns, from, text, [t.schema, t.name] + order,
                " FROM " + ("@.@" + (OrderMark(|order|) + LimitMark(pageSize, offset))));
  }

  /** The total's query is `SELECT COUNT(*) AS total FROM @.@`, whatever the names hold. */
  lemma CountHasShape(d: Dialect, t: Schema.TableInfo)
    ensures Blanked(Tokens(d, TableRows.CountSql(d.engine, t), 0)) == "SELECT COUNT(*) AS total FROM @.@"
  {
    TableRows.CountIsFixed();
    var keyword: FixedText := "SELECT COUNT(*) AS total FROM ";
    var table := Qualified(d.engine, Some(t.schema), t.name);
    assert Says(d.engine, Nothing, true, "", [], [], true);
    HeadedHasShape(d, keyword, Some(t.schema), t.name, Nothing, "", [], [], true, "");
    assert table + "" == table;
    assert keyword + (TableMark(Some(t.schema)) + "") == "SELECT COUNT(*) AS total FROM @.@";
  }
}
