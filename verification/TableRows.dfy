/** Planning one page of a table: checks, page arithmetic, row order and the composed text. */
module TableRows {
  import opened Schema
  import opened Text
  import opened SqlScanner
  import opened SqlSpans
  import opened SqlFragments
  import opened SqlComposer

  const DEFAULT_PAGE_SIZE: nat := 100
  const MAX_PAGE_SIZE: nat := 200
  const MAX_SAFE_INTEGER: nat := 0x1F_FFFF_FFFF_FFFF
  const PHYSICAL_ROW_LOCATOR := "ctid"

  /** A request field: left out, of the wrong shape, or a value. */
  datatype Field<T> = Absent | Malformed | Given(value: T)

  /** A number that is not an integer counts as malformed. */
  datatype Request = Request(
    table: Field<string>, schema: Field<string>, page: Field<int>, pageSize: Field<int>)

  datatype Refusal = BadRequest | NotFound | Ambiguous | OutOfRange

  datatype Plan = Plan(
    selectSql: string, countSql: string, page: nat, pageSize: nat, offset: nat, columns: seq<Column>)

  datatype Result = Refused(why: Refusal) | Planned(plan: Plan)

  // ---- The checks --------------------------------------------------------------------

  predicate GoodName(f: Field<string>) {
    f.Given? && Trim(f.value) != ""
  }

  predicate PositiveOrAbsent(f: Field<int>) {
    f.Absent? || (f.Given? && f.value >= 1)
  }

  predicate WellFormed(r: Request) {
    && GoodName(r.table)
    && (r.schema.Absent? || GoodName(r.schema))
    && PositiveOrAbsent(r.page)
    && PositiveOrAbsent(r.pageSize)
  }

  lemma NonNegative(a: nat, b: nat)
    ensures a * b >= 0
  {
  }

  function PageOf(r: Request): (page: nat)
    requires WellFormed(r)
    ensures page >= 1
  {
    if r.page.Given? then r.page.value else 1
  }

  function SizeOf(r: Request): (size: nat)
    requires WellFormed(r)
  {
    if r.pageSize.Given? then (if r.pageSize.value < MAX_PAGE_SIZE then r.pageSize.value else MAX_PAGE_SIZE)
    else DEFAULT_PAGE_SIZE
  }

  function OffsetOf(r: Request): (offset: nat)
    requires WellFormed(r)
  {
    NonNegative(PageOf(r) - 1, SizeOf(r));
    (PageOf(r) - 1) * SizeOf(r)
  }

  predicate Named(t: TableInfo, r: Request) {
    r.table == Given(t.name) && (r.schema.Absent? || r.schema == Given(t.schema))
  }

  function Matches(tables: seq<TableInfo>, r: Request): (found: seq<TableInfo>)
    ensures forall t :: t in found <==> t in tables && Named(t, r)
  {
    if tables == [] then []
    else (if Named(tables[0], r) then [tables[0]] else []) + Matches(tables[1..], r)
  }

  // ---- Row order ---------------------------------------------------------------------

  const POSTGRES_ORDERABLE: set<string> := {
    "smallint", "integer", "bigint", "numeric", "decimal", "real", "double precision", "money",
    "boolean", "character", "character varying", "text", "uuid", "date",
    "timestamp without time zone", "timestamp with time zone", "time without time zone",
    "time with time zone", "interval", "bytea", "inet", "cidr", "macaddr", "macaddr8", "bit",
    "bit varying", "jsonb", "oid", "name"}

  const MYSQL_ORDERABLE: set<string> := {
    "tinyint", "smallint", "mediumint", "int", "integer", "bigint", "decimal", "numeric", "float",
    "double", "real", "bit", "char", "varchar", "binary", "varbinary", "tinytext", "text",
    "mediumtext", "longtext", "enum", "set", "date", "datetime", "timestamp", "time", "year",
    "json", "tinyblob", "blob", "mediumblob", "longblob"}

  predicate Orderable(engine: Engine, c: Column) {
    Canonical(c.dataType) in if engine.Postgres? then POSTGRES_ORDERABLE else MYSQL_ORDERABLE
  }

  function OrderableNames(engine: Engine, columns: seq<Column>): (r: seq<string>)
    ensures forall n :: n in r ==> exists c :: c in columns && c.name == n && Orderable(engine, c)
    ensures forall c :: c in columns && Orderable(engine, c) ==> c.name in r
  {
    if columns == [] then []
    else (if Orderable(engine, columns[0]) then [columns[0].name] else []) + OrderableNames(engine, columns[1..])
  }

  function OrderColumns(engine: Engine, t: TableInfo): seq<string> {
    if |t.primaryKey| > 0 then t.primaryKey
    else if engine.Postgres? && t.kind == Some(Table) then [PHYSICAL_ROW_LOCATOR]
    else OrderableNames(engine, t.columns)
  }

  // ---- The text ----------------------------------------------------------------------

  function OrderText(engine: Engine, order: seq<string>): string {
    if order == [] then "" else " ORDER BY " + Join(QuoteAll(engine, order), ", ")
  }

  function LimitText(pageSize: nat, offset: nat): string {
    " LIMIT " + (Decimal(pageSize) + (" OFFSET " + Decimal(offset)))
  }

  function FromText(engine: Engine, t: TableInfo, pageSize: nat, offset: nat): string {
    " FROM " + (Qualified(engine, Some(t.schema), t.name)
    + (OrderText(engine, OrderColumns(engine, t)) + LimitText(pageSize, offset)))
  }

  function SelectSql(engine: Engine, t: TableInfo, pageSize: nat, offset: nat): string {
    "SELECT " + (Join(QuoteAll(engine, NamesOf(t.columns)), ", ") + FromText(engine, t, pageSize, offset))
  }

  function CountSql(engine: Engine, t: TableInfo): string {
    "SELECT COUNT(*) AS total FROM " + Qualified(engine, Some(t.schema), t.name)
  }

  /** Which page of which table, before any text is composed. */
  datatype Decision = No(why: Refusal) | Page(t: TableInfo, page: nat, pageSize: nat, offset: nat)

  function Decide(tables: seq<TableInfo>, r: Request): Decision {
    if !WellFormed(r) then No(BadRequest)
    else
      var matches := Matches(tables, r);
      if |matches| == 0 then No(NotFound)
      else if |matches| > 1 then No(Ambiguous)
      else if OffsetOf(r) > MAX_SAFE_INTEGER then No(OutOfRange)
      else Page(matches[0], PageOf(r), SizeOf(r), OffsetOf(r))
  }

  function PlanTableRows(engine: Engine, tables: seq<TableInfo>, r: Request): Result {
    match Decide(tables, r)
    case No(why) => Refused(why)
    case Page(t, page, size, offset) =>
      Planned(Plan(SelectSql(engine, t, size, offset), CountSql(engine, t), page, size, offset, t.columns))
  }

  // ---- The text scans back -----------------------------------------------------------

  function OrderFragment(order: seq<string>): Fragment {
    if order == [] then Nothing else Then(Literal(" ORDER BY "), Commas(ColumnFragments(order)))
  }

  function DigitsText(n: nat): FixedText {
    Decimal(n)
  }

  function LimitFragment(pageSize: nat, offset: nat): Fragment {
    Then(Literal(" LIMIT "), Then(Literal(DigitsText(pageSize)),
    Then(Literal(" OFFSET "), Literal(DigitsText(offset)))))
  }

  lemma LimitSays(engine: Engine, pageSize: nat, offset: nat, open: bool)
    ensures Says(engine, LimitFragment(pageSize, offset), open, LimitText(pageSize, offset), [], [], false)
  {
    var a, b := DigitsText(pageSize), DigitsText(offset);
    LiteralThen(engine, " OFFSET ", Literal(b), false, b, [], [], false);
    LiteralThen(engine, a, Then(Literal(" OFFSET "), Literal(b)), false, " OFFSET " + b, [], [], false);
    LiteralThen(engine, " LIMIT ", Then(Literal(a), Then(Literal(" OFFSET "), Literal(b))), open,
                a + (" OFFSET " + b), [], [], false);
  }

  lemma OrderSays(engine: Engine, order: seq<string>)
    ensures Says(engine, OrderFragment(order), true, OrderText(engine, order), order, [], true)
  {
    if order != [] {
      ColumnsSay(engine, order);
      LiteralThen(engine, " ORDER BY ", Commas(ColumnFragments(order)), true,
                  Join(QuoteAll(engine, order), ", "), order, [], true);
    }
  }

  lemma TailSays(engine: Engine, order: seq<string>, pageSize: nat, offset: nat)
    ensures Says(engine, Then(OrderFragment(order), LimitFragment(pageSize, offset)), true,
                 OrderText(engine, order) + LimitText(pageSize, offset), order, [], false)
  {
    OrderSays(engine, order);
    LimitSays(engine, pageSize, offset, true);
    OneThen(engine, OrderFragment(order), true, OrderText(engine, order), order, [], true,
            LimitFragment(pageSize, offset), LimitText(pageSize, offset), [], [], false);
  }

  function FromFragment(t: TableInfo, order: seq<string>, pageSize: nat, offset: nat): Fragment {
    Headed(" FROM ", Some(t.schema), t.name, Then(OrderFragment(order), LimitFragment(pageSize, offset)))
  }

  lemma FromSays(engine: Engine, t: TableInfo, pageSize: nat, offset: nat, open: bool)
    ensures Says(engine, FromFragment(t, OrderColumns(engine, t), pageSize, offset), open,
                 FromText(engine, t, pageSize, offset),
                 [t.schema, t.name] + OrderColumns(engine, t), [], false)
  {
    var order := OrderColumns(engine, t);
    TailSays(engine, order, pageSize, offset);
    HeadedSays(engine, " FROM ", open, Some(t.schema), t.name,
               Then(OrderFragment(order), LimitFragment(pageSize, offset)),
               OrderText(engine, order) + LimitText(pageSize, offset), order, [], false);
  }

  lemma SelectSays(
    engine: Engine, columns: seq<string>, f: Fragment, text: string, names: seq<string>, leaves: bool)
    requires Says(engine, f, columns != [], text, names, [], leaves)
    ensures Says(engine, Then(Literal("SELECT "), Then(Commas(ColumnFragments(columns)), f)), false,
                 "SELECT " + (Join(QuoteAll(engine, columns), ", ") + text), columns + names, [], leaves)
  {
    var list, listed := Commas(ColumnFragments(columns)), Join(QuoteAll(engine, columns), ", ");
    ColumnsSay(engine, columns);
    OneThen(engine, list, false, listed, columns, [], columns != [], f, text, names, [], leaves);
    LiteralThen(engine, "SELECT ", Then(list, f), false, listed + text, columns + names, [], leaves);
  }

  lemma SelectedScansBack(
    d: Dialect, columns: seq<string>, f: Fragment, text: string, names: seq<string>, leaves: bool)
    requires Says(d.engine, f, columns != [], text, names, [], leaves)
    ensures ScansBackTo(d, "SELECT " + (Join(QuoteAll(d.engine, columns), ", ") + text), columns + names, 0)
  {
    SelectSays(d.engine, columns, f, text, names, leaves);
    FragmentScansBack(d, Then(Literal("SELECT "), Then(Commas(ColumnFragments(columns)), f)), 0);
  }

  /** The page query is one statement about the table, its columns and the order columns. */
  lemma SelectScansBack(d: Dialect, t: TableInfo, pageSize: nat, offset: nat)
    ensures |NamesOf(t.columns)| == |t.columns|
    ensures forall k | 0 <= k < |t.columns| :: NamesOf(t.columns)[k] == t.columns[k].name
    ensures ScansBackTo(d, SelectSql(d.engine, t, pageSize, offset),
                        NamesOf(t.columns) + ([t.schema, t.name] + OrderColumns(d.engine, t)), 0)
  {
    var columns := NamesOf(t.columns);
    var from := FromFragment(t, OrderColumns(d.engine, t), pageSize, offset);
    FromSays(d.engine, t, pageSize, offset, columns != []);
    SelectedScansBack(d, columns, from, FromText(d.engine, t, pageSize, offset),
                      [t.schema, t.name] + OrderColumns(d.engine, t), false);
  }

  lemma TableOnlyScansBack(d: Dialect, keyword: FixedText, t: TableInfo)
    requires IsWordStart(keyword[0])
    ensures ScansBackTo(d, keyword + Qualified(d.engine, Some(t.schema), t.name), [t.schema, t.name], 0)
  {
    var text := Qualified(d.engine, Some(t.schema), t.name);
    HeadedScansBack(d, keyword, Some(t.schema), t.name, Nothing, "", [], 0, true);
    assert text + "" == text;
    assert TableNames(Some(t.schema), t.name) + [] == [t.schema, t.name];
  }

  lemma CountIsFixed()
    ensures Fixed("SELECT COUNT(*) AS total FROM ")
  {
  }

  lemma CountScansBack(d: Dialect, t: TableInfo)
    ensures ScansBackTo(d, CountSql(d.engine, t), [t.schema, t.name], 0)
  {
    CountIsFixed();
    TableOnlyScansBack(d, "SELECT COUNT(*) AS total FROM ", t);
  }

  /** A page is planned exactly for a well-formed request, one matching table and a safe offset. */
  lemma PlannedExactly(engine: Engine, tables: seq<TableInfo>, r: Request)
    ensures var result := PlanTableRows(engine, tables, r);
            && (result.Planned? <==>
                WellFormed(r) && (exists t :: Matches(tables, r) == [t]) && OffsetOf(r) <= MAX_SAFE_INTEGER)
            && (result.Planned? ==>
                && result.plan.page == PageOf(r)
                && 1 <= result.plan.pageSize == SizeOf(r) <= MAX_PAGE_SIZE
                && result.plan.offset == OffsetOf(r) <= MAX_SAFE_INTEGER)
  {
    if WellFormed(r) && |Matches(tables, r)| == 1 {
      assert Matches(tables, r) == [Matches(tables, r)[0]];
    }
  }

  /** Both texts of a planned page are one statement each, about the one table that matches. */
  lemma PlannedScansBack(d: Dialect, tables: seq<TableInfo>, r: Request)
    requires PlanTableRows(d.engine, tables, r).Planned?
    ensures var p, t := PlanTableRows(d.engine, tables, r).plan, Matches(tables, r)[0];
            && t in tables && Named(t, r) && p.columns == t.columns
            && ScansBackTo(d, p.selectSql,
                 NamesOf(t.columns) + ([t.schema, t.name] + OrderColumns(d.engine, t)), 0)
            && ScansBackTo(d, p.countSql, [t.schema, t.name], 0)
  {
    var t := Matches(tables, r)[0];
    assert t in Matches(tables, r);
    SelectScansBack(d, t, SizeOf(r), OffsetOf(r));
    CountScansBack(d, t);
  }

  // ---- The decision, written out -------------------------------------------------------

  predicate NamesSomething(f: Field<string>) {
    f.Given? && exists k | 0 <= k < |f.value| :: !IsBlank(f.value[k])
  }

  predicate AtLeastOne(f: Field<int>) {
    f.Given? && f.value >= 1
  }

  predicate Proper(r: Request) {
    && NamesSomething(r.table) && (r.schema == Absent || NamesSomething(r.schema))
    && (r.page == Absent || AtLeastOne(r.page)) && (r.pageSize == Absent || AtLeastOne(r.pageSize))
  }

  /** The table has the name asked for, and the schema where one is asked for. */
  predicate Asked(t: TableInfo, r: Request) {
    r.table.Given? && t.name == r.table.value && (r.schema.Given? ==> t.schema == r.schema.value)
  }

  /** The page, the size and the offset: page 1 of 100 rows unless asked otherwise, at most 200. */
  predicate Paged(r: Request, page: int, size: int, offset: int) {
    && page == (if r.page.Given? then r.page.value else 1)
    && size == (if r.pageSize.Given? then (if r.pageSize.value > 200 then 200 else r.pageSize.value) else 100)
    && offset == (page - 1) * size
  }

  lemma NamesAreChecked(s: string)
    ensures Trim(s) != "" <==> exists k | 0 <= k < |s| :: !IsBlank(s[k])
  {
    var a, b := TrimmedExactly(s);
    assert Trim(s) != "" ==> s[|a|] == Trim(s)[0];
  }

  lemma ProperIsWellFormed(r: Request)
    ensures Proper(r) <==> WellFormed(r)
  {
    if r.table.Given? {
      NamesAreChecked(r.table.value);
    }
    if r.schema.Given? {
      NamesAreChecked(r.schema.value);
    }
  }

  predicate NoneAskedFor(tables: seq<TableInfo>, r: Request) {
    forall k | 0 <= k < |tables| :: !Asked(tables[k], r)
  }

  predicate OnlyAskedFor(tables: seq<TableInfo>, r: Request, i: nat) {
    i < |tables| && forall k | 0 <= k < |tables| :: Asked(tables[k], r) <==> k == i
  }

  predicate TwoAskedFor(tables: seq<TableInfo>, r: Request) {
    exists i, k | 0 <= i < k < |tables| :: Asked(tables[i], r) && Asked(tables[k], r)
  }

  lemma AskedIsNamed(t: TableInfo, r: Request)
    requires Proper(r)
    ensures Asked(t, r) <==> Named(t, r)
  {
  }

  lemma {:induction false} NoneMatches(tables: seq<TableInfo>, r: Request)
    requires Proper(r) && NoneAskedFor(tables, r)
    ensures Matches(tables, r) == []
  {
    if tables != [] {
      AskedIsNamed(tables[0], r);
      NoneMatches(tables[1..], r);
    }
  }

  lemma {:induction false} OneMatches(tables: seq<TableInfo>, r: Request, i: nat)
    requires Proper(r) && OnlyAskedFor(tables, r, i)
    ensures Matches(tables, r) == [tables[i]]
  {
    AskedIsNamed(tables[0], r);
    if i == 0 {
      NoneMatches(tables[1..], r);
    } else {
      OneMatches(tables[1..], r, i - 1);
    }
  }

  lemma SomeMatches(tables: seq<TableInfo>, r: Request, k: nat)
    requires Proper(r) && k < |tables| && Asked(tables[k], r)
    ensures |Matches(tables, r)| >= 1
  {
    AskedIsNamed(tables[k], r);
    assert tables[k] in Matches(tables, r);
  }

  lemma {:induction false} TwoMatch(tables: seq<TableInfo>, r: Request, i: nat, k: nat)
    requires Proper(r) && i < k < |tables| && Asked(tables[i], r) && Asked(tables[k], r)
    ensures |Matches(tables, r)| >= 2
  {
    AskedIsNamed(tables[0], r);
    if i == 0 {
      SomeMatches(tables[1..], r, k - 1);
    } else {
      TwoMatch(tables[1..], r, i - 1, k - 1);
    }
  }

  lemma ZeroOneOrTwo(tables: seq<TableInfo>, r: Request) returns (i: nat)
    ensures NoneAskedFor(tables, r) || OnlyAskedFor(tables, r, i) || TwoAskedFor(tables, r)
  {
    if NoneAskedFor(tables, r) {
      i := 0;
    } else {
      i :| 0 <= i < |tables| && Asked(tables[i], r);
    }
  }

  lemma MatchesCounted(tables: seq<TableInfo>, r: Request)
    requires Proper(r)
    ensures |Matches(tables, r)| == 0 <==> NoneAskedFor(tables, r)
    ensures |Matches(tables, r)| > 1 <==> TwoAskedFor(tables, r)
    ensures forall i: nat :: OnlyAskedFor(tables, r, i) ==> Matches(tables, r) == [tables[i]]
  {
    var i := ZeroOneOrTwo(tables, r);
    if NoneAskedFor(tables, r) {
      NoneMatches(tables, r);
    } else if TwoAskedFor(tables, r) {
      var a, b :| 0 <= a < b < |tables| && Asked(tables[a], r) && Asked(tables[b], r);
      TwoMatch(tables, r, a, b);
    }
    forall k: nat | OnlyAskedFor(tables, r, k) ensures Matches(tables, r) == [tables[k]] {
      OneMatches(tables, r, k);
    }
  }

  lemma PagedIsDecided(r: Request)
    requires Proper(r) && WellFormed(r)
    ensures Paged(r, PageOf(r), SizeOf(r), OffsetOf(r))
  {
  }

  /**
   A request is refused when it is malformed, when no table or more than one is asked for, and
   when the offset is beyond what the host language counts exactly; otherwise it gets its page.
   */
  lemma PageDecided(engine: Engine, tables: seq<TableInfo>, r: Request)
    ensures var result := PlanTableRows(engine, tables, r);
            && (!Proper(r) <==> result == Refused(BadRequest))
            && (Proper(r) ==>
                && (NoneAskedFor(tables, r) <==> result == Refused(NotFound))
                && (TwoAskedFor(tables, r) <==> result == Refused(Ambiguous))
                && forall i: nat, page, size, offset: nat ::
                     OnlyAskedFor(tables, r, i) && Paged(r, page, size, offset) ==>
                     if offset > 9007199254740991 then result == Refused(OutOfRange)
                     else result == Planned(Plan(SelectSql(engine, tables[i], size, offset), CountSql(engine, tables[i]),
                                                 page, size, offset, tables[i].columns)))
  {
    ProperIsWellFormed(r);
    if Proper(r) {
      MatchesCounted(tables, r);
      PagedIsDecided(r);
    }
  }

  // ---- The order, written out ----------------------------------------------------------

  predicate PostgresNumber(t: string) {
    || t == "smallint" || t == "integer" || t == "bigint" || t == "numeric" || t == "decimal" || t == "real"
    || t == "double precision" || t == "money" || t == "oid"
  }

  predicate PostgresText(t: string) {
    || t == "character" || t == "character varying" || t == "text" || t == "name" || t == "uuid" || t == "bytea"
    || t == "bit" || t == "bit varying" || t == "jsonb" || t == "boolean"
  }

  predicate PostgresMoment(t: string) {
    || t == "date" || t == "interval" || t == "timestamp without time zone" || t == "timestamp with time zone"
    || t == "time without time zone" || t == "time with time zone"
  }

  predicate PostgresAddress(t: string) {
    t == "inet" || t == "cidr" || t == "macaddr" || t == "macaddr8"
  }

  predicate MysqlNumber(t: string) {
    || t == "tinyint" || t == "smallint" || t == "mediumint" || t == "int" || t == "integer" || t == "bigint"
    || t == "decimal" || t == "numeric" || t == "float" || t == "double" || t == "real" || t == "bit"
  }

  predicate MysqlText(t: string) {
    || t == "char" || t == "varchar" || t == "tinytext" || t == "text" || t == "mediumtext" || t == "longtext"
    || t == "enum" || t == "set" || t == "json"
  }

  predicate MysqlBytes(t: string) {
    || t == "binary" || t == "varbinary" || t == "tinyblob" || t == "blob" || t == "mediumblob" || t == "longblob"
  }

  predicate MysqlMoment(t: string) {
    t == "date" || t == "datetime" || t == "timestamp" || t == "time" || t == "year"
  }

  predicate PostgresOrders(t: string) {
    PostgresNumber(t) || PostgresText(t) || PostgresMoment(t) || PostgresAddress(t)
  }

  predicate MysqlOrders(t: string) {
    MysqlNumber(t) || MysqlText(t) || MysqlBytes(t) || MysqlMoment(t)
  }

  /** The type, blanks and case aside, is one that the engine orders by default. */
  predicate HasOrder(engine: Engine, dataType: string) {
    if engine == Postgres then PostgresOrders(Trim(Lower(dataType))) else MysqlOrders(Trim(Lower(dataType)))
  }

  lemma PostgresTypes(t: string)
    ensures t in POSTGRES_ORDERABLE <==> PostgresOrders(t)
  {
  }

  lemma MysqlTypes(t: string)
    ensures t in MYSQL_ORDERABLE <==> MysqlOrders(t)
  {
  }

  lemma OrderableHasOrder(engine: Engine, c: Column)
    ensures Orderable(engine, c) <==> HasOrder(engine, c.dataType)
  {
    PostgresTypes(Canonical(c.dataType));
    MysqlTypes(Canonical(c.dataType));
  }

  /** The places, from `from` on, of the columns with such a type, in their order. */
  predicate OrderedPlaces(engine: Engine, columns: seq<Column>, from: nat, places: seq<nat>) {
    && (forall i, j | 0 <= i < j < |places| :: places[i] < places[j])
    && (forall i | 0 <= i < |places| :: from <= places[i] < |columns|)
    && forall k | from <= k < |columns| :: k in places <==> HasOrder(engine, columns[k].dataType)
  }

  predicate NamedAt(names: seq<string>, columns: seq<Column>, places: seq<nat>) {
    && |names| == |places|
    && forall i | 0 <= i < |places| :: places[i] < |columns| && names[i] == columns[places[i]].name
  }

  lemma OnePlaceMore(engine: Engine, columns: seq<Column>, from: nat, rest: seq<nat>, places: seq<nat>)
    requires from < |columns| && OrderedPlaces(engine, columns, from + 1, rest)
    requires places == (if HasOrder(engine, columns[from].dataType) then [from] else []) + rest
    ensures OrderedPlaces(engine, columns, from, places)
  {
    forall k | from <= k < |columns| ensures k in places <==> HasOrder(engine, columns[k].dataType) {
      if k > from {
        assert k in places <==> k in rest;
      } else {
        assert k !in rest;
      }
    }
  }

  lemma NamesFrom(engine: Engine, columns: seq<Column>, from: nat)
    requires from < |columns|
    ensures OrderableNames(engine, columns[from..]) ==
            (if HasOrder(engine, columns[from].dataType) then [columns[from].name] else [])
            + OrderableNames(engine, columns[from + 1..])
  {
    OrderableHasOrder(engine, columns[from]);
    NamesStep(engine, columns[from..]);
    assert columns[from..][1..] == columns[from + 1..];
  }

  lemma NamesStep(engine: Engine, columns: seq<Column>)
    requires columns != []
    ensures OrderableNames(engine, columns) ==
            (if Orderable(engine, columns[0]) then [columns[0].name] else []) + OrderableNames(engine, columns[1..])
  {
  }

  lemma NamedOnceMore(names: seq<string>, columns: seq<Column>, from: nat, places: seq<nat>)
    requires from < |columns| && NamedAt(names, columns, places)
    ensures NamedAt([columns[from].name] + names, columns, [from] + places)
  {
  }

  lemma {:induction false} OrderablePlaces(engine: Engine, columns: seq<Column>, from: nat) returns (places: seq<nat>)
    requires from <= |columns|
    ensures OrderedPlaces(engine, columns, from, places)
    ensures NamedAt(OrderableNames(engine, columns[from..]), columns, places)
    decreases |columns| - from
  {
    if from == |columns| {
      places := [];
    } else {
      var rest := OrderablePlaces(engine, columns, from + 1);
      NamesFrom(engine, columns, from);
      places := (if HasOrder(engine, columns[from].dataType) then [from] else []) + rest;
      OnePlaceMore(engine, columns, from, rest, places);
      NamedOnceMore(OrderableNames(engine, columns[from + 1..]), columns, from, rest);
    }
  }

  /**
   A keyed table is ordered by its whole key; a stored Postgres table without one by its row
   locator; anything else by all columns whose type has an order, in their order.
   */
  lemma OrderDecided(engine: Engine, t: TableInfo) returns (places: seq<nat>)
    ensures t.primaryKey != [] ==> OrderColumns(engine, t) == t.primaryKey
    ensures t.primaryKey == [] && engine == Postgres && t.kind == Some(Table) ==> OrderColumns(engine, t) == ["ctid"]
    ensures t.primaryKey == [] && !(engine == Postgres && t.kind == Some(Table)) ==>
            OrderedPlaces(engine, t.columns, 0, places) && NamedAt(OrderColumns(engine, t), t.columns, places)
  {
    places := OrderablePlaces(engine, t.columns, 0);
    assert t.columns[0..] == t.columns;
  }

  /** A keyless page is ordered only by columns the engine can order, or by the row locator. */
  lemma NeverOrdersByTheUnorderable(engine: Engine, t: TableInfo, name: string)
    requires name in OrderColumns(engine, t)
    ensures || name in t.primaryKey
            || (name == PHYSICAL_ROW_LOCATOR && engine.Postgres? && t.kind == Some(Table))
            || exists c :: c in t.columns && c.name == name && Orderable(engine, c)
  {
  }

  // ---- Page tiling -------------------------------------------------------------------

  /** What LIMIT and OFFSET select from the ordered rows. */
  function Slice<T>(rows: seq<T>, pageSize: nat, offset: nat): seq<T> {
    rows[Min(offset, |rows|)..Min(offset + pageSize, |rows|)]
  }

  /** Where page `k + 1` begins among so many rows. */
  function CutAt(k: nat, size: nat, rows: nat): (cut: nat)
    ensures cut <= rows
  {
    NonNegative(k, size);
    Min(k * size, rows)
  }

  lemma CutsGrow(k: nat, size: nat, rows: nat)
    ensures k * size >= 0 && CutAt(k, size, rows) <= CutAt(k + 1, size, rows) == Min(k * size + size, rows)
  {
    NonNegative(k, size);
    assert (k + 1) * size == k * size + size;
  }

  function OnPage(r: Request, page: nat): Request {
    r.(page := Given(page))
  }

  /** Page `k` is granted, with this size, right after the `k - 1` pages before it. */
  predicate PageIs(tables: seq<TableInfo>, r: Request, k: nat, size: nat) {
    var d := Decide(tables, OnPage(r, k));
    k >= 1 && d.Page? && d.page == k && d.pageSize == size && d.offset == (k - 1) * size
  }

  lemma PlannedIsPage(engine: Engine, tables: seq<TableInfo>, r: Request, k: nat)
    requires PlanTableRows(engine, tables, OnPage(r, k)).Planned?
    ensures PageIs(tables, r, k, PlanTableRows(engine, tables, OnPage(r, k)).plan.pageSize)
  {
  }

  lemma {:induction false} SameMatches(tables: seq<TableInfo>, a: Request, b: Request)
    requires a.table == b.table && a.schema == b.schema
    ensures Matches(tables, a) == Matches(tables, b)
  {
    if tables != [] {
      SameMatches(tables[1..], a, b);
    }
  }

  lemma ProductGrows(a: nat, b: nat, c: nat)
    requires a <= b
    ensures a * c <= b * c
  {
  }

  lemma SameShape(r: Request, k: nat, n: nat)
    requires k >= 1 && WellFormed(OnPage(r, n))
    ensures WellFormed(OnPage(r, k)) && SizeOf(OnPage(r, k)) == SizeOf(OnPage(r, n))
  {
  }

  lemma EarlierIsPage(tables: seq<TableInfo>, r: Request, k: nat, n: nat, size: nat)
    requires 1 <= k <= n && PageIs(tables, r, n, size)
    ensures PageIs(tables, r, k, size)
  {
    SameShape(r, k, n);
    SameMatches(tables, OnPage(r, k), OnPage(r, n));
    ProductGrows(k - 1, n - 1, size);
  }

  /** The planner grants every page before one it grants, with the same size, right after the last. */
  lemma EarlierPage(engine: Engine, tables: seq<TableInfo>, r: Request, k: nat, n: nat)
    requires 1 <= k <= n && PlanTableRows(engine, tables, OnPage(r, n)).Planned?
    ensures var earlier := PlanTableRows(engine, tables, OnPage(r, k));
            var later := PlanTableRows(engine, tables, OnPage(r, n)).plan;
            && earlier.Planned? && earlier.plan.page == k
            && earlier.plan.pageSize == later.pageSize
            && earlier.plan.offset == (k - 1) * later.pageSize
  {
    PlannedIsPage(engine, tables, r, n);
    EarlierIsPage(tables, r, k, n, PlanTableRows(engine, tables, OnPage(r, n)).plan.pageSize);
  }

  /** The rows a page shows, none when it is refused. */
  function PageRows<T>(engine: Engine, tables: seq<TableInfo>, r: Request, rows: seq<T>, k: nat): seq<T> {
    var result := PlanTableRows(engine, tables, OnPage(r, k));
    if result.Planned? then Slice(rows, result.plan.pageSize, result.plan.offset) else []
  }

  /** Pages 1 to `k`, one after the other. */
  function FirstPages<T>(engine: Engine, tables: seq<TableInfo>, r: Request, rows: seq<T>, k: nat): seq<T> {
    if k == 0 then []
    else FirstPages(engine, tables, r, rows, k - 1) + PageRows(engine, tables, r, rows, k)
  }

  lemma PageShows<T>(
    engine: Engine, tables: seq<TableInfo>, r: Request, rows: seq<T>, k: nat, size: nat, offset: nat)
    requires PageIs(tables, r, k, size) && offset == (k - 1) * size
    ensures PageRows(engine, tables, r, rows, k) == Slice(rows, size, offset)
  {
  }

  lemma PageIsAPiece<T>(
    engine: Engine, tables: seq<TableInfo>, r: Request, rows: seq<T>, k: nat, size: nat)
    requires PageIs(tables, r, k + 1, size)
    ensures CutAt(k, size, |rows|) <= CutAt(k + 1, size, |rows|)
    ensures PageRows(engine, tables, r, rows, k + 1) == rows[CutAt(k, size, |rows|)..CutAt(k + 1, size, |rows|)]
  {
    CutsGrow(k, size, |rows|);
    PageShows(engine, tables, r, rows, k + 1, size, k * size);
  }

  lemma PiecesJoin<T>(rows: seq<T>, x: seq<T>, y: seq<T>, a: nat, b: nat)
    requires a <= b <= |rows| && x == rows[..a] && y == rows[a..b]
    ensures x + y == rows[..b]
  {
  }

  lemma OneMorePage<T>(
    engine: Engine, tables: seq<TableInfo>, r: Request, rows: seq<T>, k: nat, size: nat, before: seq<T>)
    requires PageIs(tables, r, k + 1, size) && before == rows[..CutAt(k, size, |rows|)]
    ensures before + PageRows(engine, tables, r, rows, k + 1) == rows[..CutAt(k + 1, size, |rows|)]
  {
    PageIsAPiece(engine, tables, r, rows, k, size);
    PiecesJoin(rows, before, PageRows(engine, tables, r, rows, k + 1),
               CutAt(k, size, |rows|), CutAt(k + 1, size, |rows|));
  }

  lemma {:induction false} GrantedPagesTile<T>(
    engine: Engine, tables: seq<TableInfo>, r: Request, rows: seq<T>, k: nat, size: nat)
    requires k > 0 ==> PageIs(tables, r, k, size)
    ensures FirstPages(engine, tables, r, rows, k) == rows[..CutAt(k, size, |rows|)]
  {
    if k > 0 {
      if k > 1 {
        EarlierIsPage(tables, r, k - 1, k, size);
      }
      GrantedPagesTile(engine, tables, r, rows, k - 1, size);
      OneMorePage(engine, tables, r, rows, k - 1, size, FirstPages(engine, tables, r, rows, k - 1));
    }
  }

  /**
   When the planner grants page k, the pages 1 to k it grants, in a fixed order of the rows,
   are exactly the rows up to the end of page k: none twice, none left out.
   */
  lemma PagesTile<T>(engine: Engine, tables: seq<TableInfo>, r: Request, rows: seq<T>, k: nat)
    requires PlanTableRows(engine, tables, OnPage(r, k)).Planned?
    ensures var size := PlanTableRows(engine, tables, OnPage(r, k)).plan.pageSize;
            FirstPages(engine, tables, r, rows, k) == rows[..CutAt(k, size, |rows|)]
  {
    PlannedIsPage(engine, tables, r, k);
    GrantedPagesTile(engine, tables, r, rows, k, PlanTableRows(engine, tables, OnPage(r, k)).plan.pageSize);
  }

  /** Once the pages granted reach the last row they are all the rows. */
  lemma PagesAreAllRows<T>(engine: Engine, tables: seq<TableInfo>, r: Request, rows: seq<T>, k: nat)
    requires PlanTableRows(engine, tables, OnPage(r, k)).Planned?
    requires |rows| <= k * PlanTableRows(engine, tables, OnPage(r, k)).plan.pageSize
    ensures FirstPages(engine, tables, r, rows, k) == rows
  {
    PagesTile(engine, tables, r, rows, k);
  }
}
