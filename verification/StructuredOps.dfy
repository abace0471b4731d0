/** The structured INSERT, UPDATE and DELETE: which statement is composed, and what is bound. */
module StructuredOps {
  import opened Schema
  import opened Text
  import opened SqlScanner
  import opened SqlFragments
  import opened SqlComposer

  /** A bound value: a number is carried as its digits. */
  datatype Value = Null | Plain(text: string)

  datatype ColumnValue = ColumnValue(column: string, value: Value)

  /** The addressed row; `exactNumeric` is the caller's unverified hint. */
  datatype Pk = Pk(column: string, value: Value, exactNumeric: bool)

  datatype Plan =
    | Bad
    | Confirm(sql: string)
    | Run(sql: string, params: seq<Value>)

  const MYSQL_DECIMAL_MAX_SCALE: nat := 30

  const EXACT_NUMERIC_TYPES: set<string> := {"bigint", "int8", "numeric", "decimal"}

  // ---- The key cast ------------------------------------------------------------------

  function Stringified(v: Value): string {
    match v
    case Null => "null"
    case Plain(text) => text
  }

  function IndexOfDot(s: string): (r: Option<nat>)
    ensures r.Some? ==> r.value < |s| && s[r.value] == '.' && '.' !in s[..r.value]
    ensures r.None? ==> '.' !in s
  {
    if s == "" then None
    else if s[0] == '.' then Some(0)
    else
      match IndexOfDot(s[1..])
      case None => None
      case Some(k) => Some(k + 1)
  }

  function Unsigned(s: string): string {
    if s != "" && (s[0] == '+' || s[0] == '-') then s[1..] else s
  }

  /** `^[+-]?(?:\d+(?:\.\d+)?|\.\d+)$` */
  predicate ExactLiteral(s: string) {
    var u := Unsigned(s);
    match IndexOfDot(u)
    case None => u != "" && AllDigits(u)
    case Some(k) => AllDigits(u[..k]) && AllDigits(u[k + 1..]) && k + 1 < |u|
  }

  function FractionDigits(s: string): nat {
    match IndexOfDot(s)
    case None => 0
    case Some(k) => |s| - k - 1
  }

  predicate IsExactNumeric(dataType: string) {
    Canonical(dataType) in EXACT_NUMERIC_TYPES
  }

  datatype Cast = NoCast | Scale(digits: nat) | Inexact

  function FindColumn(columns: seq<Column>, name: string): Option<Column> {
    if columns == [] then None
    else if columns[0].name == name then Some(columns[0])
    else FindColumn(columns[1..], name)
  }

  function PkCast(t: TableInfo, pk: Pk): Cast {
    if !pk.exactNumeric then NoCast
    else
      var column := FindColumn(t.columns, pk.column);
      if column.None? || !IsExactNumeric(column.value.dataType) then NoCast
      else if !ExactLiteral(Stringified(pk.value)) then Inexact
      else Scale(Min(FractionDigits(Stringified(pk.value)), MYSQL_DECIMAL_MAX_SCALE))
  }

  // ---- The operations ----------------------------------------------------------------

  function Columns(cols: seq<ColumnValue>): seq<string> {
    seq(|cols|, i requires 0 <= i < |cols| => cols[i].column)
  }

  function Values(cols: seq<ColumnValue>): seq<Value> {
    seq(|cols|, i requires 0 <= i < |cols| => cols[i].value)
  }

  predicate Addressed(t: TableInfo, schema: Option<string>, table: string) {
    t.name == table && (schema.Some? ==> t.schema == schema.value)
  }

  function Matches(tables: seq<TableInfo>, schema: Option<string>, table: string): (r: seq<TableInfo>)
    ensures forall t :: t in r <==> t in tables && Addressed(t, schema, table)
  {
    if tables == [] then []
    else (if Addressed(tables[0], schema, table) then [tables[0]] else []) + Matches(tables[1..], schema, table)
  }

  /** The one table addressed, if its primary key is exactly the given column. */
  function SinglePkTable(
    tables: seq<TableInfo>, schema: Option<string>, table: string, pkColumn: string): Option<TableInfo>
  {
    var matches := Matches(tables, schema, table);
    if |matches| == 0 then None
    else if |matches| > 1 then None
    else if |matches[0].primaryKey| != 1 || matches[0].primaryKey[0] != pkColumn then None
    else Some(matches[0])
  }

  function CastScale(cast: Cast): Option<nat> {
    if cast.Scale? then Some(cast.digits) else None
  }

  function Insert(engine: Engine, schema: Option<string>, table: string, cols: seq<ColumnValue>): Plan {
    if cols == [] then Bad
    else Run(InsertSql(engine, schema, table, Columns(cols)), Values(cols))
  }

  function Update(
    engine: Engine, tables: seq<TableInfo>, schema: Option<string>, table: string,
    cols: seq<ColumnValue>, pk: Pk): Plan
  {
    if cols == [] then Bad
    else
      var target := SinglePkTable(tables, schema, table, pk.column);
      if target.None? then Bad
      else
        var t, cast := target.value, PkCast(target.value, pk);
        if cast.Inexact? then Bad
        else Run(UpdateSql(engine, t.schema, t.name, Columns(cols), pk.column, CastScale(cast)),
                 Values(cols) + [pk.value])
  }

  function Delete(
    engine: Engine, tables: seq<TableInfo>, schema: Option<string>, table: string,
    pk: Pk, confirmed: bool): Plan
  {
    var target := SinglePkTable(tables, schema, table, pk.column);
    if target.None? then Bad
    else
      var t, cast := target.value, PkCast(target.value, pk);
      if cast.Inexact? then Bad
      else
        var sql := DeleteSql(engine, t.schema, t.name, pk.column, CastScale(cast));
        if confirmed then Run(sql, [pk.value]) else Confirm(sql)
  }

  // ---- What they guarantee -----------------------------------------------------------

  /**
   One statement, naming just these identifiers, whose placeholders take parameters 1 to
   n in order, where n is the number of values bound.
   */
  predicate BindsInOrder(d: Dialect, plan: Plan, names: seq<string>, params: seq<Value>)
    requires plan.Run?
  {
    plan.params == params && ScansBackTo(d, plan.sql, names, |params|)
  }

  /** Each column's name and value, in the order given. */
  predicate EachInPlace(cols: seq<ColumnValue>, names: seq<string>, values: seq<Value>) {
    && |names| == |cols| && |values| == |cols|
    && forall k | 0 <= k < |cols| :: cols[k] == ColumnValue(names[k], values[k])
  }

  lemma InsertBinds(d: Dialect, schema: Option<string>, table: string, cols: seq<ColumnValue>)
    ensures var r := Insert(d.engine, schema, table, cols);
            && (r == Bad <==> cols == [])
            && (cols != [] ==>
                && r.Run? && EachInPlace(cols, Columns(cols), r.params)
                && r.sql == InsertSql(d.engine, schema, table, Columns(cols))
                && BindsInOrder(d, r, TableNames(schema, table) + Columns(cols), r.params))
  {
    InsertScansBack(d, schema, table, Columns(cols));
  }

  // ---- Which table, and which cast ----------------------------------------------------

  /** The table at `i` has the name, and the schema where one was given; no other does. */
  predicate OnlyOneNamed(tables: seq<TableInfo>, schema: Option<string>, table: string, i: nat) {
    && i < |tables|
    && forall k | 0 <= k < |tables| ::
         tables[k].name == table && (schema.Some? ==> tables[k].schema == schema.value) <==> k == i
  }

  /** `t` is the one table named, and the column is its whole primary key. */
  ghost predicate IsTarget(tables: seq<TableInfo>, schema: Option<string>, table: string, column: string, t: TableInfo) {
    && t.primaryKey == [column]
    && exists i: nat :: OnlyOneNamed(tables, schema, table, i) && t == tables[i]
  }

  lemma {:induction false} NoneMatches(tables: seq<TableInfo>, schema: Option<string>, table: string)
    requires forall k | 0 <= k < |tables| :: !Addressed(tables[k], schema, table)
    ensures Matches(tables, schema, table) == []
  {
    if tables != [] {
      NoneMatches(tables[1..], schema, table);
    }
  }

  lemma {:induction false} OneMatches(tables: seq<TableInfo>, schema: Option<string>, table: string, i: nat)
    requires OnlyOneNamed(tables, schema, table, i)
    ensures Matches(tables, schema, table) == [tables[i]]
  {
    if i == 0 {
      NoneMatches(tables[1..], schema, table);
    } else {
      OneMatches(tables[1..], schema, table, i - 1);
    }
  }

  lemma {:induction false} TheMatch(tables: seq<TableInfo>, schema: Option<string>, table: string) returns (i: nat)
    requires |Matches(tables, schema, table)| == 1
    ensures OnlyOneNamed(tables, schema, table, i)
  {
    var rest := tables[1..];
    if Addressed(tables[0], schema, table) {
      i := 0;
      forall k | 0 < k < |tables| ensures !Addressed(tables[k], schema, table) {
        assert tables[k] == rest[k - 1];
        assert tables[k] !in Matches(rest, schema, table);
      }
    } else {
      var at := TheMatch(rest, schema, table);
      i := at + 1;
      forall k | 0 <= k < |tables| ensures Addressed(tables[k], schema, table) <==> k == i {
        assert k > 0 ==> tables[k] == rest[k - 1];
      }
    }
  }

  /** A table is resolved exactly when it is the one named and the column is its whole key. */
  lemma TargetIsTheOneAddressed(tables: seq<TableInfo>, schema: Option<string>, table: string, column: string, t: TableInfo)
    ensures SinglePkTable(tables, schema, table, column) == Some(t) <==> IsTarget(tables, schema, table, column, t)
  {
    if SinglePkTable(tables, schema, table, column) == Some(t) {
      var i := TheMatch(tables, schema, table);
      OneMatches(tables, schema, table, i);
    }
    if IsTarget(tables, schema, table, column, t) {
      var i: nat :| OnlyOneNamed(tables, schema, table, i) && t == tables[i];
      OneMatches(tables, schema, table, i);
    }
  }

  /** The first column of that name has one of the four exact types, blanks and case aside. */
  predicate HasExactType(columns: seq<Column>, name: string) {
    exists i | 0 <= i < |columns| ::
      && columns[i].name == name
      && (forall k | 0 <= k < i :: columns[k].name != name)
      && Trim(Lower(columns[i].dataType)) in ["bigint", "int8", "numeric", "decimal"]
  }

  /** The value is text that spells a number with so many fraction digits; a null spells none. */
  ghost predicate SpelledWith(v: Value, places: nat) {
    v.Plain? && exists sign, whole, fraction :: Spells(v.text, sign, whole, fraction) && places == |fraction|
  }

  ghost predicate Spelled(v: Value) {
    exists places :: SpelledWith(v, places)
  }

  lemma {:induction false} FoundFirst(columns: seq<Column>, name: string)
    ensures match FindColumn(columns, name)
            case None => forall k | 0 <= k < |columns| :: columns[k].name != name
            case Some(c) => exists i | 0 <= i < |columns| :: columns[i] == c && c.name == name
                                                            && forall k | 0 <= k < i :: columns[k].name != name
  {
    if columns != [] && columns[0].name != name {
      var rest := columns[1..];
      FoundFirst(rest, name);
      assert forall k | 0 < k < |columns| :: columns[k] == rest[k - 1];
      if FindColumn(rest, name).Some? {
        var i :| 0 <= i < |rest| && rest[i] == FindColumn(rest, name).value && forall k | 0 <= k < i :: rest[k].name != name;
        assert columns[i + 1] == rest[i];
      }
    }
  }

  lemma ExactColumn(t: TableInfo, name: string)
    ensures HasExactType(t.columns, name) <==>
            FindColumn(t.columns, name).Some? && IsExactNumeric(FindColumn(t.columns, name).value.dataType)
  {
    FoundFirst(t.columns, name);
  }

  lemma SpelledExactly(v: Value)
    ensures Spelled(v) <==> ExactLiteral(Stringified(v))
    ensures forall places :: SpelledWith(v, places) ==> places == FractionDigits(Stringified(v))
    ensures Spelled(v) ==> SpelledWith(v, FractionDigits(Stringified(v)))
  {
    if v.Null? {
      assert Unsigned("null") == "null";
      DotShift("null", "");
    } else {
      if ExactLiteral(v.text) {
        var sign, whole, fraction := AcceptedSpells(v.text);
        assert SpelledWith(v, |fraction|);
      }
      forall sign, whole, fraction | Spells(v.text, sign, whole, fraction)
        ensures ExactLiteral(v.text) && FractionDigits(v.text) == |fraction|
      {
        SpelledIsAccepted(v.text, sign, whole, fraction);
      }
    }
  }

  /**
   The key is cast exactly when the caller says it is exact and its column has an exact type;
   then it must spell a number, and the scale is its number of fraction digits up to thirty.
   */
  lemma CastIsDecided(t: TableInfo, pk: Pk)
    ensures var exact := pk.exactNumeric && HasExactType(t.columns, pk.column);
            && (PkCast(t, pk).NoCast? <==> !exact)
            && (PkCast(t, pk).Inexact? <==> exact && !Spelled(pk.value))
            && (PkCast(t, pk).Scale? ==>
                exists places: nat :: SpelledWith(pk.value, places)
                  && PkCast(t, pk).digits == if places < 30 then places else 30)
  {
    ExactColumn(t, pk.column);
    SpelledExactly(pk.value);
  }

  /** One row of one table: the table is the target, and a key cast exactly spells a number. */
  ghost predicate AddressesOneRow(tables: seq<TableInfo>, schema: Option<string>, table: string, pk: Pk, t: TableInfo) {
    && IsTarget(tables, schema, table, pk.column, t)
    && (pk.exactNumeric && HasExactType(t.columns, pk.column) ==> Spelled(pk.value))
  }

  /** The cast the text carries: none, or the scale of the key's literal up to thirty. */
  ghost predicate CastAs(t: TableInfo, pk: Pk, scale: Option<nat>) {
    && (scale.Some? <==> pk.exactNumeric && HasExactType(t.columns, pk.column))
    && (scale.Some? ==>
        exists places: nat :: SpelledWith(pk.value, places)
          && scale.value == if places < 30 then places else 30)
  }

  lemma Resolved(tables: seq<TableInfo>, schema: Option<string>, table: string, pk: Pk)
    ensures var target := SinglePkTable(tables, schema, table, pk.column);
            && (target.Some? && !PkCast(target.value, pk).Inexact? ==>
                && AddressesOneRow(tables, schema, table, pk, target.value)
                && CastAs(target.value, pk, CastScale(PkCast(target.value, pk))))
            && forall t :: AddressesOneRow(tables, schema, table, pk, t) ==>
                           target == Some(t) && !PkCast(t, pk).Inexact?
  {
    var target := SinglePkTable(tables, schema, table, pk.column);
    if target.Some? {
      TargetIsTheOneAddressed(tables, schema, table, pk.column, target.value);
      CastIsDecided(target.value, pk);
    }
    forall t | AddressesOneRow(tables, schema, table, pk, t) ensures target == Some(t) && !PkCast(t, pk).Inexact? {
      TargetIsTheOneAddressed(tables, schema, table, pk.column, t);
      CastIsDecided(t, pk);
    }
  }

  /** An UPDATE runs exactly when it has columns and addresses one row of one table. */
  lemma UpdateRuns(
    engine: Engine, tables: seq<TableInfo>, schema: Option<string>, table: string, cols: seq<ColumnValue>, pk: Pk)
    ensures var r := Update(engine, tables, schema, table, cols, pk);
            && (r.Run? || r.Bad?)
            && (r.Run? <==> cols != [] && exists t :: AddressesOneRow(tables, schema, table, pk, t))
  {
    Resolved(tables, schema, table, pk);
  }

  /** It names that table, the columns and the key column, and binds the key value last. */
  lemma UpdateBinds(
    d: Dialect, tables: seq<TableInfo>, schema: Option<string>, table: string, cols: seq<ColumnValue>, pk: Pk)
    ensures var r := Update(d.engine, tables, schema, table, cols, pk);
            && EachInPlace(cols, Columns(cols), Values(cols))
            && (r.Run? ==> exists t, scale ::
                 && AddressesOneRow(tables, schema, table, pk, t) && CastAs(t, pk, scale)
                 && r.sql == UpdateSql(d.engine, t.schema, t.name, Columns(cols), pk.column, scale)
                 && BindsInOrder(d, r, [t.schema, t.name] + (Columns(cols) + [pk.column]), Values(cols) + [pk.value]))
  {
    Resolved(tables, schema, table, pk);
    if Update(d.engine, tables, schema, table, cols, pk).Run? {
      var t := SinglePkTable(tables, schema, table, pk.column).value;
      var scale := CastScale(PkCast(t, pk));
      assert AddressesOneRow(tables, schema, table, pk, t) && CastAs(t, pk, scale);
      UpdateScansBack(d, t.schema, t.name, Columns(cols), pk.column, scale);
      assert TableNames(Some(t.schema), t.name) == [t.schema, t.name];
    }
  }

  /** A DELETE runs only when confirmed, and shows for confirmation the very text it would run. */
  lemma DeleteBinds(
    d: Dialect, tables: seq<TableInfo>, schema: Option<string>, table: string, pk: Pk)
    ensures var r, asked := Delete(d.engine, tables, schema, table, pk, true),
                            Delete(d.engine, tables, schema, table, pk, false);
            && (r.Run? <==> exists t :: AddressesOneRow(tables, schema, table, pk, t))
            && (r.Run? || r.Bad?) && !asked.Run? && (asked.Confirm? <==> r.Run?)
            && (r.Run? ==> asked.sql == r.sql)
            && (r.Run? ==> exists t, scale ::
                 && AddressesOneRow(tables, schema, table, pk, t) && CastAs(t, pk, scale)
                 && r.sql == DeleteSql(d.engine, t.schema, t.name, pk.column, scale)
                 && BindsInOrder(d, r, [t.schema, t.name] + [pk.column], [pk.value]))
  {
    Resolved(tables, schema, table, pk);
    var target := SinglePkTable(tables, schema, table, pk.column);
    if target.Some? && !PkCast(target.value, pk).Inexact? {
      var t, scale := target.value, CastScale(PkCast(target.value, pk));
      assert AddressesOneRow(tables, schema, table, pk, t) && CastAs(t, pk, scale);
      DeleteScansBack(d, t.schema, t.name, pk.column, scale);
      assert TableNames(Some(t.schema), t.name) == [t.schema, t.name];
    }
  }

  /** The SQL text of a plan, run or shown. */
  function TextOf(plan: Plan): Option<string> {
    match plan
    case Run(sql, _) => Some(sql)
    case Confirm(sql) => Some(sql)
    case Bad => None
  }

  /** The two keys name one column, and the resolved table casts them alike. */
  predicate SameCast(tables: seq<TableInfo>, schema: Option<string>, table: string, pk: Pk, other: Pk) {
    var target := SinglePkTable(tables, schema, table, pk.column);
    pk.column == other.column && (target.Some? ==> PkCast(target.value, pk) == PkCast(target.value, other))
  }

  /**
   No value is ever spliced into the text: it is the same whatever values are bound. The key's
   value is seen in the text, and in whether there is one, only through its cast.
   */
  lemma ValuesStayOutOfText(
    engine: Engine, tables: seq<TableInfo>, schema: Option<string>, table: string,
    a: seq<ColumnValue>, b: seq<ColumnValue>, pk: Pk, other: Pk, confirmed: bool)
    requires Columns(a) == Columns(b) && SameCast(tables, schema, table, pk, other)
    ensures TextOf(Insert(engine, schema, table, a)) == TextOf(Insert(engine, schema, table, b))
    ensures TextOf(Update(engine, tables, schema, table, a, pk)) == TextOf(Update(engine, tables, schema, table, b, other))
    ensures TextOf(Delete(engine, tables, schema, table, pk, confirmed)) ==
            TextOf(Delete(engine, tables, schema, table, other, confirmed))
  {
    assert |Columns(a)| == |a| && |Columns(b)| == |b|;
  }

  // ---- The scale of the cast ---------------------------------------------------------

  function Point(fraction: string): string {
    if fraction == "" then "" else "." + fraction
  }

  /** A sign or nothing, whole digits, and a fraction or nothing. */
  predicate Spells(s: string, sign: string, whole: string, fraction: string) {
    && (sign == "" || sign == "+" || sign == "-")
    && AllDigits(whole) && AllDigits(fraction) && whole + fraction != ""
    && s == sign + (whole + Point(fraction))
  }

  lemma UnsignedOf(s: string) returns (sign: string)
    ensures sign == "" || sign == "+" || sign == "-"
    ensures s == sign + Unsigned(s)
  {
    sign := if s != "" && (s[0] == '+' || s[0] == '-') then s[..1] else "";
  }

  lemma {:induction false} DotShift(a: string, b: string)
    requires '.' !in a
    ensures IndexOfDot(a + b) ==
            match IndexOfDot(b) case None => None case Some(k) => Some(|a| + k)
  {
    if a == "" {
      assert a + b == b;
    } else {
      assert (a + b)[1..] == a[1..] + b;
      DotShift(a[1..], b);
    }
  }

  lemma MantissaParts(u: string) returns (whole: string, fraction: string)
    requires match IndexOfDot(u)
             case None => u != "" && AllDigits(u)
             case Some(k) => AllDigits(u[..k]) && AllDigits(u[k + 1..]) && k + 1 < |u|
    ensures AllDigits(whole) && AllDigits(fraction) && whole + fraction != ""
    ensures u == whole + Point(fraction) && FractionDigits(u) == |fraction|
  {
    match IndexOfDot(u)
    case None =>
      whole, fraction := u, "";
    case Some(k) =>
      whole, fraction := u[..k], u[k + 1..];
  }

  /** Every literal accepted spells a number, and the scale is its number of fraction digits. */
  lemma AcceptedSpells(s: string) returns (sign: string, whole: string, fraction: string)
    requires ExactLiteral(s)
    ensures Spells(s, sign, whole, fraction) && FractionDigits(s) == |fraction|
  {
    sign := UnsignedOf(s);
    DotShift(sign, Unsigned(s));
    whole, fraction := MantissaParts(Unsigned(s));
  }

  lemma UnsignedTail(sign: string, tail: string)
    requires sign == "" || sign == "+" || sign == "-"
    requires tail != "" && tail[0] != '+' && tail[0] != '-'
    ensures Unsigned(sign + tail) == tail
  {
    if sign == "" {
      assert sign + tail == tail;
    } else {
      assert (sign + tail)[1..] == tail;
    }
  }

  lemma {:induction false} DigitsHaveNoDot(digits: string)
    requires AllDigits(digits)
    ensures IndexOfDot(digits) == None
  {
    if digits != "" {
      DigitsHaveNoDot(digits[1..]);
    }
  }

  lemma DotAfterWhole(whole: string, fraction: string)
    requires AllDigits(whole) && fraction != ""
    ensures var u := whole + ("." + fraction);
            IndexOfDot(u) == Some(|whole|) && u[..|whole|] == whole && u[|whole| + 1..] == fraction
  {
    DotShift(whole, "." + fraction);
  }

  /** And every spelling of a number is accepted, with that scale. */
  lemma SpelledIsAccepted(s: string, sign: string, whole: string, fraction: string)
    requires Spells(s, sign, whole, fraction)
    ensures ExactLiteral(s) && FractionDigits(s) == |fraction|
  {
    var u := whole + Point(fraction);
    UnsignedTail(sign, u);
    DotShift(sign, u);
    if fraction == "" {
      assert u == whole;
      DigitsHaveNoDot(whole);
    } else {
      DotAfterWhole(whole, fraction);
    }
  }
}
