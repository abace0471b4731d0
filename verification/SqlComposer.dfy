/** The INSERT, UPDATE and DELETE text of the structured operations. */
module SqlComposer {
  import opened Text
  import opened SqlScanner
  import opened SqlTokens
  import opened SqlFragments

  // ---- The text ----------------------------------------------------------------------

  function PkPlaceholder(engine: Engine, index: nat, scale: Option<nat>): string {
    if engine.Mysql? && scale.Some? then
      "CAST(" + (Placeholder(engine, index) + (" AS DECIMAL(65," + Decimal(scale.value) + "))"))
    else Placeholder(engine, index)
  }

  function Qualified(engine: Engine, schema: Option<string>, table: string): string {
    if schema.Some? then QuoteIdent(engine, schema.value) + ("." + QuoteIdent(engine, table))
    else QuoteIdent(engine, table)
  }

  /** `n` placeholders, the first numbered `from`. */
  function Placeholders(engine: Engine, from: nat, n: nat): seq<string>
    decreases n
  {
    if n == 0 then [] else [Placeholder(engine, from)] + Placeholders(engine, from + 1, n - 1)
  }

  function Assignment(engine: Engine, name: string, index: nat): string {
    QuoteIdent(engine, name) + ("=" + Placeholder(engine, index))
  }

  function Assignments(engine: Engine, names: seq<string>, from: nat): seq<string> {
    if names == [] then []
    else [Assignment(engine, names[0], from)] + Assignments(engine, names[1..], from + 1)
  }

  const INSERT_INTO: FixedText := "INSERT INTO "
  const UPDATE: FixedText := "UPDATE "
  const DELETE_FROM: FixedText := "DELETE FROM "

  function InsertTailText(engine: Engine, names: seq<string>): string {
    " (" + (Join(QuoteAll(engine, names), ", ") + ValuesText(engine, |names|))
  }

  function InsertSql(engine: Engine, schema: Option<string>, table: string, names: seq<string>): string {
    INSERT_INTO + (Qualified(engine, schema, table) + InsertTailText(engine, names))
  }

  function ValuesText(engine: Engine, n: nat): string {
    ") VALUES (" + (Join(Placeholders(engine, 1, n), ", ") + ")")
  }

  function WhereText(engine: Engine, pk: string, index: nat, scale: Option<nat>): string {
    " WHERE " + (QuoteIdent(engine, pk) + ("=" + PkPlaceholder(engine, index, scale)))
  }

  function UpdateTailText(engine: Engine, names: seq<string>, pk: string, scale: Option<nat>): string {
    " SET " + (Join(Assignments(engine, names, 1), ", ") + WhereText(engine, pk, |names| + 1, scale))
  }

  function UpdateSql(
    engine: Engine, schema: string, table: string, names: seq<string>, pk: string, scale: Option<nat>): string
  {
    UPDATE + (Qualified(engine, Some(schema), table) + UpdateTailText(engine, names, pk, scale))
  }

  function DeleteSql(engine: Engine, schema: string, table: string, pk: string, scale: Option<nat>): string {
    DELETE_FROM + (Qualified(engine, Some(schema), table) + WhereText(engine, pk, 1, scale))
  }

  // ---- The same, as fragments --------------------------------------------------------

  function TableNames(schema: Option<string>, table: string): seq<string> {
    if schema.Some? then [schema.value, table] else [table]
  }

  function TableFragment(schema: Option<string>, table: string): Fragment {
    if schema.Some? then Then(Ident(schema.value), Then(Literal("."), Ident(table))) else Ident(table)
  }

  /** What a fragment comes to, where the text is open before it or not. */
  predicate Says(
    engine: Engine, f: Fragment, open: bool, text: string, names: seq<string>, indexes: seq<nat>, leaves: bool)
  {
    && Spaced(f, open) && Leaves(f, open) == leaves
    && Render(engine, f) == text && Names(f) == names && Indexes(f) == indexes
  }

  lemma LiteralThen(
    engine: Engine, text: FixedText, f: Fragment, open: bool,
    rest: string, names: seq<string>, indexes: seq<nat>, leaves: bool)
    requires open ==> Separates(text)
    requires Says(engine, f, false, rest, names, indexes, leaves)
    ensures Says(engine, Then(Literal(text), f), open, text + rest, names, indexes, leaves)
  {
  }

  lemma IdentThen(
    engine: Engine, name: string, f: Fragment, rest: string, names: seq<string>, indexes: seq<nat>, leaves: bool)
    requires Says(engine, f, true, rest, names, indexes, leaves)
    ensures Says(engine, Then(Ident(name), f), false, QuoteIdent(engine, name) + rest,
                 [name] + names, indexes, leaves)
  {
  }

  lemma OneThen(
    engine: Engine, a: Fragment, open: bool, ta: string, na: seq<string>, ia: seq<nat>, la: bool,
    b: Fragment, tb: string, nb: seq<string>, ib: seq<nat>, lb: bool)
    requires Says(engine, a, open, ta, na, ia, la) && Says(engine, b, la, tb, nb, ib, lb)
    ensures Says(engine, Then(a, b), open, ta + tb, na + nb, ia + ib, lb)
  {
  }

  lemma TableSays(engine: Engine, schema: Option<string>, table: string)
    ensures Says(engine, TableFragment(schema, table), false, Qualified(engine, schema, table),
                 TableNames(schema, table), [], true)
  {
    if schema.Some? {
      LiteralThen(engine, ".", Ident(table), true, QuoteIdent(engine, table), [table], [], true);
      IdentThen(engine, schema.value, Then(Literal("."), Ident(table)), "." + QuoteIdent(engine, table),
                [table], [], true);
    }
  }

  /** A keyword, the table, and what comes after. */
  function Headed(keyword: FixedText, schema: Option<string>, table: string, f: Fragment): Fragment {
    Then(Literal(keyword), Then(TableFragment(schema, table), f))
  }

  lemma HeadedSays(
    engine: Engine, keyword: FixedText, open: bool, schema: Option<string>, table: string,
    f: Fragment, text: string, names: seq<string>, indexes: seq<nat>, leaves: bool)
    requires open ==> Separates(keyword)
    requires Says(engine, f, true, text, names, indexes, leaves)
    ensures Says(engine, Headed(keyword, schema, table, f), open,
                 keyword + (Qualified(engine, schema, table) + text),
                 TableNames(schema, table) + names, indexes, leaves)
  {
    var q := Qualified(engine, schema, table);
    TableSays(engine, schema, table);
    OneThen(engine, TableFragment(schema, table), false, q, TableNames(schema, table), [], true,
            f, text, names, indexes, leaves);
    LiteralThen(engine, keyword, Then(TableFragment(schema, table), f), open, q + text,
                TableNames(schema, table) + names, indexes, leaves);
  }

  lemma HeadedScansBack(
    d: Dialect, keyword: FixedText, schema: Option<string>, table: string,
    f: Fragment, text: string, names: seq<string>, n: nat, leaves: bool)
    requires IsWordStart(keyword[0]) && Says(d.engine, f, true, text, names, Counting(1, n), leaves)
    ensures ScansBackTo(d, keyword + (Qualified(d.engine, schema, table) + text),
                        TableNames(schema, table) + names, n)
  {
    HeadedSays(d.engine, keyword, false, schema, table, f, text, names, Counting(1, n), leaves);
    FragmentScansBack(d, Headed(keyword, schema, table, f), n);
  }

  /** Fragments with a comma between each two. */
  function Commas(fs: seq<Fragment>): Fragment {
    if |fs| == 0 then Nothing
    else if |fs| == 1 then fs[0]
    else Then(fs[0], Then(Literal(", "), Commas(fs[1..])))
  }

  lemma CommaThen(
    engine: Engine, a: Fragment, ta: string, na: seq<string>, ia: seq<nat>,
    b: Fragment, tb: string, nb: seq<string>, ib: seq<nat>, leaves: bool)
    requires Says(engine, a, false, ta, na, ia, true) && Says(engine, b, false, tb, nb, ib, leaves)
    ensures Says(engine, Then(a, Then(Literal(", "), b)), false, ta + (", " + tb), na + nb, ia + ib, leaves)
  {
    LiteralThen(engine, ", ", b, true, tb, nb, ib, leaves);
    OneThen(engine, a, false, ta, na, ia, true, Then(Literal(", "), b), ", " + tb, nb, ib, leaves);
  }

  function ColumnFragments(names: seq<string>): seq<Fragment> {
    if names == [] then [] else [Ident(names[0])] + ColumnFragments(names[1..])
  }

  lemma {:induction false} ColumnsSay(engine: Engine, names: seq<string>)
    ensures |ColumnFragments(names)| == |QuoteAll(engine, names)| == |names|
    ensures Says(engine, Commas(ColumnFragments(names)), false, Join(QuoteAll(engine, names), ", "),
                 names, [], names != [])
  {
    if names != [] {
      var rest, text := Commas(ColumnFragments(names[1..])), Join(QuoteAll(engine, names[1..]), ", ");
      ColumnsSay(engine, names[1..]);
      assert ColumnFragments(names)[1..] == ColumnFragments(names[1..]);
      assert QuoteAll(engine, names)[1..] == QuoteAll(engine, names[1..]);
      if |names| > 1 {
        CommaThen(engine, Ident(names[0]), QuoteIdent(engine, names[0]), [names[0]], [],
                  rest, text, names[1..], [], true);
      }
    }
  }

  function ParamFragments(from: nat, n: nat): seq<Fragment>
    decreases n
  {
    if n == 0 then [] else [Param(from)] + ParamFragments(from + 1, n - 1)
  }

  lemma {:induction false} ParamsSay(engine: Engine, from: nat, n: nat)
    ensures |ParamFragments(from, n)| == |Placeholders(engine, from, n)| == n
    ensures Says(engine, Commas(ParamFragments(from, n)), false, Join(Placeholders(engine, from, n), ", "),
                 [], Counting(from, n), n > 0)
    decreases n
  {
    if n > 0 {
      var rest, text := Commas(ParamFragments(from + 1, n - 1)), Join(Placeholders(engine, from + 1, n - 1), ", ");
      ParamsSay(engine, from + 1, n - 1);
      assert ParamFragments(from, n)[1..] == ParamFragments(from + 1, n - 1);
      assert Placeholders(engine, from, n)[1..] == Placeholders(engine, from + 1, n - 1);
      if n > 1 {
        CommaThen(engine, Param(from), Placeholder(engine, from), [], [from],
                  rest, text, [], Counting(from + 1, n - 1), true);
      }
    }
  }

  function AssignmentFragment(name: string, index: nat): Fragment {
    Then(Ident(name), Then(Literal("="), Param(index)))
  }

  function AssignmentFragments(names: seq<string>, from: nat): seq<Fragment> {
    if names == [] then []
    else [AssignmentFragment(names[0], from)] + AssignmentFragments(names[1..], from + 1)
  }

  lemma AssignmentSays(engine: Engine, name: string, index: nat)
    ensures Says(engine, AssignmentFragment(name, index), false, Assignment(engine, name, index),
                 [name], [index], true)
  {
    LiteralThen(engine, "=", Param(index), true, Placeholder(engine, index), [], [index], true);
    IdentThen(engine, name, Then(Literal("="), Param(index)), "=" + Placeholder(engine, index), [], [index], true);
  }

  lemma {:induction false} AssignmentsSay(engine: Engine, names: seq<string>, from: nat)
    ensures |AssignmentFragments(names, from)| == |Assignments(engine, names, from)| == |names|
    ensures Says(engine, Commas(AssignmentFragments(names, from)), false,
                 Join(Assignments(engine, names, from), ", "), names, Counting(from, |names|), names != [])
  {
    if names != [] {
      AssignmentSays(engine, names[0], from);
      AssignmentsSay(engine, names[1..], from + 1);
      if |names| > 1 {
        CommaThen(engine, AssignmentFragment(names[0], from), Assignment(engine, names[0], from),
                  [names[0]], [from],
                  Commas(AssignmentFragments(names[1..], from + 1)),
                  Join(Assignments(engine, names[1..], from + 1), ", "),
                  names[1..], Counting(from + 1, |names| - 1), true);
      }
      assert AssignmentFragments(names, from)[1..] == AssignmentFragments(names[1..], from + 1);
      assert Assignments(engine, names, from)[1..] == Assignments(engine, names[1..], from + 1);
    }
  }

  lemma CastTailIsFixed(digits: string)
    requires AllDigits(digits)
    ensures Fixed(" AS DECIMAL(65," + digits + "))")
  {
    var tail := " AS DECIMAL(65," + digits + "))";
    forall k | 0 <= k < |tail| ensures IsInert(tail[k]) && tail[k] != ';' && tail[k] != '?' {
      if 15 <= k < 15 + |digits| {
        assert tail[k] == digits[k - 15];
      }
    }
  }

  function CastTail(scale: nat): FixedText {
    CastTailIsFixed(Decimal(scale));
    " AS DECIMAL(65," + Decimal(scale) + "))"
  }

  function PkFragment(engine: Engine, index: nat, scale: Option<nat>): Fragment {
    if engine.Mysql? && scale.Some? then
      Then(Literal("CAST("), Then(Param(index), Literal(CastTail(scale.value))))
    else Param(index)
  }

  predicate PkLeaves(engine: Engine, scale: Option<nat>) {
    engine.Postgres? || scale.None?
  }

  lemma PkSays(engine: Engine, index: nat, scale: Option<nat>)
    ensures var f := PkFragment(engine, index, scale);
            Says(engine, f, false, PkPlaceholder(engine, index, scale), [], [index], PkLeaves(engine, scale))
  {
    if engine.Mysql? && scale.Some? {
      var tail := CastTail(scale.value);
      OneThen(engine, Param(index), false, Placeholder(engine, index), [], [index], true,
              Literal(tail), tail, [], [], false);
      LiteralThen(engine, "CAST(", Then(Param(index), Literal(tail)), false,
                  Placeholder(engine, index) + tail, [], [index], false);
    }
  }

  // ---- The statements scan back ------------------------------------------------------

  function ValuesFragment(n: nat): Fragment {
    Then(Literal(") VALUES ("), Then(Commas(ParamFragments(1, n)), Literal(")")))
  }

  lemma ValuesSay(engine: Engine, n: nat, open: bool)
    ensures Says(engine, ValuesFragment(n), open, ValuesText(engine, n), [], Counting(1, n), false)
  {
    var list, text := Commas(ParamFragments(1, n)), Join(Placeholders(engine, 1, n), ", ");
    ParamsSay(engine, 1, n);
    OneThen(engine, list, false, text, [], Counting(1, n), n > 0, Literal(")"), ")", [], [], false);
    LiteralThen(engine, ") VALUES (", Then(list, Literal(")")), open, text + ")", [], Counting(1, n), false);
  }

  function ColumnsThen(names: seq<string>, f: Fragment): Fragment {
    Then(Literal(" ("), Then(Commas(ColumnFragments(names)), f))
  }

  lemma ColumnsThenSay(
    engine: Engine, names: seq<string>, f: Fragment, text: string, indexes: seq<nat>, leaves: bool)
    requires Says(engine, f, names != [], text, [], indexes, leaves)
    ensures Says(engine, ColumnsThen(names, f), true, " (" + (Join(QuoteAll(engine, names), ", ") + text),
                 names, indexes, leaves)
  {
    var list, listed := Commas(ColumnFragments(names)), Join(QuoteAll(engine, names), ", ");
    ColumnsSay(engine, names);
    OneThen(engine, list, false, listed, names, [], names != [], f, text, [], indexes, leaves);
    LiteralThen(engine, " (", Then(list, f), true, listed + text, names, indexes, leaves);
  }

  function InsertTail(names: seq<string>): Fragment {
    ColumnsThen(names, ValuesFragment(|names|))
  }

  lemma InsertTailSays(engine: Engine, names: seq<string>)
    ensures Says(engine, InsertTail(names), true, InsertTailText(engine, names), names, Counting(1, |names|), false)
  {
    ValuesSay(engine, |names|, names != []);
    ColumnsThenSay(engine, names, ValuesFragment(|names|), ValuesText(engine, |names|), Counting(1, |names|), false);
  }

  /** The composed INSERT is one statement about its table and columns, with a place for each value. */
  lemma InsertScansBack(d: Dialect, schema: Option<string>, table: string, names: seq<string>)
    ensures ScansBackTo(d, InsertSql(d.engine, schema, table, names),
                        TableNames(schema, table) + names, |names|)
  {
    InsertTailSays(d.engine, names);
    HeadedScansBack(d, INSERT_INTO, schema, table, InsertTail(names), InsertTailText(d.engine, names),
                    names, |names|, false);
  }

  function WhereFragment(engine: Engine, pk: string, index: nat, scale: Option<nat>): Fragment {
    Then(Literal(" WHERE "), Then(Ident(pk), Then(Literal("="), PkFragment(engine, index, scale))))
  }

  lemma WhereSays(engine: Engine, pk: string, index: nat, scale: Option<nat>, open: bool)
    ensures Says(engine, WhereFragment(engine, pk, index, scale), open, WhereText(engine, pk, index, scale),
                 [pk], [index], PkLeaves(engine, scale))
  {
    var f, t := PkFragment(engine, index, scale), PkPlaceholder(engine, index, scale);
    var leaves := PkLeaves(engine, scale);
    PkSays(engine, index, scale);
    LiteralThen(engine, "=", f, true, t, [], [index], leaves);
    IdentThen(engine, pk, Then(Literal("="), f), "=" + t, [], [index], leaves);
    LiteralThen(engine, " WHERE ", Then(Ident(pk), Then(Literal("="), f)), open,
                QuoteIdent(engine, pk) + ("=" + t), [pk], [index], leaves);
  }

  function SetThen(names: seq<string>, f: Fragment): Fragment {
    Then(Literal(" SET "), Then(Commas(AssignmentFragments(names, 1)), f))
  }

  lemma SetThenSays(
    engine: Engine, names: seq<string>, f: Fragment, text: string, pk: string, index: nat, leaves: bool)
    requires index == |names| + 1 && Says(engine, f, names != [], text, [pk], [index], leaves)
    ensures Says(engine, SetThen(names, f), true, " SET " + (Join(Assignments(engine, names, 1), ", ") + text),
                 names + [pk], Counting(1, index), leaves)
  {
    var n := |names|;
    var list, listed := Commas(AssignmentFragments(names, 1)), Join(Assignments(engine, names, 1), ", ");
    AssignmentsSay(engine, names, 1);
    CountingConcat(1, n, 1);
    CountingOne(index);
    OneThen(engine, list, false, listed, names, Counting(1, n), names != [], f, text, [pk], [index], leaves);
    LiteralThen(engine, " SET ", Then(list, f), true, listed + text, names + [pk], Counting(1, index), leaves);
  }

  /** The composed UPDATE: its table, its columns, and the key column last, bound after the values. */
  lemma UpdateScansBack(
    d: Dialect, schema: string, table: string, names: seq<string>, pk: string, scale: Option<nat>)
    ensures ScansBackTo(d, UpdateSql(d.engine, schema, table, names, pk, scale),
                        TableNames(Some(schema), table) + (names + [pk]), |names| + 1)
  {
    var index, open := |names| + 1, names != [];
    var f, text := WhereFragment(d.engine, pk, index, scale), WhereText(d.engine, pk, index, scale);
    WhereSays(d.engine, pk, index, scale, open);
    SetThenSays(d.engine, names, f, text, pk, index, PkLeaves(d.engine, scale));
    HeadedScansBack(d, UPDATE, Some(schema), table, SetThen(names, f), UpdateTailText(d.engine, names, pk, scale),
                    names + [pk], index, PkLeaves(d.engine, scale));
  }

  /** The composed DELETE: its table, the key column, and one place. */
  lemma DeleteScansBack(d: Dialect, schema: string, table: string, pk: string, scale: Option<nat>)
    ensures ScansBackTo(d, DeleteSql(d.engine, schema, table, pk, scale),
                        TableNames(Some(schema), table) + [pk], 1)
  {
    WhereSays(d.engine, pk, 1, scale, true);
    CountingOne(1);
    HeadedScansBack(d, DELETE_FROM, Some(schema), table, WhereFragment(d.engine, pk, 1, scale),
                    WhereText(d.engine, pk, 1, scale), [pk], 1, PkLeaves(d.engine, scale));
  }
}
