/** The structured CREATE TABLE: its checks, its key columns and its text. */
module SqlCreateTable {
  import opened Text
  import opened SqlScanner
  import opened SqlSpans
  import opened SqlTokens
  import opened SqlFragments
  import opened SqlComposer

  datatype ColumnType =
    | INTEGER | BIGINT | SMALLINT | TEXT | VARCHAR | BOOLEAN | DATE | TIMESTAMP
    | NUMERIC | REAL | DOUBLE_PRECISION | UUID | JSON

  datatype ColumnDef = ColumnDef(name: string, kind: ColumnType, notNull: bool, primaryKey: bool)

  datatype Refusal =
    | BadPrimaryKey                    // the declared key is empty or has a blank name
    | UndefinedKeyColumn(name: string)
    | UnsupportedType(name: string)

  datatype Created = Refused(why: Refusal) | Composed(sql: string)

  /** MySQL has no UUID type. */
  predicate Supported(engine: Engine, kind: ColumnType) {
    kind.UUID? ==> engine.Postgres?
  }

  /** The text of a type; asked for only where the type is supported. */
  function Ddl(engine: Engine, kind: ColumnType): FixedText {
    match kind
    case INTEGER => "INTEGER"
    case BIGINT => "BIGINT"
    case SMALLINT => "SMALLINT"
    case TEXT => "TEXT"
    case VARCHAR => if engine.Mysql? then "VARCHAR(255)" else "VARCHAR"
    case BOOLEAN => "BOOLEAN"
    case DATE => "DATE"
    case TIMESTAMP => "TIMESTAMP"
    case NUMERIC => "NUMERIC"
    case REAL => "REAL"
    case DOUBLE_PRECISION => "DOUBLE PRECISION"
    case UUID => "UUID"
    case JSON => "JSON"
  }

  // ---- What the loops compute --------------------------------------------------------

  function ColumnNames(columns: seq<ColumnDef>): seq<string> {
    seq(|columns|, i requires 0 <= i < |columns| => columns[i].name)
  }

  function FlaggedNames(columns: seq<ColumnDef>): seq<string> {
    if columns == [] then []
    else (if columns[0].primaryKey then [columns[0].name] else []) + FlaggedNames(columns[1..])
  }

  /** The names not already in `seen`, each where it first occurs. */
  function FirstOccurrences(names: seq<string>, seen: set<string>): seq<string> {
    if names == [] then []
    else if names[0] in seen then FirstOccurrences(names[1..], seen)
    else [names[0]] + FirstOccurrences(names[1..], seen + {names[0]})
  }

  /** The effective key: the declared columns, then the flagged ones, each once. */
  function KeyColumns(declared: seq<string>, columns: seq<ColumnDef>): seq<string> {
    FirstOccurrences(declared + FlaggedNames(columns), {})
  }

  function FirstUndefined(declared: seq<string>, columns: seq<ColumnDef>): (r: Option<string>)
    ensures r.None? ==> forall c :: c in declared ==> c in ColumnNames(columns)
    ensures r.Some? ==> r.value in declared && r.value !in ColumnNames(columns)
  {
    if declared == [] then None
    else if declared[0] !in ColumnNames(columns) then Some(declared[0])
    else FirstUndefined(declared[1..], columns)
  }

  function FirstUnsupported(engine: Engine, columns: seq<ColumnDef>): (r: Option<string>)
    ensures r.None? ==> forall c :: c in columns ==> Supported(engine, c.kind)
    ensures r.Some? ==> exists c :: c in columns && c.name == r.value && !Supported(engine, c.kind)
  {
    if columns == [] then None
    else if !Supported(engine, columns[0].kind) then Some(columns[0].name)
    else FirstUnsupported(engine, columns[1..])
  }

  function NotNullText(notNull: bool): string {
    if notNull then " NOT NULL" else ""
  }

  function DefText(engine: Engine, c: ColumnDef): string {
    QuoteIdent(engine, c.name) + (" " + (Ddl(engine, c.kind) + NotNullText(c.notNull)))
  }

  function KeyText(engine: Engine, keys: seq<string>): string {
    "PRIMARY KEY (" + (Join(QuoteAll(engine, keys), ", ") + ")")
  }

  function KeyTexts(engine: Engine, keys: seq<string>): seq<string> {
    if keys == [] then [] else [KeyText(engine, keys)]
  }

  function DefTexts(engine: Engine, columns: seq<ColumnDef>): seq<string> {
    seq(|columns|, i requires 0 <= i < |columns| => DefText(engine, columns[i]))
  }

  function BodyText(engine: Engine, columns: seq<ColumnDef>, keys: seq<string>): string {
    " (" + (Join(DefTexts(engine, columns) + KeyTexts(engine, keys), ", ") + ")")
  }

  const CREATE_TABLE: FixedText := "CREATE TABLE "

  function CreateSql(
    engine: Engine, schema: Option<string>, table: string, columns: seq<ColumnDef>, keys: seq<string>): string
  {
    CREATE_TABLE + (Qualified(engine, schema, table) + BodyText(engine, columns, keys))
  }

  predicate BlankName(name: string) {
    Trim(name) == ""
  }

  predicate BadKey(declared: seq<string>) {
    declared == [] || exists c :: c in declared && BlankName(c)
  }

  function Declared(primaryKey: Option<seq<string>>): seq<string> {
    if primaryKey.Some? then primaryKey.value else []
  }

  /** The whole operation. Columns have been checked before: at least one, no name twice. */
  function Create(
    engine: Engine, schema: Option<string>, table: string,
    primaryKey: Option<seq<string>>, columns: seq<ColumnDef>): Created
  {
    var declared := Declared(primaryKey);
    if primaryKey.Some? && BadKey(declared) then Refused(BadPrimaryKey)
    else
      var undefined := FirstUndefined(declared, columns);
      if undefined.Some? then Refused(UndefinedKeyColumn(undefined.value))
      else
        var unsupported := FirstUnsupported(engine, columns);
        if unsupported.Some? then Refused(UnsupportedType(unsupported.value))
        else Composed(CreateSql(engine, schema, table, columns, KeyColumns(declared, columns)))
  }

  // ---- The loops ---------------------------------------------------------------------

  lemma SeenWithFirst(first: string, rest: seq<string>, seen: set<string>)
    ensures seen + {first} + (set x | x in rest) == seen + (set x | x in [first] + rest)
  {
  }

  lemma {:induction false} FirstOccurrencesAfter(a: seq<string>, b: seq<string>, seen: set<string>)
    ensures FirstOccurrences(a + b, seen) ==
            FirstOccurrences(a, seen) + FirstOccurrences(b, seen + set x | x in FirstOccurrences(a, seen))
    decreases |a|
  {
    if a == [] {
      assert a + b == b;
      assert seen + (set x | x in FirstOccurrences(a, seen)) == seen;
    } else {
      assert (a + b)[1..] == a[1..] + b;
      if a[0] in seen {
        FirstOccurrencesAfter(a[1..], b, seen);
      } else {
        var more := seen + {a[0]};
        FirstOccurrencesAfter(a[1..], b, more);
        SeenWithFirst(a[0], FirstOccurrences(a[1..], more), seen);
      }
    }
  }

  /** One more name: kept unless it was kept before. */
  lemma OneMoreName(names: seq<string>, c: string)
    ensures var kept := FirstOccurrences(names, {});
            FirstOccurrences(names + [c], {}) == if c in kept then kept else kept + [c]
  {
    FirstOccurrencesAfter(names, [c], {});
  }

  method NameSet(columns: seq<ColumnDef>) returns (names: set<string>)
    ensures forall c :: c in names <==> c in ColumnNames(columns)
  {
    names := {};
    for i := 0 to |columns|
      invariant forall c :: c in names <==> c in ColumnNames(columns)[..i]
    {
      assert ColumnNames(columns)[..i + 1] == ColumnNames(columns)[..i] + [columns[i].name];
      names := names + {columns[i].name};
    }
    assert ColumnNames(columns)[..|columns|] == ColumnNames(columns);
  }

  lemma UndefinedFrom(declared: seq<string>, columns: seq<ColumnDef>, i: nat)
    requires i < |declared|
    ensures FirstUndefined(declared[i..], columns) ==
            if declared[i] !in ColumnNames(columns) then Some(declared[i])
            else FirstUndefined(declared[i + 1..], columns)
  {
    assert declared[i..][1..] == declared[i + 1..];
  }

  lemma OccurrencesUpTo(declared: seq<string>, i: nat)
    requires i < |declared|
    ensures var kept := FirstOccurrences(declared[..i], {});
            FirstOccurrences(declared[..i + 1], {}) == if declared[i] in kept then kept else kept + [declared[i]]
  {
    OneMoreName(declared[..i], declared[i]);
    assert declared[..i] + [declared[i]] == declared[..i + 1];
  }

  /** The declared key columns, in order and each once, or the first that is not defined. */
  method AddDeclared(declared: seq<string>, columns: seq<ColumnDef>)
    returns (pkCols: seq<string>, undefined: Option<string>)
    ensures undefined == FirstUndefined(declared, columns)
    ensures undefined.None? ==> pkCols == FirstOccurrences(declared, {})
  {
    var defined := NameSet(columns);
    var seenPk: set<string> := {};
    pkCols := [];
    assert declared[0..] == declared;
    for i := 0 to |declared|
      invariant pkCols == FirstOccurrences(declared[..i], {})
      invariant forall c :: c in seenPk <==> c in pkCols
      invariant FirstUndefined(declared, columns) == FirstUndefined(declared[i..], columns)
    {
      var c := declared[i];
      UndefinedFrom(declared, columns, i);
      if c !in defined {
        return pkCols, Some(c);
      }
      OccurrencesUpTo(declared, i);
      if c !in seenPk {
        seenPk := seenPk + {c};
        pkCols := pkCols + [c];
      }
    }
    assert declared[..|declared|] == declared;
    undefined := None;
  }

  lemma FlaggedUpTo(columns: seq<ColumnDef>, i: nat)
    requires i < |columns|
    ensures FlaggedNames(columns[..i + 1]) ==
            FlaggedNames(columns[..i]) + if columns[i].primaryKey then [columns[i].name] else []
  {
    var c := columns[i];
    FlaggedConcat(columns[..i], [c]);
    assert columns[..i] + [c] == columns[..i + 1];
  }

  lemma {:induction false} FlaggedConcat(a: seq<ColumnDef>, b: seq<ColumnDef>)
    ensures FlaggedNames(a + b) == FlaggedNames(a) + FlaggedNames(b)
  {
    if a == [] {
      assert a + b == b;
    } else {
      assert (a + b)[1..] == a[1..] + b;
      FlaggedConcat(a[1..], b);
    }
  }

  method AddFlagged(declared: seq<string>, columns: seq<ColumnDef>, start: seq<string>)
    returns (pkCols: seq<string>)
    requires start == FirstOccurrences(declared, {})
    ensures pkCols == KeyColumns(declared, columns)
  {
    pkCols := start;
    assert declared + [] == declared;
    for i := 0 to |columns|
      invariant pkCols == FirstOccurrences(declared + FlaggedNames(columns[..i]), {})
    {
      var before := declared + FlaggedNames(columns[..i]);
      FlaggedUpTo(columns, i);
      if columns[i].primaryKey {
        OneMoreName(before, columns[i].name);
        assert before + [columns[i].name] == declared + FlaggedNames(columns[..i + 1]);
        if columns[i].name !in pkCols {
          pkCols := pkCols + [columns[i].name];
        }
      } else {
        assert before == declared + FlaggedNames(columns[..i + 1]);
      }
    }
    assert columns[..|columns|] == columns;
  }

  lemma DefTextAt(engine: Engine, columns: seq<ColumnDef>, i: nat)
    requires i < |columns|
    ensures |DefTexts(engine, columns)| == |columns| && DefTexts(engine, columns)[i] == DefText(engine, columns[i])
  {
  }

  method ComposeDefs(engine: Engine, columns: seq<ColumnDef>)
    returns (defs: seq<string>, unsupported: Option<string>)
    ensures unsupported == FirstUnsupported(engine, columns)
    ensures unsupported.None? ==> defs == DefTexts(engine, columns)
  {
    defs := [];
    ghost var all := DefTexts(engine, columns);
    assert columns[0..] == columns;
    for i := 0 to |columns|
      invariant FirstUnsupported(engine, columns) == FirstUnsupported(engine, columns[i..])
      invariant i <= |all| == |columns| && defs == all[..i]
    {
      assert columns[i..][1..] == columns[i + 1..];
      if !Supported(engine, columns[i].kind) {
        return defs, Some(columns[i].name);
      }
      DefTextAt(engine, columns, i);
      defs := defs + [DefText(engine, columns[i])];
    }
    unsupported := None;
  }

  method ExecuteCreateTable(
    engine: Engine, schema: Option<string>, table: string,
    primaryKey: Option<seq<string>>, columns: seq<ColumnDef>)
    returns (r: Created)
    ensures r == Create(engine, schema, table, primaryKey, columns)
  {
    var declared := [];
    if primaryKey.Some? {
      declared := primaryKey.value;
      if declared == [] || exists c :: c in declared && BlankName(c) {
        return Refused(BadPrimaryKey);
      }
    }
    var pkCols, undefined := AddDeclared(declared, columns);
    if undefined.Some? {
      return Refused(UndefinedKeyColumn(undefined.value));
    }
    pkCols := AddFlagged(declared, columns, pkCols);
    var defs, unsupported := ComposeDefs(engine, columns);
    if unsupported.Some? {
      return Refused(UnsupportedType(unsupported.value));
    }
    if |pkCols| > 0 {
      defs := defs + [KeyText(engine, pkCols)];
    }
    assert defs == DefTexts(engine, columns) + KeyTexts(engine, pkCols);
    return Composed(CREATE_TABLE + (Qualified(engine, schema, table) + (" (" + (Join(defs, ", ") + ")"))));
  }

  // ---- The key columns ---------------------------------------------------------------

  /** Place `p` names a key column: a declared one, or behind those, a column flagged as key. */
  predicate NamesKey(declared: seq<string>, columns: seq<ColumnDef>, p: nat, c: string) {
    if p < |declared| then declared[p] == c
    else p - |declared| < |columns| && columns[p - |declared|].primaryKey && columns[p - |declared|].name == c
  }

  predicate NamedBefore(declared: seq<string>, columns: seq<ColumnDef>, c: string, end: nat) {
    exists p | 0 <= p < end :: NamesKey(declared, columns, p, c)
  }

  /** `a` is named at a place before which, and at which, `b` is not. */
  predicate Precedes(declared: seq<string>, columns: seq<ColumnDef>, a: string, b: string) {
    exists p | 0 <= p < |declared| + |columns| ::
      NamesKey(declared, columns, p, a) && !NamedBefore(declared, columns, b, p + 1)
  }

  /** Every column named up to `end`, and each before the ones named later for the first time. */
  ghost predicate KeyUpTo(declared: seq<string>, columns: seq<ColumnDef>, keys: seq<string>, end: nat) {
    && (forall c :: c in keys <==> NamedBefore(declared, columns, c, end))
    && forall i, j | 0 <= i < j < |keys| :: Precedes(declared, columns, keys[i], keys[j])
  }

  /** The columns declared or flagged, each once, in the order in which they are first named. */
  ghost predicate EffectiveKey(declared: seq<string>, columns: seq<ColumnDef>, keys: seq<string>) {
    KeyUpTo(declared, columns, keys, |declared| + |columns|)
  }

  lemma NamedOnceMore(declared: seq<string>, columns: seq<ColumnDef>, end: nat, c: string)
    ensures NamedBefore(declared, columns, c, end + 1) <==>
            NamedBefore(declared, columns, c, end) || NamesKey(declared, columns, end, c)
  {
  }

  lemma KeyGrows(
    declared: seq<string>, columns: seq<ColumnDef>, keys: seq<string>, end: nat, c: string, more: seq<string>)
    requires end < |declared| + |columns| && KeyUpTo(declared, columns, keys, end)
    requires NamesKey(declared, columns, end, c) && more == if c in keys then keys else keys + [c]
    ensures KeyUpTo(declared, columns, more, end + 1)
  {
    forall b ensures b in more <==> NamedBefore(declared, columns, b, end + 1) {
      NamedOnceMore(declared, columns, end, b);
    }
    if c !in keys {
      forall i | 0 <= i < |keys| ensures Precedes(declared, columns, keys[i], c) {
        NamedBeforeNew(declared, columns, keys[i], c, end);
      }
    }
  }

  lemma NamedBeforeNew(declared: seq<string>, columns: seq<ColumnDef>, a: string, c: string, end: nat)
    requires end < |declared| + |columns|
    requires NamedBefore(declared, columns, a, end) && !NamedBefore(declared, columns, c, end)
    ensures Precedes(declared, columns, a, c)
  {
    var p :| 0 <= p < end && NamesKey(declared, columns, p, a);
    assert !NamedBefore(declared, columns, c, p + 1);
  }

  lemma KeyStays(declared: seq<string>, columns: seq<ColumnDef>, keys: seq<string>, end: nat)
    requires KeyUpTo(declared, columns, keys, end) && forall c :: !NamesKey(declared, columns, end, c)
    ensures KeyUpTo(declared, columns, keys, end + 1)
  {
    forall b ensures b in keys <==> NamedBefore(declared, columns, b, end + 1) {
      NamedOnceMore(declared, columns, end, b);
    }
  }

  lemma {:induction false} DeclaredUpTo(declared: seq<string>, columns: seq<ColumnDef>, end: nat)
    requires end <= |declared|
    ensures KeyUpTo(declared, columns, FirstOccurrences(declared[..end], {}), end)
  {
    if end > 0 {
      DeclaredUpTo(declared, columns, end - 1);
      OccurrencesUpTo(declared, end - 1);
      KeyGrows(declared, columns, FirstOccurrences(declared[..end - 1], {}), end - 1, declared[end - 1],
               FirstOccurrences(declared[..end], {}));
    }
  }

  lemma {:induction false} AllUpTo(declared: seq<string>, columns: seq<ColumnDef>, k: nat, end: nat)
    requires k <= |columns| && end == |declared| + k
    ensures KeyUpTo(declared, columns, FirstOccurrences(declared + FlaggedNames(columns[..k]), {}), end)
  {
    if k == 0 {
      DeclaredUpTo(declared, columns, end);
      assert declared[..end] == declared + FlaggedNames(columns[..0]);
    } else {
      var before, c := declared + FlaggedNames(columns[..k - 1]), columns[k - 1];
      AllUpTo(declared, columns, k - 1, end - 1);
      FlaggedUpTo(columns, k - 1);
      if c.primaryKey {
        OneMoreName(before, c.name);
        assert before + [c.name] == declared + FlaggedNames(columns[..k]);
        KeyGrows(declared, columns, FirstOccurrences(before, {}), end - 1, c.name,
                 FirstOccurrences(before + [c.name], {}));
      } else {
        assert before == declared + FlaggedNames(columns[..k]);
        KeyStays(declared, columns, FirstOccurrences(before, {}), end - 1);
      }
    }
  }

  /** The key holds every declared or flagged column exactly once, declared ones in front. */
  lemma KeyIsTheUnion(declared: seq<string>, columns: seq<ColumnDef>)
    ensures EffectiveKey(declared, columns, KeyColumns(declared, columns))
  {
    AllUpTo(declared, columns, |columns|, |declared| + |columns|);
    assert columns[..|columns|] == columns;
  }

  // ---- The text scans back -----------------------------------------------------------

  function NotNullFragment(notNull: bool): Fragment {
    if notNull then Literal(" NOT NULL") else Nothing
  }

  function DefFragment(engine: Engine, c: ColumnDef): Fragment {
    Then(Ident(c.name), Then(Literal(" "), Then(Literal(Ddl(engine, c.kind)), NotNullFragment(c.notNull))))
  }

  lemma DefSays(engine: Engine, c: ColumnDef)
    ensures Says(engine, DefFragment(engine, c), false, DefText(engine, c), [c.name], [], false)
  {
    var ddl, tail, text := Ddl(engine, c.kind), NotNullFragment(c.notNull), NotNullText(c.notNull);
    LiteralThen(engine, ddl, tail, false, text, [], [], false);
    LiteralThen(engine, " ", Then(Literal(ddl), tail), true, ddl + text, [], [], false);
    IdentThen(engine, c.name, Then(Literal(" "), Then(Literal(ddl), tail)), " " + (ddl + text), [], [], false);
  }

  function KeyFragments(keys: seq<string>): seq<Fragment> {
    if keys == [] then []
    else [Then(Literal("PRIMARY KEY ("), Then(Commas(ColumnFragments(keys)), Literal(")")))]
  }

  lemma KeySays(engine: Engine, keys: seq<string>)
    requires keys != []
    ensures Says(engine, Commas(KeyFragments(keys)), false, Join(KeyTexts(engine, keys), ", "), keys, [], false)
  {
    var list, listed := Commas(ColumnFragments(keys)), Join(QuoteAll(engine, keys), ", ");
    ColumnsSay(engine, keys);
    OneThen(engine, list, false, listed, keys, [], true, Literal(")"), ")", [], [], false);
    LiteralThen(engine, "PRIMARY KEY (", Then(list, Literal(")")), false, listed + ")", keys, [], false);
  }

  /** As `CommaThen`, where the first piece is not left open. */
  lemma CommaAfter(
    engine: Engine, a: Fragment, ta: string, na: seq<string>, b: Fragment, tb: string, nb: seq<string>)
    requires Says(engine, a, false, ta, na, [], false) && Says(engine, b, false, tb, nb, [], false)
    ensures Says(engine, Then(a, Then(Literal(", "), b)), false, ta + (", " + tb), na + nb, [], false)
  {
    LiteralThen(engine, ", ", b, false, tb, nb, [], false);
    OneThen(engine, a, false, ta, na, [], false, Then(Literal(", "), b), ", " + tb, nb, [], false);
  }

  function DefFragments(engine: Engine, columns: seq<ColumnDef>): seq<Fragment> {
    seq(|columns|, i requires 0 <= i < |columns| => DefFragment(engine, columns[i]))
  }

  lemma OneDefMore(
    engine: Engine, f: Fragment, t: string, name: string, fs: seq<Fragment>, ts: seq<string>, names: seq<string>)
    requires |fs| == |ts| && Says(engine, f, false, t, [name], [], false)
    requires Says(engine, Commas(fs), false, Join(ts, ", "), names, [], false)
    ensures Says(engine, Commas([f] + fs), false, Join([t] + ts, ", "), [name] + names, [], false)
  {
    assert ([f] + fs)[1..] == fs && ([t] + ts)[1..] == ts;
    if fs != [] {
      CommaAfter(engine, f, t, [name], Commas(fs), Join(ts, ", "), names);
    }
  }

  /** Definitions one by one, in front of others. */
  lemma {:induction false} EachDefSays(
    engine: Engine, fs: seq<Fragment>, ts: seq<string>, names: seq<string>,
    gs: seq<Fragment>, us: seq<string>, keys: seq<string>)
    requires |fs| == |ts| == |names| && |gs| == |us|
    requires forall i | 0 <= i < |fs| :: Says(engine, fs[i], false, ts[i], [names[i]], [], false)
    requires Says(engine, Commas(gs), false, Join(us, ", "), keys, [], false)
    ensures Says(engine, Commas(fs + gs), false, Join(ts + us, ", "), names + keys, [], false)
  {
    if fs == [] {
      assert fs + gs == gs && ts + us == us && names + keys == keys;
    } else {
      EachDefSays(engine, fs[1..], ts[1..], names[1..], gs, us, keys);
      OneDefMore(engine, fs[0], ts[0], names[0], fs[1..] + gs, ts[1..] + us, names[1..] + keys);
      assert fs + gs == [fs[0]] + (fs[1..] + gs) && ts + us == [ts[0]] + (ts[1..] + us);
      assert names + keys == [names[0]] + (names[1..] + keys);
    }
  }

  lemma DefsSay(engine: Engine, columns: seq<ColumnDef>, keys: seq<string>)
    ensures Says(engine, Commas(DefFragments(engine, columns) + KeyFragments(keys)), false,
                 Join(DefTexts(engine, columns) + KeyTexts(engine, keys), ", "),
                 ColumnNames(columns) + keys, [], false)
  {
    var fs, ts := DefFragments(engine, columns), DefTexts(engine, columns);
    forall i | 0 <= i < |columns|
      ensures Says(engine, fs[i], false, ts[i], [ColumnNames(columns)[i]], [], false)
    {
      DefSays(engine, columns[i]);
    }
    if keys != [] {
      KeySays(engine, keys);
    }
    EachDefSays(engine, fs, ts, ColumnNames(columns), KeyFragments(keys), KeyTexts(engine, keys), keys);
  }

  lemma BodySays(engine: Engine, list: Fragment, listed: string, names: seq<string>)
    requires Says(engine, list, false, listed, names, [], false)
    ensures Says(engine, Then(Literal(" ("), Then(list, Literal(")"))), true, " (" + (listed + ")"), names, [], false)
  {
    OneThen(engine, list, false, listed, names, [], false, Literal(")"), ")", [], [], false);
    LiteralThen(engine, " (", Then(list, Literal(")")), true, listed + ")", names, [], false);
  }

  function BodyFragment(engine: Engine, columns: seq<ColumnDef>, keys: seq<string>): Fragment {
    Then(Literal(" ("), Then(Commas(DefFragments(engine, columns) + KeyFragments(keys)), Literal(")")))
  }

  lemma TableBodySays(engine: Engine, columns: seq<ColumnDef>, keys: seq<string>)
    ensures Says(engine, BodyFragment(engine, columns, keys), true, BodyText(engine, columns, keys),
                 ColumnNames(columns) + keys, [], false)
  {
    DefsSay(engine, columns, keys);
    BodySays(engine, Commas(DefFragments(engine, columns) + KeyFragments(keys)),
             Join(DefTexts(engine, columns) + KeyTexts(engine, keys), ", "), ColumnNames(columns) + keys);
  }

  /**
   Whatever the names hold, the composed CREATE TABLE is one statement whose only
   identifiers are the table, the columns and the key columns, and which binds nothing.
   */
  lemma CreateScansBack(
    d: Dialect, schema: Option<string>, table: string, columns: seq<ColumnDef>, keys: seq<string>)
    ensures ScansBackTo(d, CreateSql(d.engine, schema, table, columns, keys),
                        TableNames(schema, table) + (ColumnNames(columns) + keys), 0)
  {
    TableBodySays(d.engine, columns, keys);
    HeadedScansBack(d, CREATE_TABLE, schema, table, BodyFragment(d.engine, columns, keys),
                    BodyText(d.engine, columns, keys), ColumnNames(columns) + keys, 0, false);
  }

  // ---- The decision, written out -------------------------------------------------------

  predicate OnlyBlanks(name: string) {
    forall k | 0 <= k < |name| :: IsBlank(name[k])
  }

  lemma {:induction false} TrimsToNothing(s: string)
    ensures Trim(s) == "" <==> OnlyBlanks(s)
  {
    var a, b := TrimmedExactly(s);
    assert Trim(s) != "" ==> s[|a|] == Trim(s)[0];
  }

  predicate IsDefined(columns: seq<ColumnDef>, name: string) {
    exists k | 0 <= k < |columns| :: columns[k].name == name
  }

  lemma DefinedIsNamed(columns: seq<ColumnDef>, name: string)
    ensures IsDefined(columns, name) <==> name in ColumnNames(columns)
  {
    if IsDefined(columns, name) {
      var k :| 0 <= k < |columns| && columns[k].name == name;
      assert ColumnNames(columns)[k] == name;
    }
  }

  /** The first declared key column that no column defines. */
  predicate IsFirstUndefined(declared: seq<string>, columns: seq<ColumnDef>, k: nat) {
    && k < |declared| && !IsDefined(columns, declared[k])
    && forall n | 0 <= n < k :: IsDefined(columns, declared[n])
  }

  lemma {:induction false} UndefinedAt(declared: seq<string>, columns: seq<ColumnDef>) returns (k: nat)
    ensures k <= |declared| && forall n | 0 <= n < k :: IsDefined(columns, declared[n])
    ensures FirstUndefined(declared, columns) == if k < |declared| then Some(declared[k]) else None
    ensures k < |declared| ==> IsFirstUndefined(declared, columns, k)
  {
    k := 0;
    if declared != [] {
      DefinedIsNamed(columns, declared[0]);
      if IsDefined(columns, declared[0]) {
        var rest := UndefinedAt(declared[1..], columns);
        k := rest + 1;
      }
    }
  }

  /** On MySQL, the first UUID column. */
  predicate IsFirstUnsupported(engine: Engine, columns: seq<ColumnDef>, k: nat) {
    && engine == Mysql && k < |columns| && columns[k].kind == UUID
    && forall n | 0 <= n < k :: columns[n].kind != UUID
  }

  lemma {:induction false} UnsupportedAt(engine: Engine, columns: seq<ColumnDef>) returns (k: nat)
    ensures k <= |columns| && FirstUnsupported(engine, columns) == if k < |columns| then Some(columns[k].name) else None
    ensures k < |columns| ==> IsFirstUnsupported(engine, columns, k)
    ensures k == |columns| && engine == Mysql ==> forall c :: c in columns ==> c.kind != UUID
  {
    k := 0;
    if columns != [] && !(engine == Mysql && columns[0].kind == UUID) {
      var rest := UnsupportedAt(engine, columns[1..]);
      k := rest + 1;
    }
  }

  /**
   The operation is refused, in this order, for a declared key that is empty or has a blank
   name, for the first declared column that is not defined, and on MySQL for the first UUID
   column. Otherwise it composes the text for the effective key.
   */
  lemma CreateDecided(
    engine: Engine, schema: Option<string>, table: string,
    primaryKey: Option<seq<string>>, columns: seq<ColumnDef>)
    ensures var r := Create(engine, schema, table, primaryKey, columns);
            var declared := if primaryKey == None then [] else primaryKey.value;
            var bad := primaryKey != None && (declared == [] || exists c :: c in declared && OnlyBlanks(c));
            && (bad <==> r == Refused(BadPrimaryKey))
            && (!bad ==> forall k: nat :: IsFirstUndefined(declared, columns, k) ==> r == Refused(UndefinedKeyColumn(declared[k])))
            && (!bad && (forall c :: c in declared ==> IsDefined(columns, c)) ==>
                && (forall k: nat :: IsFirstUnsupported(engine, columns, k) ==> r == Refused(UnsupportedType(columns[k].name)))
                && (engine == Mysql && (exists c :: c in columns && c.kind == UUID) ==> r.Refused?)
                && (!(engine == Mysql && exists c :: c in columns && c.kind == UUID) ==>
                    && r == Composed(CreateSql(engine, schema, table, columns, KeyColumns(declared, columns)))
                    && EffectiveKey(declared, columns, KeyColumns(declared, columns))))
  {
    var declared := Declared(primaryKey);
    var k := UndefinedAt(declared, columns);
    var n := UnsupportedAt(engine, columns);
    forall m: nat | IsFirstUndefined(declared, columns, m) ensures m == k {
    }
    forall m: nat | IsFirstUnsupported(engine, columns, m) ensures m == n {
      assert columns[m] in columns;
    }
    forall c ensures BlankName(c) <==> OnlyBlanks(c) {
      TrimsToNothing(c);
    }
    KeyIsTheUnion(declared, columns);
  }

  /** So it is accepted exactly when the declared key and the types are. */
  lemma CreateAccepts(
    engine: Engine, schema: Option<string>, table: string,
    primaryKey: Option<seq<string>>, columns: seq<ColumnDef>)
    ensures Create(engine, schema, table, primaryKey, columns).Composed? <==>
            && (primaryKey != None ==>
                && primaryKey.value != [] && (forall c :: c in primaryKey.value ==> !OnlyBlanks(c))
                && forall c :: c in primaryKey.value ==> IsDefined(columns, c))
            && !(engine == Mysql && exists c :: c in columns && c.kind == UUID)
  {
    CreateDecided(engine, schema, table, primaryKey, columns);
    var k := UndefinedAt(Declared(primaryKey), columns);
  }

  /** What it composes is one statement about the table, the columns and the effective key. */
  lemma CreateIsOneStatement(
    d: Dialect, schema: Option<string>, table: string,
    primaryKey: Option<seq<string>>, columns: seq<ColumnDef>)
    ensures var r := Create(d.engine, schema, table, primaryKey, columns);
            && |ColumnNames(columns)| == |columns|
            && (forall k | 0 <= k < |columns| :: ColumnNames(columns)[k] == columns[k].name)
            && (r.Composed? ==>
            exists keys :: EffectiveKey(if primaryKey == None then [] else primaryKey.value, columns, keys)
              && ScansBackTo(d, r.sql, TableNames(schema, table) + (ColumnNames(columns) + keys), 0))
  {
    KeyIsTheUnion(Declared(primaryKey), columns);
    CreateScansBack(d, schema, table, columns, KeyColumns(Declared(primaryKey), columns));
  }
}
