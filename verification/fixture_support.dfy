/**
  The catalog the classifier's fixtures run against, shorthand for building
  their statements, and the evaluation steps every fixture is assembled from.
 */
module FixtureSupport {
  import opened Wrappers
  import opened MaskingLevels
  import opened Fields
  import opened Catalog
  import opened Syntax
  import opened Scopes
  import opened Classifier
  import opened ClassifierLaws

  /** Database `db`, schema `public`, table `t(a FULL, b NONE, c NONE, d PARTIAL)`. */
  const TableT: TableSchema := TableSchema("t", [
    ColumnInfo("a", FULL), ColumnInfo("b", NONE), ColumnInfo("c", NONE), ColumnInfo("d", PARTIAL)])

  const Schema: SensitiveSchemaInfo :=
    SensitiveSchemaInfo([DatabaseSchema("db", [SchemaSchema("public", [TableT])])])

  const EmptySchema: SensitiveSchemaInfo := SensitiveSchemaInfo([])

  const AllOfT: FieldList := [Field("a", FULL), Field("b", NONE), Field("c", NONE), Field("d", PARTIAL)]

  function Col(name: string): Expr { ColumnRef(None, None, name) }
  function Lit(text: string): Expr { Literal(text) }
  function Tbl(name: string): FromItem { TableRef(None, name, None) }
  function TblAs(name: string, alias: string): FromItem { TableRef(None, name, Some(alias)) }
  function As(e: Expr, alias: string): Target { Item(e, Some(alias)) }
  function Bare(e: Expr): Target { Item(e, None) }

  /** `SELECT * FROM item`. */
  function StarFrom(item: FromItem): Query { Select([Star(None, None)], [item]) }

  /** A statement's masked fields against the fixture catalog, default database `db`. */
  function Run(q: Query): Result<FieldList> {
    GetMaskedFields(QueryStatement(q), "db", Schema)
  }

  const Ctx: Context := Context(Schema, "db")

  /** The scope `FROM t [AS alias]` builds. */
  function ScopeT(alias: Option<string>): Scope {
    Scope([Range(if alias.Some? then None else Some("public"), Some(alias.GetOr("t")), AllOfT)], AllOfT)
  }

  lemma ResolveT(schema: Option<string>, alias: Option<string>, env: CteEnv, outer: seq<Scope>)
    requires schema == None || schema == Some("public")
    requires LookupCte(env, "t").None?
    ensures ResolveFromItem(Ctx, TableRef(schema, "t", alias), env, outer) == Ok(ScopeT(alias))
  {
    TableTResolves(schema);
    TableTFields();
  }

  lemma TableTResolves(schema: Option<string>)
    requires schema == None || schema == Some("public")
    ensures ResolveTable(Schema, "db", schema, "t") == Ok(("public", TableT))
  {
    var db := Schema.databaseList[0];
    assert FindDatabase(Schema, "db") == Some(db);
    assert FindTable(db.schemaList[0], "t") == Some(TableT);
    if schema.None? {
      assert TableCandidates(db.schemaList[1..], "t") == [];
      assert TableCandidates(db.schemaList, "t") == [("public", TableT)];
    } else {
      assert FindSchema(db, "public") == Some(db.schemaList[0]);
    }
  }

  lemma TableTFields()
    ensures TableFields(TableT.columnList) == AllOfT
  {
  }

  /** `t`'s column names are pairwise distinct. */
  lemma TNames()
    ensures "a" != "b" && "a" != "c" && "a" != "d" && "b" != "c" && "b" != "d" && "c" != "d"
  {
    assert "a"[0] == 'a' && "b"[0] == 'b' && "c"[0] == 'c' && "d"[0] == 'd';
  }

  /** Looking a name up in a list of four fields with distinct names. */
  lemma LookupFour(n1: string, n2: string, n3: string, n4: string,
                   l1: MaskingLevel, l2: MaskingLevel, l3: MaskingLevel, l4: MaskingLevel, name: string)
    requires n1 != n2 && n1 != n3 && n1 != n4 && n2 != n3 && n2 != n4 && n3 != n4
    ensures LookupName([Field(n1, l1), Field(n2, l2), Field(n3, l3), Field(n4, l4)], name)
      == if name == n1 then Found(l1) else if name == n2 then Found(l2)
         else if name == n3 then Found(l3) else if name == n4 then Found(l4) else Missing
  {
    var fs := [Field(n1, l1), Field(n2, l2), Field(n3, l3), Field(n4, l4)];
    assert fs[1..] == [Field(n2, l2), Field(n3, l3), Field(n4, l4)];
    assert fs[1..][1..] == [Field(n3, l3), Field(n4, l4)];
    assert fs[1..][1..][1..] == [Field(n4, l4)];
    var f4 := fs[1..][1..][1..];
    assert f4[1..] == [];
    assert LookupName(f4, name) == if name == n4 then Found(l4) else Missing;
    assert LookupName(fs[1..][1..], name) == if name == n3 then Found(l3) else if name == n4 then Found(l4) else Missing;
    assert LookupName(fs[1..], name)
      == if name == n2 then Found(l2) else if name == n3 then Found(l3) else if name == n4 then Found(l4) else Missing;
  }

  lemma LookupInT()
    ensures LookupName(AllOfT, "a") == Found(FULL) && LookupName(AllOfT, "b") == Found(NONE)
    ensures LookupName(AllOfT, "c") == Found(NONE) && LookupName(AllOfT, "d") == Found(PARTIAL)
  {
    TNames();
    LookupFour("a", "b", "c", "d", FULL, NONE, NONE, PARTIAL, "a");
    LookupFour("a", "b", "c", "d", FULL, NONE, NONE, PARTIAL, "b");
    LookupFour("a", "b", "c", "d", FULL, NONE, NONE, PARTIAL, "c");
    LookupFour("a", "b", "c", "d", FULL, NONE, NONE, PARTIAL, "d");
  }

  /** An unqualified name found in the innermost scope resolves there. */
  lemma Unqualified(outer: seq<Scope>, sc: Scope, name: string, l: MaskingLevel)
    requires LookupName(sc.columns, name) == Found(l)
    ensures ResolveColumn(outer + [sc], None, None, name) == Ok(l)
  {
    var st := outer + [sc];
    assert st[|st| - 1] == sc;
  }

  /** Unqualified references to `t`'s columns resolve to the catalog's levels. */
  predicate TLevels(st: seq<Scope>) {
    && ResolveColumn(st, None, None, "a") == Ok(FULL)
    && ResolveColumn(st, None, None, "b") == Ok(NONE)
    && ResolveColumn(st, None, None, "c") == Ok(NONE)
    && ResolveColumn(st, None, None, "d") == Ok(PARTIAL)
  }

  /** So they do in a block whose innermost scope exposes exactly `t`'s columns. */
  lemma TColumns(outer: seq<Scope>, sc: Scope)
    requires sc.columns == AllOfT
    ensures TLevels(outer + [sc])
  {
    LookupInT();
    Unqualified(outer, sc, "a", FULL);
    Unqualified(outer, sc, "b", NONE);
    Unqualified(outer, sc, "c", NONE);
    Unqualified(outer, sc, "d", PARTIAL);
  }

  lemma RunIsClassify(q: Query, out: FieldList)
    requires ClassifyQuery(Ctx, q, [], []) == Ok(out)
    ensures Run(q) == Ok(out)
  {
  }

  /** A scalar subquery with one output column is that column's field. */
  lemma SubLinkOf(ctx: Context, sub: Query, env: CteEnv, st: seq<Scope>, f: Field)
    requires ClassifyQuery(ctx, sub, env, st) == Ok([f])
    ensures ClassifyExpr(ctx, SubLink(sub), env, st) == Ok(f)
  {
    assert Levels([f]) == [f.level];
    assert MaxLevel([f.level]) == f.level by {
      assert [f.level][1..] == [];
      CombineLaws(f.level, NONE, NONE);
    }
  }

  /** A FROM list of one item is that item's scope. */
  lemma FromOne(ctx: Context, q: Query, env: CteEnv, outer: seq<Scope>, sc: Scope)
    requires q.Select? && |q.from| == 1
    requires ResolveFromItem(ctx, q.from[0], env, outer) == Ok(sc)
    ensures ResolveFromList(ctx, q, 0, env, outer) == Ok(sc)
  {
    assert ResolveFromList(ctx, q, 1, env, outer) == Ok(Scope([], []));
    assert sc.ranges + [] == sc.ranges;
    assert sc.columns + [] == sc.columns;
  }

  /** A FROM list of two items is their side-by-side scope. */
  lemma FromTwo(ctx: Context, q: Query, env: CteEnv, outer: seq<Scope>, s0: Scope, s1: Scope)
    requires q.Select? && |q.from| == 2
    requires ResolveFromItem(ctx, q.from[0], env, outer) == Ok(s0)
    requires ResolveFromItem(ctx, q.from[1], env, outer) == Ok(s1)
    ensures ResolveFromList(ctx, q, 0, env, outer) == Ok(Scope(s0.ranges + s1.ranges, s0.columns + s1.columns))
  {
    assert ResolveFromList(ctx, q, 2, env, outer) == Ok(Scope([], []));
    assert s1.ranges + [] == s1.ranges;
    assert s1.columns + [] == s1.columns;
    assert ResolveFromList(ctx, q, 1, env, outer) == Ok(s1);
  }

  /** A select block whose FROM list is one item. */
  lemma SelectOne(ctx: Context, q: Query, env: CteEnv, outer: seq<Scope>, sc: Scope, out: FieldList)
    requires q.Select? && |q.from| == 1
    requires ResolveFromItem(ctx, q.from[0], env, outer) == Ok(sc)
    requires ClassifyTargets(ctx, q, 0, env, outer + [sc]) == Ok(out)
    ensures ClassifyQuery(ctx, q, env, outer) == Ok(out)
  {
    FromOne(ctx, q, env, outer, sc);
    SelectCompose(ctx, q, env, outer, sc, out);
  }

  /** A derived table without column aliases exposes its subquery's fields under its alias. */
  lemma DerivedOf(ctx: Context, sub: Query, alias: Option<string>, env: CteEnv, outer: seq<Scope>, fs: FieldList)
    requires ClassifyQuery(ctx, sub, env, outer) == Ok(fs)
    ensures ResolveFromItem(ctx, Derived(sub, alias, []), env, outer) == Ok(Scope([Range(None, alias, fs)], fs))
  {
  }

  /** References to `t`'s columns qualified by `t` or `public.t`, in a block whose one scope is `FROM t`. */
  lemma TQualified(st: seq<Scope>, schema: Option<string>, column: string, l: MaskingLevel)
    requires st == [ScopeT(None)] && (schema == None || schema == Some("public"))
    requires LookupName(AllOfT, column) == Found(l)
    ensures ResolveColumn(st, schema, Some("t"), column) == Ok(l)
  {
    assert MatchingRanges(ScopeT(None).ranges, schema, "t") == ScopeT(None).ranges;
  }

  /** A column reference in the select list is a field named by its alias or column, at the level it resolves to. */
  lemma ColumnItem(ctx: Context, t: Target, env: CteEnv, st: seq<Scope>,
                   schema: Option<string>, table: Option<string>, name: string, l: MaskingLevel)
    requires t.Item? && t.expr == ColumnRef(schema, table, name) && ResolveColumn(st, schema, table, name) == Ok(l)
    ensures ClassifyTarget(ctx, t, env, st) == Ok([Field(t.alias.GetOr(name), l)])
  {
  }

  /** The operands of a call or operator from the last on: none left is NONE. */
  lemma ArgsEnd(ctx: Context, e: Expr, env: CteEnv, st: seq<Scope>)
    requires e.FuncCall? || e.Operator?
    ensures ArgsLevel(ctx, e, |e.args|, env, st) == Ok(NONE)
  {
  }

  /** A column operand raises the operands' level to its own. */
  lemma ArgsColumn(ctx: Context, e: Expr, i: nat, env: CteEnv, st: seq<Scope>,
                   schema: Option<string>, table: Option<string>, name: string, l: MaskingLevel, rest: MaskingLevel)
    requires (e.FuncCall? || e.Operator?) && i < |e.args|
    requires e.args[i] == ColumnRef(schema, table, name) && ResolveColumn(st, schema, table, name) == Ok(l)
    requires ArgsLevel(ctx, e, i + 1, env, st) == Ok(rest)
    ensures ArgsLevel(ctx, e, i, env, st) == Ok(Combine(l, rest))
  {
  }

  /** `max(<column>)` is a field named `max` at the column's level. */
  lemma MaxOf(ctx: Context, env: CteEnv, st: seq<Scope>, name: string, l: MaskingLevel)
    requires ResolveColumn(st, None, None, name) == Ok(l)
    ensures ClassifyExpr(ctx, FuncCall("max", [Col(name)]), env, st) == Ok(Field("max", l))
  {
    var e := FuncCall("max", [Col(name)]);
    ArgsEnd(ctx, e, env, st);
    ArgsColumn(ctx, e, 0, env, st, None, None, name, l, NONE);
    CombineLaws(l, NONE, NONE);
    assert LowerAscii("max") == "max";
  }

  /** Any operand raises the operands' level to its own. */
  lemma ArgsOperand(ctx: Context, e: Expr, i: nat, env: CteEnv, st: seq<Scope>, f: Field, rest: MaskingLevel)
    requires (e.FuncCall? || e.Operator?) && i < |e.args|
    requires ClassifyExpr(ctx, e.args[i], env, st) == Ok(f)
    requires ArgsLevel(ctx, e, i + 1, env, st) == Ok(rest)
    ensures ArgsLevel(ctx, e, i, env, st) == Ok(Combine(f.level, rest))
  {
  }

  /** An operator is an unnamed field at the level of its operands. */
  lemma OperatorOf(ctx: Context, e: Expr, env: CteEnv, st: seq<Scope>, l: MaskingLevel)
    requires e.Operator? && ArgsLevel(ctx, e, 0, env, st) == Ok(l)
    ensures ClassifyExpr(ctx, e, env, st) == Ok(Field(UNNAMED, l))
  {
  }

  lemma Targets1(ctx: Context, q: Query, env: CteEnv, st: seq<Scope>, out: FieldList)
    requires q.Select? && |q.targets| == 1
    requires ClassifyTarget(ctx, q.targets[0], env, st) == Ok(out)
    ensures ClassifyTargets(ctx, q, 0, env, st) == Ok(out)
  {
    assert ClassifyTargets(ctx, q, 1, env, st) == Ok([]);
    assert out + [] == out;
  }

  lemma Targets2(ctx: Context, q: Query, env: CteEnv, st: seq<Scope>, f0: Field, f1: Field)
    requires q.Select? && |q.targets| == 2
    requires ClassifyTarget(ctx, q.targets[0], env, st) == Ok([f0])
    requires ClassifyTarget(ctx, q.targets[1], env, st) == Ok([f1])
    ensures ClassifyTargets(ctx, q, 0, env, st) == Ok([f0, f1])
  {
    assert ClassifyTargets(ctx, q, 2, env, st) == Ok([]);
    assert ClassifyTargets(ctx, q, 1, env, st) == Ok([f1]) by { assert [f1] + [] == [f1]; }
    assert [f0] + [f1] == [f0, f1];
  }

  lemma Targets4(ctx: Context, q: Query, env: CteEnv, st: seq<Scope>, f0: Field, f1: Field, f2: Field, f3: Field)
    requires q.Select? && |q.targets| == 4
    requires ClassifyTarget(ctx, q.targets[0], env, st) == Ok([f0])
    requires ClassifyTarget(ctx, q.targets[1], env, st) == Ok([f1])
    requires ClassifyTarget(ctx, q.targets[2], env, st) == Ok([f2])
    requires ClassifyTarget(ctx, q.targets[3], env, st) == Ok([f3])
    ensures ClassifyTargets(ctx, q, 0, env, st) == Ok([f0, f1, f2, f3])
  {
    assert ClassifyTargets(ctx, q, 4, env, st) == Ok([]);
    assert ClassifyTargets(ctx, q, 3, env, st) == Ok([f3]) by { assert [f3] + [] == [f3]; }
    assert ClassifyTargets(ctx, q, 2, env, st) == Ok([f2, f3]) by { assert [f2] + [f3] == [f2, f3]; }
    assert ClassifyTargets(ctx, q, 1, env, st) == Ok([f1, f2, f3]) by { assert [f1] + [f2, f3] == [f1, f2, f3]; }
    assert [f0] + [f1, f2, f3] == [f0, f1, f2, f3];
  }

  lemma Targets5(ctx: Context, q: Query, env: CteEnv, st: seq<Scope>, f0: Field, f1: Field, f2: Field, f3: Field, f4: Field)
    requires q.Select? && |q.targets| == 5
    requires ClassifyTarget(ctx, q.targets[0], env, st) == Ok([f0])
    requires ClassifyTarget(ctx, q.targets[1], env, st) == Ok([f1])
    requires ClassifyTarget(ctx, q.targets[2], env, st) == Ok([f2])
    requires ClassifyTarget(ctx, q.targets[3], env, st) == Ok([f3])
    requires ClassifyTarget(ctx, q.targets[4], env, st) == Ok([f4])
    ensures ClassifyTargets(ctx, q, 0, env, st) == Ok([f0, f1, f2, f3, f4])
  {
    assert ClassifyTargets(ctx, q, 5, env, st) == Ok([]);
    assert ClassifyTargets(ctx, q, 4, env, st) == Ok([f4]) by { assert [f4] + [] == [f4]; }
    assert ClassifyTargets(ctx, q, 3, env, st) == Ok([f3, f4]) by { assert [f3] + [f4] == [f3, f4]; }
    assert ClassifyTargets(ctx, q, 2, env, st) == Ok([f2, f3, f4]) by { assert [f2] + [f3, f4] == [f2, f3, f4]; }
    assert ClassifyTargets(ctx, q, 1, env, st) == Ok([f1, f2, f3, f4]) by { assert [f1] + [f2, f3, f4] == [f1, f2, f3, f4]; }
    assert [f0] + [f1, f2, f3, f4] == [f0, f1, f2, f3, f4];
  }

  /** `SELECT * FROM item` is the item's columns, provided the item has a range. */
  lemma StarOver(ctx: Context, item: FromItem, env: CteEnv, outer: seq<Scope>, sc: Scope)
    requires ResolveFromItem(ctx, item, env, outer) == Ok(sc)
    requires |sc.ranges| > 0
    ensures ClassifyQuery(ctx, StarFrom(item), env, outer) == Ok(sc.columns)
  {
    var q := StarFrom(item);
    var st := outer + [sc];
    assert st[|st| - 1] == sc;
    Targets1(ctx, q, env, st, sc.columns);
    SelectOne(ctx, q, env, outer, sc, sc.columns);
  }

  /** `SELECT * FROM t [AS alias]`, with `t` not shadowed by a CTE. */
  lemma StarOverT(alias: Option<string>, env: CteEnv, outer: seq<Scope>)
    requires LookupCte(env, "t").None?
    ensures ClassifyQuery(Ctx, StarFrom(TableRef(None, "t", alias)), env, outer) == Ok(AllOfT)
  {
    ResolveT(None, alias, env, outer);
    StarOver(Ctx, TableRef(None, "t", alias), env, outer, ScopeT(alias));
  }

  /** `SELECT * FROM name` where `name` is bound as a CTE. */
  lemma StarOverCte(ctx: Context, name: string, env: CteEnv, outer: seq<Scope>)
    requires LookupCte(env, name).Some?
    ensures ClassifyQuery(ctx, StarFrom(Tbl(name)), env, outer) == Ok(LookupCte(env, name).value)
  {
    var fs := LookupCte(env, name).value;
    StarOver(ctx, Tbl(name), env, outer, Scope([Range(None, Some(name), fs)], fs));
  }

  /** A WITH clause of one CTE. */
  lemma WithOne(ctx: Context, q: Query, env: CteEnv, outer: seq<Scope>, fs: FieldList, out: FieldList)
    requires q.With? && |q.ctes| == 1
    requires BindCte(ctx, q.ctes[0], q.recursive, env, outer) == Ok(fs)
    requires ClassifyQuery(ctx, q.body, env + [CteBinding(q.ctes[0].name, fs)], outer) == Ok(out)
    ensures ClassifyQuery(ctx, q, env, outer) == Ok(out)
  {
    assert ClassifyWith(ctx, q, 1, env + [CteBinding(q.ctes[0].name, fs)], outer) == Ok(out);
  }

  /** A WITH clause of two CTEs, the second seeing the first. */
  lemma WithTwo(ctx: Context, q: Query, env: CteEnv, outer: seq<Scope>, fs0: FieldList, fs1: FieldList, out: FieldList)
    requires q.With? && |q.ctes| == 2
    requires BindCte(ctx, q.ctes[0], q.recursive, env, outer) == Ok(fs0)
    requires BindCte(ctx, q.ctes[1], q.recursive, env + [CteBinding(q.ctes[0].name, fs0)], outer) == Ok(fs1)
    requires ClassifyQuery(ctx, q.body, env + [CteBinding(q.ctes[0].name, fs0)] + [CteBinding(q.ctes[1].name, fs1)], outer) == Ok(out)
    ensures ClassifyQuery(ctx, q, env, outer) == Ok(out)
  {
    var env1 := env + [CteBinding(q.ctes[0].name, fs0)];
    var env2 := env1 + [CteBinding(q.ctes[1].name, fs1)];
    assert ClassifyWith(ctx, q, 2, env2, outer) == Ok(out);
    assert ClassifyWith(ctx, q, 1, env1, outer) == Ok(out);
  }

  /** A CTE that is not resolved as recursive is its body, renamed by its column list. */
  lemma PlainBind(ctx: Context, cte: Cte, recursive: bool, env: CteEnv, outer: seq<Scope>, fs: FieldList)
    requires !(recursive && cte.body.SetOp? && cte.body.op == Union)
    requires ClassifyQuery(ctx, cte.body, env, outer) == Ok(fs)
    ensures BindCte(ctx, cte, recursive, env, outer) == Rename(fs, cte.columnAliases)
  {
  }

  /** A recursive UNION CTE starts its fixpoint from its renamed anchor. */
  lemma RecursiveBind(ctx: Context, cte: Cte, env: CteEnv, outer: seq<Scope>, anchor: FieldList, start: FieldList)
    requires cte.body.SetOp? && cte.body.op == Union
    requires ClassifyQuery(ctx, cte.body.left, env, outer) == Ok(anchor)
    requires Rename(anchor, cte.columnAliases) == Ok(start)
    ensures BindCte(ctx, cte, true, env, outer) == RecursiveFixpoint(ctx, cte.name, cte.body.right, start, env, outer)
  {
  }

  /** One round of the recursive-CTE fixpoint: stop when nothing rose, otherwise go on from the combination. */
  lemma FixpointRound(ctx: Context, name: string, member: Query, current: FieldList, env: CteEnv, outer: seq<Scope>, round: FieldList)
    requires ClassifyQuery(ctx, member, env + [CteBinding(name, current)], outer) == Ok(round)
    requires |round| == |current|
    ensures Upper(current, round) == current ==> RecursiveFixpoint(ctx, name, member, current, env, outer) == Ok(current)
    ensures Upper(current, round) != current ==>
      RecursiveFixpoint(ctx, name, member, current, env, outer) == RecursiveFixpoint(ctx, name, member, Upper(current, round), env, outer)
  {
  }
}
