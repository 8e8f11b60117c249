/**
  The classifier's fixtures on expressions: literals in a UNION, function calls
  and operators, qualified references, correlated and uncorrelated subqueries,
  a nested WITH and a derived table with its own select list.
 */
module ExpressionFixtures {
  import opened Wrappers
  import opened MaskingLevels
  import opened Fields
  import opened Syntax
  import opened Scopes
  import opened Classifier
  import opened ClassifierLaws
  import opened FixtureSupport
  import opened MaskingFixtures

  /** `select 1 as c1, 2 as c2, 3 as c3, 4` */
  const LiteralsQuery: Query := Select([As(Lit("1"), "c1"), As(Lit("2"), "c2"), As(Lit("3"), "c3"), Bare(Lit("4"))], [])

  const LiteralsOut: FieldList := [Field("c1", NONE), Field("c2", NONE), Field("c3", NONE), Field(UNNAMED, NONE)]

  lemma Literals()
    ensures ClassifyQuery(Ctx, LiteralsQuery, [], []) == Ok(LiteralsOut)
  {
    var sc := Scope([], []);
    assert ResolveFromList(Ctx, LiteralsQuery, 0, [], []) == Ok(sc);
    assert [] + [sc] == [sc];
    Targets4(Ctx, LiteralsQuery, [], [sc], Field("c1", NONE), Field("c2", NONE), Field("c3", NONE), Field(UNNAMED, NONE));
    SelectCompose(Ctx, LiteralsQuery, [], [], sc, LiteralsOut);
  }

  const UnionLiteralsOut: FieldList := [Field("c1", FULL), Field("c2", NONE), Field("c3", NONE), Field(UNNAMED, PARTIAL)]

  lemma MergeLiteralsWithT()
    ensures MergeBranches(LiteralsOut, AllOfT) == Ok(UnionLiteralsOut)
  {
    var r := MergeBranches(LiteralsOut, AllOfT);
    assert r.Ok?;
    assert forall i :: 0 <= i < 4 ==> r.value[i] == UnionLiteralsOut[i];
    assert r.value == UnionLiteralsOut;
  }

  /** `select 1 as c1, 2 as c2, 3 as c3, 4 UNION ALL select * from t`: names from the left, levels from both. */
  lemma UnionWithLiterals()
    ensures Run(SetOp(Union, true, LiteralsQuery, StarFrom(Tbl("t")))) == Ok(UnionLiteralsOut)
  {
    Literals();
    StarOverT(None, [], []);
    MergeLiteralsWithT();
    RunIsClassify(SetOp(Union, true, LiteralsQuery, StarFrom(Tbl("t"))), UnionLiteralsOut);
  }

  function Qualified(column: string): Expr { ColumnRef(Some("public"), Some("t"), column) }

  /** `select concat(public.t.a, public.t.b, public.t.c) from t` */
  const ConcatQuery: Query := Select([Bare(FuncCall("concat", [Qualified("a"), Qualified("b"), Qualified("c")]))], [Tbl("t")])

  lemma ConcatArgs(st: seq<Scope>)
    requires ResolveColumn(st, Some("public"), Some("t"), "a") == Ok(FULL)
    requires ResolveColumn(st, Some("public"), Some("t"), "b") == Ok(NONE)
    requires ResolveColumn(st, Some("public"), Some("t"), "c") == Ok(NONE)
    ensures ArgsLevel(Ctx, ConcatQuery.targets[0].expr, 0, [], st) == Ok(FULL)
  {
    var e := ConcatQuery.targets[0].expr;
    ArgsEnd(Ctx, e, [], st);
    ArgsColumn(Ctx, e, 2, [], st, Some("public"), Some("t"), "c", NONE, NONE);
    ArgsColumn(Ctx, e, 1, [], st, Some("public"), Some("t"), "b", NONE, NONE);
    ArgsColumn(Ctx, e, 0, [], st, Some("public"), Some("t"), "a", FULL, NONE);
  }

  lemma ConcatEntry(st: seq<Scope>)
    requires ResolveColumn(st, Some("public"), Some("t"), "a") == Ok(FULL)
    requires ResolveColumn(st, Some("public"), Some("t"), "b") == Ok(NONE)
    requires ResolveColumn(st, Some("public"), Some("t"), "c") == Ok(NONE)
    ensures ClassifyTarget(Ctx, ConcatQuery.targets[0], [], st) == Ok([Field("concat", FULL)])
  {
    ConcatArgs(st);
    assert LowerAscii("concat") == "concat";
  }

  /** A call's level is the strictest of its arguments', here reached through schema-qualified references. */
  lemma ExplicitSchema()
    ensures Run(ConcatQuery) == Ok([Field("concat", FULL)])
  {
    ResolveT(None, None, [], []);
    assert [] + [ScopeT(None)] == [ScopeT(None)];
    LookupInT();
    TQualified([ScopeT(None)], Some("public"), "a", FULL);
    TQualified([ScopeT(None)], Some("public"), "b", NONE);
    TQualified([ScopeT(None)], Some("public"), "c", NONE);
    ConcatEntry([ScopeT(None)]);
    Targets1(Ctx, ConcatQuery, [], [ScopeT(None)], [Field("concat", FULL)]);
    SelectOne(Ctx, ConcatQuery, [], [], ScopeT(None), [Field("concat", FULL)]);
    RunIsClassify(ConcatQuery, [Field("concat", FULL)]);
  }

  /** `select max(b) > y.a from t as x` */
  const CorrelatedInner: Query :=
    Select([Bare(Operator([FuncCall("max", [Col("b")]), ColumnRef(None, Some("y"), "a")]))], [TblAs("t", "x")])

  /** `select a, (select max(b) > y.a from t as x) from t as y` */
  const CorrelatedQuery: Query := Select([Bare(Col("a")), Bare(SubLink(CorrelatedInner))], [TblAs("t", "y")])

  lemma QualifiedYA()
    ensures ResolveInScope(ScopeT(Some("y")), None, Some("y"), "a") == Some(Ok(FULL))
    ensures ResolveInScope(ScopeT(Some("x")), None, Some("y"), "a") == None
  {
    var y, x := ScopeT(Some("y")), ScopeT(Some("x"));
    assert MatchingRanges(x.ranges, None, "y") == [];
    assert MatchingRanges(y.ranges, None, "y") == y.ranges;
    LookupInT();
  }

  lemma YAUnderX(st: seq<Scope>)
    requires st == [ScopeT(Some("y")), ScopeT(Some("x"))]
    ensures ClassifyExpr(Ctx, ColumnRef(None, Some("y"), "a"), [], st) == Ok(Field("a", FULL))
  {
    QualifiedYA();
    ResolveColumnInnermost(st, 0, None, Some("y"), "a");
  }

  /** `max(b) > y.a` is the stricter of its operands. */
  lemma CorrelatedInnerOperands(st: seq<Scope>)
    requires ClassifyExpr(Ctx, FuncCall("max", [Col("b")]), [], st) == Ok(Field("max", NONE))
    requires ClassifyExpr(Ctx, ColumnRef(None, Some("y"), "a"), [], st) == Ok(Field("a", FULL))
    ensures ClassifyTarget(Ctx, CorrelatedInner.targets[0], [], st) == Ok([Field(UNNAMED, FULL)])
  {
    var e := CorrelatedInner.targets[0].expr;
    ArgsEnd(Ctx, e, [], st);
    ArgsOperand(Ctx, e, 1, [], st, Field("a", FULL), NONE);
    ArgsOperand(Ctx, e, 0, [], st, Field("max", NONE), FULL);
    OperatorOf(Ctx, e, [], st, FULL);
  }

  lemma CorrelatedInnerEntry(st: seq<Scope>)
    requires st == [ScopeT(Some("y")), ScopeT(Some("x"))]
    ensures ClassifyTarget(Ctx, CorrelatedInner.targets[0], [], st) == Ok([Field(UNNAMED, FULL)])
  {
    TColumns([ScopeT(Some("y"))], ScopeT(Some("x")));
    assert [ScopeT(Some("y"))] + [ScopeT(Some("x"))] == st;
    MaxOf(Ctx, [], st, "b", NONE);
    YAUnderX(st);
    CorrelatedInnerOperands(st);
  }

  /** The subquery sees `y` from the enclosing block: `y.a` falls through `x` to it. */
  lemma CorrelatedInnerFields()
    ensures ClassifyQuery(Ctx, CorrelatedInner, [], [ScopeT(Some("y"))]) == Ok([Field(UNNAMED, FULL)])
  {
    var st := [ScopeT(Some("y"))] + [ScopeT(Some("x"))];
    assert st == [ScopeT(Some("y")), ScopeT(Some("x"))];
    ResolveT(None, Some("x"), [], [ScopeT(Some("y"))]);
    CorrelatedInnerEntry(st);
    Targets1(Ctx, CorrelatedInner, [], st, [Field(UNNAMED, FULL)]);
    SelectOne(Ctx, CorrelatedInner, [], [ScopeT(Some("y"))], ScopeT(Some("x")), [Field(UNNAMED, FULL)]);
  }

  lemma CorrelatedFirst(st: seq<Scope>)
    requires st == [ScopeT(Some("y"))]
    ensures ClassifyTarget(Ctx, CorrelatedQuery.targets[0], [], st) == Ok([Field("a", FULL)])
  {
    TColumns([], ScopeT(Some("y")));
    assert [] + [ScopeT(Some("y"))] == st;
    ColumnItem(Ctx, CorrelatedQuery.targets[0], [], st, None, None, "a", FULL);
  }

  lemma CorrelatedSecond(st: seq<Scope>)
    requires st == [ScopeT(Some("y"))]
    ensures ClassifyTarget(Ctx, CorrelatedQuery.targets[1], [], st) == Ok([Field(UNNAMED, FULL)])
  {
    CorrelatedInnerFields();
    SubLinkOf(Ctx, CorrelatedInner, [], st, Field(UNNAMED, FULL));
  }

  /** `select a, (select max(b) > y.a from t as x) from t as y` */
  lemma CorrelatedSubquery()
    ensures Run(CorrelatedQuery) == Ok([Field("a", FULL), Field(UNNAMED, FULL)])
  {
    var sc := ScopeT(Some("y"));
    ResolveT(None, Some("y"), [], []);
    assert [] + [sc] == [sc];
    CorrelatedFirst([sc]);
    CorrelatedSecond([sc]);
    Targets2(Ctx, CorrelatedQuery, [], [sc], Field("a", FULL), Field(UNNAMED, FULL));
    SelectOne(Ctx, CorrelatedQuery, [], [], sc, [Field("a", FULL), Field(UNNAMED, FULL)]);
    RunIsClassify(CorrelatedQuery, [Field("a", FULL), Field(UNNAMED, FULL)]);
  }

  /** `select max(a) from t` */
  const MaxAQuery: Query := Select([Bare(FuncCall("max", [Col("a")]))], [Tbl("t")])

  lemma MaxAFields(outer: seq<Scope>)
    ensures ClassifyQuery(Ctx, MaxAQuery, [], outer) == Ok([Field("max", FULL)])
  {
    var st := outer + [ScopeT(None)];
    ResolveT(None, None, [], outer);
    TColumns(outer, ScopeT(None));
    MaxOf(Ctx, [], st, "a", FULL);
    Targets1(Ctx, MaxAQuery, [], st, [Field("max", FULL)]);
    SelectOne(Ctx, MaxAQuery, [], outer, ScopeT(None), [Field("max", FULL)]);
  }

  /** `select t.a, (select max(a) from t) from t as t1 join t on t.a = t1.b` */
  const UncorrelatedQuery: Query :=
    Select([Bare(ColumnRef(None, Some("t"), "a")), Bare(SubLink(MaxAQuery))], [Join(TblAs("t", "t1"), Tbl("t"), On)])

  const JoinScope: Scope := Scope(ScopeT(Some("t1")).ranges + ScopeT(None).ranges, AllOfT + AllOfT)

  lemma UncorrelatedFirst(st: seq<Scope>)
    requires st == [JoinScope]
    ensures ClassifyTarget(Ctx, UncorrelatedQuery.targets[0], [], st) == Ok([Field("a", FULL)])
  {
    assert MatchingRanges(JoinScope.ranges, None, "t") == ScopeT(None).ranges;
    assert ResolveInScope(JoinScope, None, Some("t"), "a") == Some(Ok(FULL));
    assert ResolveColumn(st, None, Some("t"), "a") == Ok(FULL);
  }

  lemma UncorrelatedSecond(st: seq<Scope>)
    requires st == [JoinScope]
    ensures ClassifyTarget(Ctx, UncorrelatedQuery.targets[1], [], st) == Ok([Field("max", FULL)])
  {
    MaxAFields(st);
    SubLinkOf(Ctx, MaxAQuery, [], st, Field("max", FULL));
  }

  /**
    `t.a` picks the unaliased side of the join; the subquery's own `t` hides the
    outer ones, so its `a` is the inner table's.
   */
  lemma UncorrelatedSubquery()
    ensures Run(UncorrelatedQuery) == Ok([Field("a", FULL), Field("max", FULL)])
  {
    ResolveT(None, Some("t1"), [], []);
    ResolveT(None, None, [], []);
    assert ResolveFromItem(Ctx, UncorrelatedQuery.from[0], [], []) == Ok(JoinScope);
    assert [] + [JoinScope] == [JoinScope];
    UncorrelatedFirst([JoinScope]);
    UncorrelatedSecond([JoinScope]);
    Targets2(Ctx, UncorrelatedQuery, [], [JoinScope], Field("a", FULL), Field("max", FULL));
    SelectOne(Ctx, UncorrelatedQuery, [], [], JoinScope, [Field("a", FULL), Field("max", FULL)]);
    RunIsClassify(UncorrelatedQuery, [Field("a", FULL), Field("max", FULL)]);
  }

  /** `select max(a), a-b as c1, a=b as c2, a>b, b in (a, c, d) from (select * from t) result` */
  const FunctionsQuery: Query :=
    Select([Bare(FuncCall("max", [Col("a")])),
            As(Operator([Col("a"), Col("b")]), "c1"),
            As(Operator([Col("a"), Col("b")]), "c2"),
            Bare(Operator([Col("a"), Col("b")])),
            Bare(Operator([Col("b"), Col("a"), Col("c"), Col("d")]))],
           [Derived(StarFrom(Tbl("t")), Some("result"), [])])

  lemma AOpB(st: seq<Scope>)
    requires TLevels(st)
    ensures ClassifyExpr(Ctx, Operator([Col("a"), Col("b")]), [], st) == Ok(Field(UNNAMED, FULL))
  {
    var e := Operator([Col("a"), Col("b")]);
    ArgsEnd(Ctx, e, [], st);
    ArgsColumn(Ctx, e, 1, [], st, None, None, "b", NONE, NONE);
    ArgsColumn(Ctx, e, 0, [], st, None, None, "a", FULL, NONE);
    OperatorOf(Ctx, e, [], st, FULL);
  }

  lemma InList(st: seq<Scope>)
    requires TLevels(st)
    ensures ClassifyExpr(Ctx, Operator([Col("b"), Col("a"), Col("c"), Col("d")]), [], st) == Ok(Field(UNNAMED, FULL))
  {
    var e := Operator([Col("b"), Col("a"), Col("c"), Col("d")]);
    ArgsEnd(Ctx, e, [], st);
    ArgsColumn(Ctx, e, 3, [], st, None, None, "d", PARTIAL, NONE);
    ArgsColumn(Ctx, e, 2, [], st, None, None, "c", NONE, PARTIAL);
    ArgsColumn(Ctx, e, 1, [], st, None, None, "a", FULL, PARTIAL);
    ArgsColumn(Ctx, e, 0, [], st, None, None, "b", NONE, FULL);
    OperatorOf(Ctx, e, [], st, FULL);
  }

  lemma FunctionsEntries(st: seq<Scope>)
    requires st == [ResultScope]
    ensures ClassifyTarget(Ctx, FunctionsQuery.targets[0], [], st) == Ok([Field("max", FULL)])
    ensures ClassifyTarget(Ctx, FunctionsQuery.targets[1], [], st) == Ok([Field("c1", FULL)])
    ensures ClassifyTarget(Ctx, FunctionsQuery.targets[2], [], st) == Ok([Field("c2", FULL)])
    ensures ClassifyTarget(Ctx, FunctionsQuery.targets[3], [], st) == Ok([Field(UNNAMED, FULL)])
    ensures ClassifyTarget(Ctx, FunctionsQuery.targets[4], [], st) == Ok([Field(UNNAMED, FULL)])
  {
    TColumns([], ResultScope);
    assert [] + [ResultScope] == st;
    MaxOf(Ctx, [], st, "a", FULL);
    AOpB(st);
    InList(st);
  }

  const FunctionsOut: FieldList :=
    [Field("max", FULL), Field("c1", FULL), Field("c2", FULL), Field(UNNAMED, FULL), Field(UNNAMED, FULL)]

  /** Every call and operator over a FULL column is FULL, named by the function, the alias or `?column?`. */
  lemma Functions()
    ensures Run(FunctionsQuery) == Ok(FunctionsOut)
  {
    DerivedT([], []);
    assert [] + [ResultScope] == [ResultScope];
    FunctionsEntries([ResultScope]);
    Targets5(Ctx, FunctionsQuery, [], [ResultScope], Field("max", FULL), Field("c1", FULL), Field("c2", FULL), Field(UNNAMED, FULL), Field(UNNAMED, FULL));
    SelectOne(Ctx, FunctionsQuery, [], [], ResultScope, FunctionsOut);
    RunIsClassify(FunctionsQuery, FunctionsOut);
  }

  /** `select a, t.b, public.t.c, d as d1 from public.t` */
  const SubSelectInner: Query := Select(FieldNameTargets, [TableRef(Some("public"), "t", None)])

  /** `select * from (select a, t.b, public.t.c, d as d1 from public.t) result LIMIT 100000` */
  const SubSelectQuery: Query := Limit(StarFrom(Derived(SubSelectInner, Some("result"), [])), 100000)

  lemma SubSelectInnerFields()
    ensures ClassifyQuery(Ctx, SubSelectInner, [], []) == Ok(FieldNameOut)
  {
    ResolveT(Some("public"), None, [], []);
    assert [] + [ScopeT(None)] == [ScopeT(None)];
    FieldNameSelect(SubSelectInner, [ScopeT(None)]);
    SelectOne(Ctx, SubSelectInner, [], [], ScopeT(None), FieldNameOut);
  }

  lemma SubSelect()
    ensures Run(SubSelectQuery) == Ok(FieldNameOut)
  {
    SubSelectInnerFields();
    DerivedOf(Ctx, SubSelectInner, Some("result"), [], [], FieldNameOut);
    var sc := Scope([Range(None, Some("result"), FieldNameOut)], FieldNameOut);
    StarOver(Ctx, Derived(SubSelectInner, Some("result"), []), [], [], sc);
    RunIsClassify(SubSelectQuery, FieldNameOut);
  }

  /** `with tt2 as (select * from t) select max(a) from tt2` */
  const InnerWith: Query :=
    With(false, [Cte("tt2", [], StarFrom(Tbl("t")))], Select([Bare(FuncCall("max", [Col("a")]))], [Tbl("tt2")]))

  /** `with tt2 as (with tt2 as (select * from t) select max(a) from tt2) select * from tt2` */
  const NestedCteQuery: Query := With(false, [Cte("tt2", [], InnerWith)], StarFrom(Tbl("tt2")))

  /** `select max(a) from tt2` with `tt2` bound to `t`'s fields. */
  lemma MaxFromTt2()
    ensures ClassifyQuery(Ctx, InnerWith.body, [CteBinding("tt2", AllOfT)], []) == Ok([Field("max", FULL)])
  {
    var env := [CteBinding("tt2", AllOfT)];
    var sc := Scope([Range(None, Some("tt2"), AllOfT)], AllOfT);
    var body := InnerWith.body;
    assert ResolveFromItem(Ctx, body.from[0], env, []) == Ok(sc);
    assert [] + [sc] == [sc];
    TColumns([], sc);
    MaxOf(Ctx, env, [sc], "a", FULL);
    Targets1(Ctx, body, env, [sc], [Field("max", FULL)]);
    SelectOne(Ctx, body, env, [], sc, [Field("max", FULL)]);
  }

  lemma InnerWithFields()
    ensures ClassifyQuery(Ctx, InnerWith, [], []) == Ok([Field("max", FULL)])
  {
    StarOverT(None, [], []);
    PlainBind(Ctx, InnerWith.ctes[0], false, [], [], AllOfT);
    assert [] + [CteBinding("tt2", AllOfT)] == [CteBinding("tt2", AllOfT)];
    MaxFromTt2();
    WithOne(Ctx, InnerWith, [], [], AllOfT, [Field("max", FULL)]);
  }

  /** The inner `tt2` shadows nothing outside its WITH; the outer `tt2` is the inner block's result. */
  lemma NestedCte()
    ensures Run(NestedCteQuery) == Ok([Field("max", FULL)])
  {
    InnerWithFields();
    PlainBind(Ctx, NestedCteQuery.ctes[0], false, [], [], [Field("max", FULL)]);
    var env := [] + [CteBinding("tt2", [Field("max", FULL)])];
    assert env == [CteBinding("tt2", [Field("max", FULL)])];
    StarOverCte(Ctx, "tt2", env, []);
    WithOne(Ctx, NestedCteQuery, [], [], [Field("max", FULL)], [Field("max", FULL)]);
    RunIsClassify(NestedCteQuery, [Field("max", FULL)]);
  }
}
