/**
  The classifier's fixtures over table `t(a FULL, b NONE, c NONE, d PARTIAL)`:
  each lemma states the masked fields of one statement, in order, by name and level.
 */
module MaskingFixtures {
  import opened Wrappers
  import opened MaskingLevels
  import opened Fields
  import opened Catalog
  import opened Syntax
  import opened Scopes
  import opened Classifier
  import opened ClassifierLaws
  import opened FixtureSupport

  /** `select * from t` */
  lemma Star()
    ensures Run(StarFrom(Tbl("t"))) == Ok(AllOfT)
  {
    StarOverT(None, [], []);
    RunIsClassify(StarFrom(Tbl("t")), AllOfT);
  }

  /** `select a, t.b, public.t.c, d as d1 from t` */
  const FieldNameTargets: seq<Target> :=
    [Bare(Col("a")), Bare(ColumnRef(None, Some("t"), "b")), Bare(ColumnRef(Some("public"), Some("t"), "c")), As(Col("d"), "d1")]

  const FieldNameQuery: Query := Select(FieldNameTargets, [Tbl("t")])

  const FieldNameOut: FieldList := [Field("a", FULL), Field("b", NONE), Field("c", NONE), Field("d1", PARTIAL)]

  lemma FieldNameBare(q: Query, st: seq<Scope>)
    requires q.Select? && q.targets == FieldNameTargets
    requires st == [ScopeT(None)]
    ensures ClassifyTarget(Ctx, q.targets[0], [], st) == Ok([Field("a", FULL)])
    ensures ClassifyTarget(Ctx, q.targets[3], [], st) == Ok([Field("d1", PARTIAL)])
  {
    TColumns([], ScopeT(None));
    assert [] + [ScopeT(None)] == st;
    ColumnItem(Ctx, q.targets[0], [], st, None, None, "a", FULL);
    ColumnItem(Ctx, q.targets[3], [], st, None, None, "d", PARTIAL);
  }

  lemma FieldNameQualified(q: Query, st: seq<Scope>)
    requires q.Select? && q.targets == FieldNameTargets
    requires st == [ScopeT(None)]
    ensures ClassifyTarget(Ctx, q.targets[1], [], st) == Ok([Field("b", NONE)])
    ensures ClassifyTarget(Ctx, q.targets[2], [], st) == Ok([Field("c", NONE)])
  {
    LookupInT();
    TQualified(st, None, "b", NONE);
    TQualified(st, Some("public"), "c", NONE);
    ColumnItem(Ctx, q.targets[1], [], st, None, Some("t"), "b", NONE);
    ColumnItem(Ctx, q.targets[2], [], st, Some("public"), Some("t"), "c", NONE);
  }

  /** The select list `a, t.b, public.t.c, d as d1` over `t`, whatever the block's FROM list says. */
  lemma FieldNameSelect(q: Query, st: seq<Scope>)
    requires q.Select? && q.targets == FieldNameTargets
    requires st == [ScopeT(None)]
    ensures ClassifyTargets(Ctx, q, 0, [], st) == Ok(FieldNameOut)
  {
    FieldNameBare(q, st);
    FieldNameQualified(q, st);
    Targets4(Ctx, q, [], st, Field("a", FULL), Field("b", NONE), Field("c", NONE), Field("d1", PARTIAL));
  }

  lemma FieldName()
    ensures Run(FieldNameQuery) == Ok(FieldNameOut)
  {
    ResolveT(None, None, [], []);
    assert [] + [ScopeT(None)] == [ScopeT(None)];
    FieldNameSelect(FieldNameQuery, [ScopeT(None)]);
    SelectOne(Ctx, FieldNameQuery, [], [], ScopeT(None), FieldNameOut);
    RunIsClassify(FieldNameQuery, FieldNameOut);
  }

  /** The environment after `with t1 as (select * from t)`. */
  const EnvT1: CteEnv := [CteBinding("t1", AllOfT)]

  lemma BindT1()
    ensures BindCte(Ctx, Cte("t1", [], StarFrom(Tbl("t"))), false, [], []) == Ok(AllOfT)
  {
    StarOverT(None, [], []);
    PlainBind(Ctx, Cte("t1", [], StarFrom(Tbl("t"))), false, [], [], AllOfT);
  }

  /** `with t1 as (select * from t) select * from t1` */
  const CteQuery: Query := With(false, [Cte("t1", [], StarFrom(Tbl("t")))], StarFrom(Tbl("t1")))

  lemma CteFixture()
    ensures Run(CteQuery) == Ok(AllOfT)
  {
    BindT1();
    assert [] + [CteBinding("t1", AllOfT)] == EnvT1;
    StarOverCte(Ctx, "t1", EnvT1, []);
    WithOne(Ctx, CteQuery, [], [], AllOfT, AllOfT);
    RunIsClassify(CteQuery, AllOfT);
  }

  /** `with t1(d, c, b, a) as (select * from t) select * from t1` */
  const CteRenameQuery: Query := With(false, [Cte("t1", ["d", "c", "b", "a"], StarFrom(Tbl("t")))], StarFrom(Tbl("t1")))

  const RenamedT: FieldList := [Field("d", FULL), Field("c", NONE), Field("b", NONE), Field("a", PARTIAL)]

  lemma RenameT()
    ensures Rename(AllOfT, ["d", "c", "b", "a"]) == Ok(RenamedT)
  {
    var r := Rename(AllOfT, ["d", "c", "b", "a"]);
    assert r.Ok?;
    assert forall i :: 0 <= i < 4 ==> r.value[i] == RenamedT[i];
    assert r.value == RenamedT;
  }

  lemma BindRenamedT1()
    ensures BindCte(Ctx, CteRenameQuery.ctes[0], false, [], []) == Ok(RenamedT)
  {
    StarOverT(None, [], []);
    RenameT();
    PlainBind(Ctx, CteRenameQuery.ctes[0], false, [], [], AllOfT);
  }

  lemma CteRename()
    ensures Run(CteRenameQuery) == Ok(RenamedT)
  {
    BindRenamedT1();
    var env := [] + [CteBinding("t1", RenamedT)];
    assert env == [CteBinding("t1", RenamedT)];
    StarOverCte(Ctx, "t1", env, []);
    WithOne(Ctx, CteRenameQuery, [], [], RenamedT, RenamedT);
    RunIsClassify(CteRenameQuery, RenamedT);
  }

  /** The environment after `with t1 as (select * from t), t2 as (select * from t1)`. */
  const EnvT1T2: CteEnv := [CteBinding("t1", AllOfT), CteBinding("t2", AllOfT)]

  lemma BindT2()
    ensures BindCte(Ctx, Cte("t2", [], StarFrom(Tbl("t1"))), false, EnvT1, []) == Ok(AllOfT)
  {
    StarOverCte(Ctx, "t1", EnvT1, []);
    PlainBind(Ctx, Cte("t2", [], StarFrom(Tbl("t1"))), false, EnvT1, [], AllOfT);
  }

  lemma BindT1T2()
    ensures BindCte(Ctx, Cte("t1", [], StarFrom(Tbl("t"))), false, [], []) == Ok(AllOfT)
    ensures BindCte(Ctx, Cte("t2", [], StarFrom(Tbl("t1"))), false, [] + [CteBinding("t1", AllOfT)], []) == Ok(AllOfT)
    ensures [] + [CteBinding("t1", AllOfT)] + [CteBinding("t2", AllOfT)] == EnvT1T2
  {
    BindT1();
    BindT2();
    EnvsT1T2();
  }

  lemma EnvsT1T2()
    ensures [] + [CteBinding("t1", AllOfT)] == EnvT1
    ensures EnvT1 + [CteBinding("t2", AllOfT)] == EnvT1T2
  {
  }

  /** Both CTEs bound; `body` classified under them gives `out`. */
  lemma WithT1T2(body: Query, out: FieldList)
    requires ClassifyQuery(Ctx, body, EnvT1T2, []) == Ok(out)
    ensures ClassifyQuery(Ctx, With(false, [Cte("t1", [], StarFrom(Tbl("t"))), Cte("t2", [], StarFrom(Tbl("t1")))], body), [], []) == Ok(out)
  {
    var q := With(false, [Cte("t1", [], StarFrom(Tbl("t"))), Cte("t2", [], StarFrom(Tbl("t1")))], body);
    BindT1T2();
    WithTwo(Ctx, q, [], [], AllOfT, AllOfT, out);
  }

  /** `with t1 as (select * from t), t2 as (select * from t1) select * from t2` */
  const CteReferenceQuery: Query :=
    With(false, [Cte("t1", [], StarFrom(Tbl("t"))), Cte("t2", [], StarFrom(Tbl("t1")))], StarFrom(Tbl("t2")))

  lemma CteReference()
    ensures Run(CteReferenceQuery) == Ok(AllOfT)
  {
    StarOverCte(Ctx, "t2", EnvT1T2, []);
    WithT1T2(StarFrom(Tbl("t2")), AllOfT);
    RunIsClassify(CteReferenceQuery, AllOfT);
  }

  /** `with t1 as (select * from t), t2 as (select * from t1) select * from t1 union all select * from t2` */
  const CteUnionQuery: Query :=
    With(false, [Cte("t1", [], StarFrom(Tbl("t"))), Cte("t2", [], StarFrom(Tbl("t1")))],
         SetOp(Union, true, StarFrom(Tbl("t1")), StarFrom(Tbl("t2"))))

  lemma CteUnion()
    ensures Run(CteUnionQuery) == Ok(AllOfT)
  {
    StarOverCte(Ctx, "t1", EnvT1T2, []);
    StarOverCte(Ctx, "t2", EnvT1T2, []);
    MergeSelf(AllOfT);
    WithT1T2(CteUnionQuery.body, AllOfT);
    RunIsClassify(CteUnionQuery, AllOfT);
  }

  /** `select * from t UNION ALL select * from t` */
  lemma UnionSelf()
    ensures Run(SetOp(Union, true, StarFrom(Tbl("t")), StarFrom(Tbl("t")))) == Ok(AllOfT)
  {
    StarOverT(None, [], []);
    SelfSetOp(Ctx, Union, true, StarFrom(Tbl("t")), [], []);
    RunIsClassify(SetOp(Union, true, StarFrom(Tbl("t")), StarFrom(Tbl("t"))), AllOfT);
  }

  /** The scope `(select * from t) result` builds. */
  const ResultScope: Scope := Scope([Range(None, Some("result"), AllOfT)], AllOfT)

  lemma DerivedT(env: CteEnv, outer: seq<Scope>)
    requires LookupCte(env, "t").None?
    ensures ResolveFromItem(Ctx, Derived(StarFrom(Tbl("t")), Some("result"), []), env, outer) == Ok(ResultScope)
  {
    StarOverT(None, env, outer);
  }

  /** `select * from (select * from t) result LIMIT 100000` */
  const SubqueryLimitQuery: Query := Limit(StarFrom(Derived(StarFrom(Tbl("t")), Some("result"), [])), 100000)

  lemma SubqueryLimit()
    ensures Run(SubqueryLimitQuery) == Ok(AllOfT)
  {
    DerivedT([], []);
    StarOver(Ctx, Derived(StarFrom(Tbl("t")), Some("result"), []), [], [], ResultScope);
    RunIsClassify(SubqueryLimitQuery, AllOfT);
  }

  /** `select 1`, against an empty catalog. */
  const NoFromQuery: Query := Select([Bare(Lit("1"))], [])

  lemma NoFrom()
    ensures GetMaskedFields(QueryStatement(NoFromQuery), "db", EmptySchema) == Ok([Field(UNNAMED, NONE)])
  {
    var ctx := Context(EmptySchema, "db");
    var sc := Scope([], []);
    assert ResolveFromList(ctx, NoFromQuery, 0, [], []) == Ok(sc);
    assert [] + [sc] == [sc];
    Targets1(ctx, NoFromQuery, [], [sc], [Field(UNNAMED, NONE)]);
  }

  /** `explain select 1`: EXPLAIN yields no fields. */
  lemma ExplainYieldsNothing()
    ensures GetMaskedFields(Explain(NoFromQuery), "db", EmptySchema) == Ok([])
  {
  }
}
