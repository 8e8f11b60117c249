/**
  The classifier's WITH RECURSIVE fixtures: a member that never reads the CTE,
  a member whose columns feed each other round by round, and a member joining
  the CTE with `t`.
 */
module RecursiveFixtures {
  import opened Wrappers
  import opened MaskingLevels
  import opened Fields
  import opened Syntax
  import opened Scopes
  import opened Classifier
  import opened ClassifierLaws
  import opened FixtureSupport

  function Row(l1: MaskingLevel, l2: MaskingLevel, l3: MaskingLevel, l4: MaskingLevel): FieldList {
    [Field("c1", l1), Field("c2", l2), Field("c3", l3), Field("n", l4)]
  }

  function Unnamed(l1: MaskingLevel, l2: MaskingLevel, l3: MaskingLevel, l4: MaskingLevel): FieldList {
    [Field(UNNAMED, l1), Field(UNNAMED, l2), Field(UNNAMED, l3), Field(UNNAMED, l4)]
  }

  /** `select 1 as c1, 2 as c2, 3 as c3, 1 as n` */
  const LiteralAnchor: Query := Select([As(Lit("1"), "c1"), As(Lit("2"), "c2"), As(Lit("3"), "c3"), As(Lit("1"), "n")], [])

  lemma LiteralAnchorFields()
    ensures ClassifyQuery(Ctx, LiteralAnchor, [], []) == Ok(Row(NONE, NONE, NONE, NONE))
  {
    var sc := Scope([], []);
    assert ResolveFromList(Ctx, LiteralAnchor, 0, [], []) == Ok(sc);
    assert [] + [sc] == [sc];
    Targets4(Ctx, LiteralAnchor, [], [sc], Field("c1", NONE), Field("c2", NONE), Field("c3", NONE), Field("n", NONE));
    SelectCompose(Ctx, LiteralAnchor, [], [], sc, Row(NONE, NONE, NONE, NONE));
  }

  /** A one-CTE `with recursive ... select * from t1` resolves to the CTE's binding. */
  lemma WithRecursiveT1(q: Query, fs: FieldList)
    requires q.With? && q.recursive && |q.ctes| == 1 && q.ctes[0].name == "t1" && q.body == StarFrom(Tbl("t1"))
    requires BindCte(Ctx, q.ctes[0], true, [], []) == Ok(fs)
    ensures Run(q) == Ok(fs)
  {
    var env := [] + [CteBinding("t1", fs)];
    assert env == [CteBinding("t1", fs)];
    StarOverCte(Ctx, "t1", env, []);
    WithOne(Ctx, q, [], [], fs, fs);
    RunIsClassify(q, fs);
  }

  // Fixture: with recursive t1 as (select 1 as c1, ... union select a, b, d, c from t) select * from t1

  /** `select a, b, d, c from t` */
  const PlainMember: Query := Select([Bare(Col("a")), Bare(Col("b")), Bare(Col("d")), Bare(Col("c"))], [Tbl("t")])

  const PlainMemberOut: FieldList := [Field("a", FULL), Field("b", NONE), Field("d", PARTIAL), Field("c", NONE)]

  lemma PlainMemberTargets(env: CteEnv, st: seq<Scope>)
    requires st == [ScopeT(None)]
    ensures ClassifyTargets(Ctx, PlainMember, 0, env, st) == Ok(PlainMemberOut)
  {
    TColumns([], ScopeT(None));
    assert [] + [ScopeT(None)] == st;
    ColumnItem(Ctx, PlainMember.targets[0], env, st, None, None, "a", FULL);
    ColumnItem(Ctx, PlainMember.targets[1], env, st, None, None, "b", NONE);
    ColumnItem(Ctx, PlainMember.targets[2], env, st, None, None, "d", PARTIAL);
    ColumnItem(Ctx, PlainMember.targets[3], env, st, None, None, "c", NONE);
    Targets4(Ctx, PlainMember, env, st, Field("a", FULL), Field("b", NONE), Field("d", PARTIAL), Field("c", NONE));
  }

  /** The member reads only `t`, whatever `t1` is bound to. */
  lemma PlainMemberFields(fs: FieldList)
    ensures ClassifyQuery(Ctx, PlainMember, [] + [CteBinding("t1", fs)], []) == Ok(PlainMemberOut)
  {
    var env := [] + [CteBinding("t1", fs)];
    assert env == [CteBinding("t1", fs)];
    ResolveT(None, None, env, []);
    assert [] + [ScopeT(None)] == [ScopeT(None)];
    PlainMemberTargets(env, [ScopeT(None)]);
    SelectOne(Ctx, PlainMember, env, [], ScopeT(None), PlainMemberOut);
  }

  const NonSelfReferentialQuery: Query :=
    With(true, [Cte("t1", [], SetOp(Union, false, LiteralAnchor, PlainMember))], StarFrom(Tbl("t1")))

  lemma UpperPlain()
    ensures Upper(Row(NONE, NONE, NONE, NONE), PlainMemberOut) == Row(FULL, NONE, PARTIAL, NONE)
  {
    var u := Upper(Row(NONE, NONE, NONE, NONE), PlainMemberOut);
    assert forall i :: 0 <= i < 4 ==> u[i] == Row(FULL, NONE, PARTIAL, NONE)[i];
    assert u == Row(FULL, NONE, PARTIAL, NONE);
  }

  /** The member's one round raises the literal anchor to the member's levels, and a second round changes nothing. */
  lemma PlainFixpoint(start: FieldList, next: FieldList)
    requires start == Row(NONE, NONE, NONE, NONE) && next == Row(FULL, NONE, PARTIAL, NONE)
    ensures RecursiveFixpoint(Ctx, "t1", PlainMember, start, [], []) == Ok(next)
  {
    PlainMemberFields(start);
    PlainMemberFields(next);
    UpperPlain();
    FixpointOfIndependentMember(Ctx, "t1", PlainMember, start, [], [], PlainMemberOut);
  }

  lemma PlainBinding()
    ensures BindCte(Ctx, NonSelfReferentialQuery.ctes[0], true, [], []) == Ok(Row(FULL, NONE, PARTIAL, NONE))
  {
    var start := Row(NONE, NONE, NONE, NONE);
    LiteralAnchorFields();
    assert Rename(start, []) == Ok(start);
    RecursiveBind(Ctx, NonSelfReferentialQuery.ctes[0], [], [], start, start);
    PlainFixpoint(start, Row(FULL, NONE, PARTIAL, NONE));
  }

  /**
    RECURSIVE on a CTE whose member never reads it: names come from the anchor,
    levels are the position-wise maximum of anchor and member.
   */
  lemma RecursiveWithoutSelfReference()
    ensures Run(NonSelfReferentialQuery) == Ok(Row(FULL, NONE, PARTIAL, NONE))
  {
    PlainBinding();
    WithRecursiveT1(NonSelfReferentialQuery, Row(FULL, NONE, PARTIAL, NONE));
  }

  // Fixture: with recursive t1(cc1, cc2, cc3, n) as (select a as c1, b as c2, c as c3, 1 as n from t
  // union select cc1 * cc2, cc2 + cc1, cc3 * cc2, n + 1 from t1 where n < 5) select * from t1

  function Closure(l1: MaskingLevel, l2: MaskingLevel, l3: MaskingLevel, l4: MaskingLevel): FieldList {
    [Field("cc1", l1), Field("cc2", l2), Field("cc3", l3), Field("n", l4)]
  }

  /** `select a as c1, b as c2, c as c3, 1 as n from t` */
  const ClosureAnchor: Query := Select([As(Col("a"), "c1"), As(Col("b"), "c2"), As(Col("c"), "c3"), As(Lit("1"), "n")], [Tbl("t")])

  lemma ClosureAnchorEntries(st: seq<Scope>)
    requires st == [ScopeT(None)]
    ensures ClassifyTarget(Ctx, ClosureAnchor.targets[0], [], st) == Ok([Field("c1", FULL)])
    ensures ClassifyTarget(Ctx, ClosureAnchor.targets[1], [], st) == Ok([Field("c2", NONE)])
    ensures ClassifyTarget(Ctx, ClosureAnchor.targets[2], [], st) == Ok([Field("c3", NONE)])
    ensures ClassifyTarget(Ctx, ClosureAnchor.targets[3], [], st) == Ok([Field("n", NONE)])
  {
    TColumns([], ScopeT(None));
    assert [] + [ScopeT(None)] == st;
    ColumnItem(Ctx, ClosureAnchor.targets[0], [], st, None, None, "a", FULL);
    ColumnItem(Ctx, ClosureAnchor.targets[1], [], st, None, None, "b", NONE);
    ColumnItem(Ctx, ClosureAnchor.targets[2], [], st, None, None, "c", NONE);
  }

  lemma ClosureAnchorFields()
    ensures ClassifyQuery(Ctx, ClosureAnchor, [], []) == Ok(Row(FULL, NONE, NONE, NONE))
  {
    ResolveT(None, None, [], []);
    assert [] + [ScopeT(None)] == [ScopeT(None)];
    ClosureAnchorEntries([ScopeT(None)]);
    Targets4(Ctx, ClosureAnchor, [], [ScopeT(None)], Field("c1", FULL), Field("c2", NONE), Field("c3", NONE), Field("n", NONE));
    SelectOne(Ctx, ClosureAnchor, [], [], ScopeT(None), Row(FULL, NONE, NONE, NONE));
  }

  lemma RenameClosure()
    ensures Rename(Row(FULL, NONE, NONE, NONE), ["cc1", "cc2", "cc3", "n"]) == Ok(Closure(FULL, NONE, NONE, NONE))
  {
    var r := Rename(Row(FULL, NONE, NONE, NONE), ["cc1", "cc2", "cc3", "n"]);
    assert r.Ok?;
    assert forall i :: 0 <= i < 4 ==> r.value[i] == Closure(FULL, NONE, NONE, NONE)[i];
    assert r.value == Closure(FULL, NONE, NONE, NONE);
  }

  function Times(x: string, y: string): Expr { Operator([Col(x), Col(y)]) }

  /** `select cc1 * cc2, cc2 + cc1, cc3 * cc2, n + 1 from t1` (the WHERE clause does not affect levels) */
  const ClosureMember: Query :=
    Select([Bare(Times("cc1", "cc2")), Bare(Times("cc2", "cc1")), Bare(Times("cc3", "cc2")), Bare(Operator([Col("n"), Lit("1")]))], [Tbl("t1")])

  function ClosureScope(l1: MaskingLevel, l2: MaskingLevel, l3: MaskingLevel, l4: MaskingLevel): Scope {
    Scope([Range(None, Some("t1"), Closure(l1, l2, l3, l4))], Closure(l1, l2, l3, l4))
  }

  /** `x * y` (or any two-operand operator) is the stricter of its operands. */
  lemma ProductEntry(t: Target, x: string, y: string, lx: MaskingLevel, ly: MaskingLevel, env: CteEnv, st: seq<Scope>)
    requires t == Bare(Times(x, y))
    requires ResolveColumn(st, None, None, x) == Ok(lx) && ResolveColumn(st, None, None, y) == Ok(ly)
    ensures ClassifyTarget(Ctx, t, env, st) == Ok([Field(UNNAMED, Combine(lx, ly))])
  {
    var e := Times(x, y);
    assert ArgsLevel(Ctx, e, 2, env, st) == Ok(NONE);
    CombineLaws(ly, NONE, NONE);
    assert ArgsLevel(Ctx, e, 1, env, st) == Ok(ly);
    assert ArgsLevel(Ctx, e, 0, env, st) == Ok(Combine(lx, ly));
  }

  /** `n + 1` keeps the level of `n`: a literal adds nothing. */
  lemma SuccessorEntry(t: Target, ln: MaskingLevel, env: CteEnv, st: seq<Scope>)
    requires t == Bare(Operator([Col("n"), Lit("1")]))
    requires ResolveColumn(st, None, None, "n") == Ok(ln)
    ensures ClassifyTarget(Ctx, t, env, st) == Ok([Field(UNNAMED, ln)])
  {
    var e := Operator([Col("n"), Lit("1")]);
    assert ArgsLevel(Ctx, e, 1, env, st) == Ok(NONE);
    CombineLaws(ln, NONE, NONE);
    assert ArgsLevel(Ctx, e, 0, env, st) == Ok(ln);
  }

  lemma ClosureColumns(l1: MaskingLevel, l2: MaskingLevel, l3: MaskingLevel, l4: MaskingLevel, st: seq<Scope>)
    requires st == [ClosureScope(l1, l2, l3, l4)]
    ensures ResolveColumn(st, None, None, "cc1") == Ok(l1)
    ensures ResolveColumn(st, None, None, "cc2") == Ok(l2)
    ensures ResolveColumn(st, None, None, "cc3") == Ok(l3)
    ensures ResolveColumn(st, None, None, "n") == Ok(l4)
  {
    var sc := ClosureScope(l1, l2, l3, l4);
    assert [] + [sc] == st;
    assert "cc1"[2] == '1' && "cc2"[2] == '2' && "cc3"[2] == '3';
    LookupFour("cc1", "cc2", "cc3", "n", l1, l2, l3, l4, "cc1");
    LookupFour("cc1", "cc2", "cc3", "n", l1, l2, l3, l4, "cc2");
    LookupFour("cc1", "cc2", "cc3", "n", l1, l2, l3, l4, "cc3");
    LookupFour("cc1", "cc2", "cc3", "n", l1, l2, l3, l4, "n");
    Unqualified([], sc, "cc1", l1);
    Unqualified([], sc, "cc2", l2);
    Unqualified([], sc, "cc3", l3);
    Unqualified([], sc, "n", l4);
  }

  lemma ClosureMemberEntries(l1: MaskingLevel, l2: MaskingLevel, l3: MaskingLevel, l4: MaskingLevel, env: CteEnv, st: seq<Scope>)
    requires st == [ClosureScope(l1, l2, l3, l4)]
    ensures ClassifyTarget(Ctx, ClosureMember.targets[0], env, st) == Ok([Field(UNNAMED, Combine(l1, l2))])
    ensures ClassifyTarget(Ctx, ClosureMember.targets[1], env, st) == Ok([Field(UNNAMED, Combine(l2, l1))])
    ensures ClassifyTarget(Ctx, ClosureMember.targets[2], env, st) == Ok([Field(UNNAMED, Combine(l3, l2))])
    ensures ClassifyTarget(Ctx, ClosureMember.targets[3], env, st) == Ok([Field(UNNAMED, l4)])
  {
    ClosureColumns(l1, l2, l3, l4, st);
    ProductEntry(ClosureMember.targets[0], "cc1", "cc2", l1, l2, env, st);
    ProductEntry(ClosureMember.targets[1], "cc2", "cc1", l2, l1, env, st);
    ProductEntry(ClosureMember.targets[2], "cc3", "cc2", l3, l2, env, st);
    SuccessorEntry(ClosureMember.targets[3], l4, env, st);
  }

  lemma ClosureFrom(l1: MaskingLevel, l2: MaskingLevel, l3: MaskingLevel, l4: MaskingLevel)
    ensures ResolveFromItem(Ctx, ClosureMember.from[0], [CteBinding("t1", Closure(l1, l2, l3, l4))], []) == Ok(ClosureScope(l1, l2, l3, l4))
  {
  }

  lemma ClosureTargets(l1: MaskingLevel, l2: MaskingLevel, l3: MaskingLevel, l4: MaskingLevel, env: CteEnv)
    ensures ClassifyTargets(Ctx, ClosureMember, 0, env, [ClosureScope(l1, l2, l3, l4)])
            == Ok(Unnamed(Combine(l1, l2), Combine(l2, l1), Combine(l3, l2), l4))
  {
    var st := [ClosureScope(l1, l2, l3, l4)];
    ClosureMemberEntries(l1, l2, l3, l4, env, st);
    Targets4(Ctx, ClosureMember, env, st, Field(UNNAMED, Combine(l1, l2)), Field(UNNAMED, Combine(l2, l1)),
             Field(UNNAMED, Combine(l3, l2)), Field(UNNAMED, l4));
  }

  /** One round of the member against any binding of `t1`: each product is the stricter of its factors. */
  lemma ClosureRound(l1: MaskingLevel, l2: MaskingLevel, l3: MaskingLevel, l4: MaskingLevel)
    ensures ClassifyQuery(Ctx, ClosureMember, [CteBinding("t1", Closure(l1, l2, l3, l4))], [])
            == Ok(Unnamed(Combine(l1, l2), Combine(l2, l1), Combine(l3, l2), l4))
  {
    var env := [CteBinding("t1", Closure(l1, l2, l3, l4))];
    var sc := ClosureScope(l1, l2, l3, l4);
    ClosureFrom(l1, l2, l3, l4);
    assert [] + [sc] == [sc];
    ClosureTargets(l1, l2, l3, l4, env);
    SelectOne(Ctx, ClosureMember, env, [], sc, Unnamed(Combine(l1, l2), Combine(l2, l1), Combine(l3, l2), l4));
  }

  /** Combining a binding with a round keeps the binding's names and raises each level. */
  lemma UpperClosure(l1: MaskingLevel, l2: MaskingLevel, l3: MaskingLevel, l4: MaskingLevel,
                     m1: MaskingLevel, m2: MaskingLevel, m3: MaskingLevel, m4: MaskingLevel)
    ensures Upper(Closure(l1, l2, l3, l4), Unnamed(m1, m2, m3, m4)) == Closure(Combine(l1, m1), Combine(l2, m2), Combine(l3, m3), Combine(l4, m4))
  {
    var u := Upper(Closure(l1, l2, l3, l4), Unnamed(m1, m2, m3, m4));
    var w := Closure(Combine(l1, m1), Combine(l2, m2), Combine(l3, m3), Combine(l4, m4));
    assert forall i :: 0 <= i < 4 ==> u[i] == w[i];
    assert u == w;
  }

  /**
    One round of the fixpoint from binding `s` when the member's round over `s`
    is `m`: the fixpoint from `s` is the fixpoint from their combination.
   */
  lemma ClosureStep(l1: MaskingLevel, l2: MaskingLevel, l3: MaskingLevel, l4: MaskingLevel, s: FieldList, next: FieldList)
    requires s == Closure(l1, l2, l3, l4)
    requires next == Closure(Combine(l1, Combine(l1, l2)), Combine(l2, Combine(l2, l1)), Combine(l3, Combine(l3, l2)), Combine(l4, l4))
    ensures next != s ==> RecursiveFixpoint(Ctx, "t1", ClosureMember, s, [], []) == RecursiveFixpoint(Ctx, "t1", ClosureMember, next, [], [])
    ensures next == s ==> RecursiveFixpoint(Ctx, "t1", ClosureMember, s, [], []) == Ok(s)
  {
    var m := Unnamed(Combine(l1, l2), Combine(l2, l1), Combine(l3, l2), l4);
    ClosureRound(l1, l2, l3, l4);
    UpperClosure(l1, l2, l3, l4, Combine(l1, l2), Combine(l2, l1), Combine(l3, l2), l4);
    assert [] + [CteBinding("t1", s)] == [CteBinding("t1", s)];
    FixpointRound(Ctx, "t1", ClosureMember, s, [], [], m);
  }

  /** The fixpoint's rounds: FULL spreads from `cc1` to `cc2` in the first, and on to `cc3` only in the second. */
  lemma ClosureRounds()
    ensures RecursiveFixpoint(Ctx, "t1", ClosureMember, Closure(FULL, NONE, NONE, NONE), [], [])
            == RecursiveFixpoint(Ctx, "t1", ClosureMember, Closure(FULL, FULL, NONE, NONE), [], [])
    ensures RecursiveFixpoint(Ctx, "t1", ClosureMember, Closure(FULL, FULL, NONE, NONE), [], [])
            == RecursiveFixpoint(Ctx, "t1", ClosureMember, Closure(FULL, FULL, FULL, NONE), [], [])
    ensures RecursiveFixpoint(Ctx, "t1", ClosureMember, Closure(FULL, FULL, FULL, NONE), [], []) == Ok(Closure(FULL, FULL, FULL, NONE))
  {
    var s0 := Closure(FULL, NONE, NONE, NONE);
    var s1 := Closure(FULL, FULL, NONE, NONE);
    var s2 := Closure(FULL, FULL, FULL, NONE);
    CombineLaws(FULL, NONE, NONE);
    ClosureStep(FULL, NONE, NONE, NONE, s0, s1);
    ClosureStep(FULL, FULL, NONE, NONE, s1, s2);
    ClosureStep(FULL, FULL, FULL, NONE, s2, s2);
  }

  /**
    A single pass over the member is not enough: after the first round `cc3`
    is still NONE, although the fixpoint makes it FULL.
   */
  lemma ClosureNeedsSecondRound()
    ensures ClassifyQuery(Ctx, ClosureMember, [CteBinding("t1", Closure(FULL, NONE, NONE, NONE))], []) == Ok(Unnamed(FULL, FULL, NONE, NONE))
    ensures Upper(Closure(FULL, NONE, NONE, NONE), Unnamed(FULL, FULL, NONE, NONE)) == Closure(FULL, FULL, NONE, NONE)
    ensures RecursiveFixpoint(Ctx, "t1", ClosureMember, Closure(FULL, NONE, NONE, NONE), [], []) == Ok(Closure(FULL, FULL, FULL, NONE))
  {
    CombineLaws(FULL, NONE, NONE);
    ClosureRound(FULL, NONE, NONE, NONE);
    UpperClosure(FULL, NONE, NONE, NONE, FULL, FULL, NONE, NONE);
    ClosureRounds();
  }

  const ClosureQuery: Query :=
    With(true, [Cte("t1", ["cc1", "cc2", "cc3", "n"], SetOp(Union, false, ClosureAnchor, ClosureMember))], StarFrom(Tbl("t1")))

  /** Dependent columns: FULL reaches `cc3` through `cc2`, so the fixpoint needs more than one round. */
  lemma RecursiveClosure()
    ensures Run(ClosureQuery) == Ok(Closure(FULL, FULL, FULL, NONE))
  {
    ClosureAnchorFields();
    RenameClosure();
    RecursiveBind(Ctx, ClosureQuery.ctes[0], [], [], Row(FULL, NONE, NONE, NONE), Closure(FULL, NONE, NONE, NONE));
    ClosureRounds();
    WithRecursiveT1(ClosureQuery, Closure(FULL, FULL, FULL, NONE));
  }

  // Fixture: with recursive t1 as (select 1 as c1, 2 as c2, 3 as c3, 1 as n
  // union select c1 * a, c2 * b, c3 * d, n + 1 from t1, t where n < 5) select * from t1

  /** `select c1 * a, c2 * b, c3 * d, n + 1 from t1, t` (the WHERE clause does not affect levels) */
  const JoinedMember: Query :=
    Select([Bare(Times("c1", "a")), Bare(Times("c2", "b")), Bare(Times("c3", "d")), Bare(Operator([Col("n"), Lit("1")]))],
           [Tbl("t1"), Tbl("t")])

  function JoinedScope(l1: MaskingLevel, l2: MaskingLevel, l3: MaskingLevel, l4: MaskingLevel): Scope {
    Scope([Range(None, Some("t1"), Row(l1, l2, l3, l4))] + ScopeT(None).ranges, Row(l1, l2, l3, l4) + AllOfT)
  }

  /** The recursive columns are not in `t`, so they are found in the binding alone. */
  lemma JoinedRowLookup(l1: MaskingLevel, l2: MaskingLevel, l3: MaskingLevel, l4: MaskingLevel)
    ensures LookupName(Row(l1, l2, l3, l4) + AllOfT, "c1") == Found(l1)
    ensures LookupName(Row(l1, l2, l3, l4) + AllOfT, "c2") == Found(l2)
    ensures LookupName(Row(l1, l2, l3, l4) + AllOfT, "c3") == Found(l3)
    ensures LookupName(Row(l1, l2, l3, l4) + AllOfT, "n") == Found(l4)
  {
    var row := Row(l1, l2, l3, l4);
    RowLookup(l1, l2, l3, l4);
    TNames();
    LookupFour("a", "b", "c", "d", FULL, NONE, NONE, PARTIAL, "c1");
    LookupFour("a", "b", "c", "d", FULL, NONE, NONE, PARTIAL, "c2");
    LookupFour("a", "b", "c", "d", FULL, NONE, NONE, PARTIAL, "c3");
    LookupFour("a", "b", "c", "d", FULL, NONE, NONE, PARTIAL, "n");
    LookupAppend(row, AllOfT, "c1");
    LookupAppend(row, AllOfT, "c2");
    LookupAppend(row, AllOfT, "c3");
    LookupAppend(row, AllOfT, "n");
  }

  /** The recursive columns' names are pairwise distinct. */
  lemma RowNames()
    ensures "c1" != "c2" && "c1" != "c3" && "c2" != "c3"
  {
    assert "c1"[1] == '1' && "c2"[1] == '2' && "c3"[1] == '3';
  }

  lemma RowLookup(l1: MaskingLevel, l2: MaskingLevel, l3: MaskingLevel, l4: MaskingLevel)
    ensures LookupName(Row(l1, l2, l3, l4), "c1") == Found(l1)
    ensures LookupName(Row(l1, l2, l3, l4), "c2") == Found(l2)
    ensures LookupName(Row(l1, l2, l3, l4), "c3") == Found(l3)
    ensures LookupName(Row(l1, l2, l3, l4), "n") == Found(l4)
    ensures LookupName(Row(l1, l2, l3, l4), "a") == Missing
    ensures LookupName(Row(l1, l2, l3, l4), "b") == Missing
    ensures LookupName(Row(l1, l2, l3, l4), "d") == Missing
  {
    RowNames();
    LookupFour("c1", "c2", "c3", "n", l1, l2, l3, l4, "c1");
    LookupFour("c1", "c2", "c3", "n", l1, l2, l3, l4, "c2");
    LookupFour("c1", "c2", "c3", "n", l1, l2, l3, l4, "c3");
    LookupFour("c1", "c2", "c3", "n", l1, l2, l3, l4, "n");
    LookupFour("c1", "c2", "c3", "n", l1, l2, l3, l4, "a");
    LookupFour("c1", "c2", "c3", "n", l1, l2, l3, l4, "b");
    LookupFour("c1", "c2", "c3", "n", l1, l2, l3, l4, "d");
  }

  /** `t`'s columns are not in the binding, so they are found in `t` alone. */
  lemma JoinedTLookup(l1: MaskingLevel, l2: MaskingLevel, l3: MaskingLevel, l4: MaskingLevel)
    ensures LookupName(Row(l1, l2, l3, l4) + AllOfT, "a") == Found(FULL)
    ensures LookupName(Row(l1, l2, l3, l4) + AllOfT, "b") == Found(NONE)
    ensures LookupName(Row(l1, l2, l3, l4) + AllOfT, "d") == Found(PARTIAL)
  {
    var row := Row(l1, l2, l3, l4);
    RowLookup(l1, l2, l3, l4);
    LookupInT();
    LookupAppend(row, AllOfT, "a");
    LookupAppend(row, AllOfT, "b");
    LookupAppend(row, AllOfT, "d");
  }

  lemma JoinedColumns(l1: MaskingLevel, l2: MaskingLevel, l3: MaskingLevel, l4: MaskingLevel, st: seq<Scope>)
    requires st == [JoinedScope(l1, l2, l3, l4)]
    ensures ResolveColumn(st, None, None, "c1") == Ok(l1)
    ensures ResolveColumn(st, None, None, "c2") == Ok(l2)
    ensures ResolveColumn(st, None, None, "c3") == Ok(l3)
    ensures ResolveColumn(st, None, None, "n") == Ok(l4)
    ensures ResolveColumn(st, None, None, "a") == Ok(FULL)
    ensures ResolveColumn(st, None, None, "b") == Ok(NONE)
    ensures ResolveColumn(st, None, None, "d") == Ok(PARTIAL)
  {
    JoinedRowLookup(l1, l2, l3, l4);
    JoinedTLookup(l1, l2, l3, l4);
  }

  lemma JoinedMemberEntries(l1: MaskingLevel, l2: MaskingLevel, l3: MaskingLevel, l4: MaskingLevel, env: CteEnv, st: seq<Scope>)
    requires st == [JoinedScope(l1, l2, l3, l4)]
    ensures ClassifyTarget(Ctx, JoinedMember.targets[0], env, st) == Ok([Field(UNNAMED, Combine(l1, FULL))])
    ensures ClassifyTarget(Ctx, JoinedMember.targets[1], env, st) == Ok([Field(UNNAMED, Combine(l2, NONE))])
    ensures ClassifyTarget(Ctx, JoinedMember.targets[2], env, st) == Ok([Field(UNNAMED, Combine(l3, PARTIAL))])
    ensures ClassifyTarget(Ctx, JoinedMember.targets[3], env, st) == Ok([Field(UNNAMED, l4)])
  {
    JoinedColumns(l1, l2, l3, l4, st);
    ProductEntry(JoinedMember.targets[0], "c1", "a", l1, FULL, env, st);
    ProductEntry(JoinedMember.targets[1], "c2", "b", l2, NONE, env, st);
    ProductEntry(JoinedMember.targets[2], "c3", "d", l3, PARTIAL, env, st);
    SuccessorEntry(JoinedMember.targets[3], l4, env, st);
  }

  lemma JoinedFrom(l1: MaskingLevel, l2: MaskingLevel, l3: MaskingLevel, l4: MaskingLevel)
    ensures ResolveFromList(Ctx, JoinedMember, 0, [CteBinding("t1", Row(l1, l2, l3, l4))], []) == Ok(JoinedScope(l1, l2, l3, l4))
  {
    var env := [CteBinding("t1", Row(l1, l2, l3, l4))];
    var s0 := Scope([Range(None, Some("t1"), Row(l1, l2, l3, l4))], Row(l1, l2, l3, l4));
    assert ResolveFromItem(Ctx, JoinedMember.from[0], env, []) == Ok(s0);
    ResolveT(None, None, env, []);
    FromTwo(Ctx, JoinedMember, env, [], s0, ScopeT(None));
  }

  lemma JoinedTargets(l1: MaskingLevel, l2: MaskingLevel, l3: MaskingLevel, l4: MaskingLevel, env: CteEnv)
    ensures ClassifyTargets(Ctx, JoinedMember, 0, env, [JoinedScope(l1, l2, l3, l4)])
            == Ok(Unnamed(Combine(l1, FULL), Combine(l2, NONE), Combine(l3, PARTIAL), l4))
  {
    var st := [JoinedScope(l1, l2, l3, l4)];
    JoinedMemberEntries(l1, l2, l3, l4, env, st);
    Targets4(Ctx, JoinedMember, env, st, Field(UNNAMED, Combine(l1, FULL)), Field(UNNAMED, Combine(l2, NONE)),
             Field(UNNAMED, Combine(l3, PARTIAL)), Field(UNNAMED, l4));
  }

  /** One round of the member: each column is joined with its partner column of `t`. */
  lemma JoinedRound(l1: MaskingLevel, l2: MaskingLevel, l3: MaskingLevel, l4: MaskingLevel)
    ensures ClassifyQuery(Ctx, JoinedMember, [CteBinding("t1", Row(l1, l2, l3, l4))], [])
            == Ok(Unnamed(Combine(l1, FULL), Combine(l2, NONE), Combine(l3, PARTIAL), l4))
  {
    var env := [CteBinding("t1", Row(l1, l2, l3, l4))];
    var sc := JoinedScope(l1, l2, l3, l4);
    JoinedFrom(l1, l2, l3, l4);
    assert [] + [sc] == [sc];
    JoinedTargets(l1, l2, l3, l4, env);
    SelectCompose(Ctx, JoinedMember, env, [], sc, Unnamed(Combine(l1, FULL), Combine(l2, NONE), Combine(l3, PARTIAL), l4));
  }

  lemma UpperRow(l1: MaskingLevel, l2: MaskingLevel, l3: MaskingLevel, l4: MaskingLevel,
                 m1: MaskingLevel, m2: MaskingLevel, m3: MaskingLevel, m4: MaskingLevel)
    ensures Upper(Row(l1, l2, l3, l4), Unnamed(m1, m2, m3, m4)) == Row(Combine(l1, m1), Combine(l2, m2), Combine(l3, m3), Combine(l4, m4))
  {
    var u := Upper(Row(l1, l2, l3, l4), Unnamed(m1, m2, m3, m4));
    var w := Row(Combine(l1, m1), Combine(l2, m2), Combine(l3, m3), Combine(l4, m4));
    assert forall i :: 0 <= i < 4 ==> u[i] == w[i];
    assert u == w;
  }

  const JoinedQuery: Query :=
    With(true, [Cte("t1", [], SetOp(Union, false, LiteralAnchor, JoinedMember))], StarFrom(Tbl("t1")))

  /** From the literal anchor, and from the row it rises to, the member yields the same levels. */
  lemma JoinedMemberFields(fs: FieldList)
    requires fs == Row(NONE, NONE, NONE, NONE) || fs == Row(FULL, NONE, PARTIAL, NONE)
    ensures ClassifyQuery(Ctx, JoinedMember, [] + [CteBinding("t1", fs)], []) == Ok(Unnamed(FULL, NONE, PARTIAL, NONE))
  {
    assert [] + [CteBinding("t1", fs)] == [CteBinding("t1", fs)];
    if fs == Row(NONE, NONE, NONE, NONE) {
      JoinedRound(NONE, NONE, NONE, NONE);
    } else {
      JoinedRound(FULL, NONE, PARTIAL, NONE);
    }
  }

  lemma JoinedFixpoint(start: FieldList, next: FieldList)
    requires start == Row(NONE, NONE, NONE, NONE) && next == Row(FULL, NONE, PARTIAL, NONE)
    ensures RecursiveFixpoint(Ctx, "t1", JoinedMember, start, [], []) == Ok(next)
  {
    JoinedMemberFields(start);
    JoinedMemberFields(next);
    UpperRow(NONE, NONE, NONE, NONE, FULL, NONE, PARTIAL, NONE);
    FixpointOfIndependentMember(Ctx, "t1", JoinedMember, start, [], [], Unnamed(FULL, NONE, PARTIAL, NONE));
  }

  /** Each recursive column takes the level of the `t` column it is multiplied with. */
  lemma RecursiveCte()
    ensures Run(JoinedQuery) == Ok(Row(FULL, NONE, PARTIAL, NONE))
  {
    var s0 := Row(NONE, NONE, NONE, NONE);
    LiteralAnchorFields();
    assert Rename(s0, []) == Ok(s0);
    RecursiveBind(Ctx, JoinedQuery.ctes[0], [], [], s0, s0);
    JoinedFixpoint(s0, Row(FULL, NONE, PARTIAL, NONE));
    WithRecursiveT1(JoinedQuery, Row(FULL, NONE, PARTIAL, NONE));
  }
}
