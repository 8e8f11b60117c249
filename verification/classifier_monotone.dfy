/**
  Monotonicity of the classifier in the levels it reads: raising the levels of
  any CTE binding or of any enclosing scope, names unchanged, never lowers a
  result level, never changes a result name, and never turns success into
  failure or back. From this the recursive-CTE fixpoint is the least binding
  above its start that one further round leaves unchanged.
 */
module ClassifierMonotone {
  import opened Wrappers
  import opened MaskingLevels
  import opened Fields
  import opened Catalog
  import opened Syntax
  import opened Scopes
  import opened Joins
  import opened Classifier
  import opened ClassifierLaws

  // The orderings: same shape, levels no stricter.

  predicate RangeBelow(a: Range, b: Range) {
    a.schema == b.schema && a.alias == b.alias && Below(a.fields, b.fields)
  }

  predicate RangesBelow(a: seq<Range>, b: seq<Range>) {
    |a| == |b| && forall i :: 0 <= i < |a| ==> RangeBelow(a[i], b[i])
  }

  predicate ScopeBelow(a: Scope, b: Scope) {
    RangesBelow(a.ranges, b.ranges) && Below(a.columns, b.columns)
  }

  predicate StackBelow(a: seq<Scope>, b: seq<Scope>) {
    |a| == |b| && forall i :: 0 <= i < |a| ==> ScopeBelow(a[i], b[i])
  }

  predicate EnvBelow(a: CteEnv, b: CteEnv) {
    |a| == |b| && forall i :: 0 <= i < |a| ==> a[i].name == b[i].name && Below(a[i].fields, b[i].fields)
  }

  /** Both fail, or both succeed with the first no stricter than the second. */
  predicate FieldsBelow(a: Result<FieldList>, b: Result<FieldList>) {
    (a.Ok? <==> b.Ok?) && (a.Ok? ==> Below(a.value, b.value))
  }

  predicate FieldBelow(a: Result<Field>, b: Result<Field>) {
    (a.Ok? <==> b.Ok?) && (a.Ok? ==> a.value.name == b.value.name && AtMost(a.value.level, b.value.level))
  }

  predicate LevelBelow(a: Result<MaskingLevel>, b: Result<MaskingLevel>) {
    (a.Ok? <==> b.Ok?) && (a.Ok? ==> AtMost(a.value, b.value))
  }

  predicate ScopeResultBelow(a: Result<Scope>, b: Result<Scope>) {
    (a.Ok? <==> b.Ok?) && (a.Ok? ==> ScopeBelow(a.value, b.value))
  }

  // Field lists.

  lemma BelowRefl(a: FieldList)
    ensures Below(a, a)
  {
  }

  lemma BelowTrans(a: FieldList, b: FieldList, c: FieldList)
    requires Below(a, b) && Below(b, c)
    ensures Below(a, c)
  {
  }

  lemma BelowAppend(a1: FieldList, a2: FieldList, b1: FieldList, b2: FieldList)
    requires Below(a1, b1) && Below(a2, b2)
    ensures Below(a1 + a2, b1 + b2)
  {
    forall i | 0 <= i < |a1 + a2|
      ensures (a1 + a2)[i].name == (b1 + b2)[i].name && AtMost((a1 + a2)[i].level, (b1 + b2)[i].level)
    {
      if i >= |a1| {
        assert (a1 + a2)[i] == a2[i - |a1|] && (b1 + b2)[i] == b2[i - |a1|];
      }
    }
  }

  lemma CombineMono(a1: MaskingLevel, a2: MaskingLevel, b1: MaskingLevel, b2: MaskingLevel)
    requires AtMost(a1, a2) && AtMost(b1, b2)
    ensures AtMost(Combine(a1, b1), Combine(a2, b2))
  {
  }

  /** Raising both arguments of a fixpoint step raises its result. */
  lemma UpperMono(a1: FieldList, a2: FieldList, b1: FieldList, b2: FieldList)
    requires |a1| == |b1| && Below(a1, a2) && Below(b1, b2)
    ensures Below(Upper(a1, b1), Upper(a2, b2))
  {
    var u1 := Upper(a1, b1);
    var u2 := Upper(a2, b2);
    forall i | 0 <= i < |u1|
      ensures AtMost(u1[i].level, u2[i].level)
    {
      CombineMono(a1[i].level, a2[i].level, b1[i].level, b2[i].level);
    }
  }

  lemma {:induction false} MaxLevelMono(a: FieldList, b: FieldList)
    requires Below(a, b)
    ensures AtMost(MaxLevel(Levels(a)), MaxLevel(Levels(b)))
  {
    if |a| > 0 {
      MaxLevelMono(a[1..], b[1..]);
      assert Levels(a)[1..] == Levels(a[1..]);
      assert Levels(b)[1..] == Levels(b[1..]);
    }
  }

  lemma RenameMono(a: FieldList, b: FieldList, names: seq<string>)
    requires Below(a, b)
    ensures FieldsBelow(Rename(a, names), Rename(b, names))
  {
  }

  lemma MergeBranchesMono(a1: FieldList, a2: FieldList, b1: FieldList, b2: FieldList)
    requires Below(a1, a2) && Below(b1, b2)
    ensures FieldsBelow(MergeBranches(a1, b1), MergeBranches(a2, b2))
  {
    if |a1| == |b1| {
      UpperMono(a1, a2, b1, b2);
    }
  }

  // Name lookup and scopes.

  lemma {:induction false} LookupNameMono(a: FieldList, b: FieldList, name: string)
    requires Below(a, b)
    ensures LookupName(a, name).Missing? <==> LookupName(b, name).Missing?
    ensures LookupName(a, name).Found? <==> LookupName(b, name).Found?
    ensures LookupName(a, name).Found? ==> AtMost(LookupName(a, name).level, LookupName(b, name).level)
  {
    if |a| > 0 {
      LookupNameMono(a[1..], b[1..], name);
    }
  }

  lemma {:induction false} MatchingRangesMono(a: seq<Range>, b: seq<Range>, schema: Option<string>, table: string)
    requires RangesBelow(a, b)
    ensures RangesBelow(MatchingRanges(a, schema, table), MatchingRanges(b, schema, table))
  {
    if |a| > 0 {
      MatchingRangesMono(a[1..], b[1..], schema, table);
      var ra := MatchingRanges(a[1..], schema, table);
      var rb := MatchingRanges(b[1..], schema, table);
      if Designates(a[0], schema, table) {
        RangesAppend([a[0]], ra, [b[0]], rb);
      }
    }
  }

  lemma ResolveInScopeMono(a: Scope, b: Scope, schema: Option<string>, table: Option<string>, column: string)
    requires ScopeBelow(a, b)
    ensures ResolveInScope(a, schema, table, column).None? <==> ResolveInScope(b, schema, table, column).None?
    ensures ResolveInScope(a, schema, table, column).Some? ==>
      LevelBelow(ResolveInScope(a, schema, table, column).value, ResolveInScope(b, schema, table, column).value)
  {
    match table
    case None =>
      LookupNameMono(a.columns, b.columns, column);
    case Some(t) =>
      MatchingRangesMono(a.ranges, b.ranges, schema, t);
      var ma := MatchingRanges(a.ranges, schema, t);
      var mb := MatchingRanges(b.ranges, schema, t);
      if |ma| == 1 {
        LookupNameMono(ma[0].fields, mb[0].fields, column);
      }
  }

  lemma {:induction false} ResolveColumnMono(a: seq<Scope>, b: seq<Scope>, schema: Option<string>, table: Option<string>, column: string)
    requires StackBelow(a, b)
    ensures LevelBelow(ResolveColumn(a, schema, table, column), ResolveColumn(b, schema, table, column))
  {
    if |a| > 0 {
      var n := |a| - 1;
      ResolveInScopeMono(a[n], b[n], schema, table, column);
      assert StackBelow(a[..n], b[..n]);
      ResolveColumnMono(a[..n], b[..n], schema, table, column);
    }
  }

  lemma {:induction false} LookupCteMono(a: CteEnv, b: CteEnv, name: string)
    requires EnvBelow(a, b)
    ensures LookupCte(a, name).None? <==> LookupCte(b, name).None?
    ensures LookupCte(a, name).Some? ==> Below(LookupCte(a, name).value, LookupCte(b, name).value)
  {
    if |a| > 0 {
      var n := |a| - 1;
      assert EnvBelow(a[..n], b[..n]);
      LookupCteMono(a[..n], b[..n], name);
    }
  }

  lemma EnvExtend(a: CteEnv, b: CteEnv, name: string, fa: FieldList, fb: FieldList)
    requires EnvBelow(a, b) && Below(fa, fb)
    ensures EnvBelow(a + [CteBinding(name, fa)], b + [CteBinding(name, fb)])
  {
  }

  lemma EnvBelowRefl(env: CteEnv)
    ensures EnvBelow(env, env)
  {
  }

  lemma StackBelowRefl(st: seq<Scope>)
    ensures StackBelow(st, st)
  {
  }

  lemma ScopeBelowRefl(sc: Scope)
    ensures ScopeBelow(sc, sc)
  {
  }

  lemma StackExtend(a: seq<Scope>, b: seq<Scope>, sa: Scope, sb: Scope)
    requires StackBelow(a, b) && ScopeBelow(sa, sb)
    ensures StackBelow(a + [sa], b + [sb])
  {
  }

  lemma RangesAppend(a1: seq<Range>, a2: seq<Range>, b1: seq<Range>, b2: seq<Range>)
    requires RangesBelow(a1, b1) && RangesBelow(a2, b2)
    ensures RangesBelow(a1 + a2, b1 + b2)
  {
    forall i | 0 <= i < |a1 + a2|
      ensures RangeBelow((a1 + a2)[i], (b1 + b2)[i])
    {
      if i >= |a1| {
        assert (a1 + a2)[i] == a2[i - |a1|] && (b1 + b2)[i] == b2[i - |a1|];
      }
    }
  }

  // Joins.

  lemma {:induction false} WithoutMono(a: FieldList, b: FieldList, names: seq<string>)
    requires Below(a, b)
    ensures Below(Without(a, names), Without(b, names))
  {
    if |a| > 0 {
      WithoutMono(a[1..], b[1..], names);
      if a[0].name !in names {
        BelowAppend([a[0]], Without(a[1..], names), [b[0]], Without(b[1..], names));
      }
    }
  }

  lemma {:induction false} MergedColumnsMono(l1: FieldList, l2: FieldList, r1: FieldList, r2: FieldList, names: seq<string>)
    requires Below(l1, l2) && Below(r1, r2)
    ensures FieldsBelow(MergedColumns(l1, r1, names), MergedColumns(l2, r2, names))
  {
    if |names| > 0 {
      LookupNameMono(l1, l2, names[0]);
      LookupNameMono(r1, r2, names[0]);
      MergedColumnsMono(l1, l2, r1, r2, names[1..]);
      var a := MergedColumns(l1, r1, names[1..]);
      var b := MergedColumns(l2, r2, names[1..]);
      if LookupName(l1, names[0]).Found? && LookupName(r1, names[0]).Found? && a.Ok? {
        CombineMono(LookupName(l1, names[0]).level, LookupName(l2, names[0]).level,
                    LookupName(r1, names[0]).level, LookupName(r2, names[0]).level);
        var h1 := [Field(names[0], Combine(LookupName(l1, names[0]).level, LookupName(r1, names[0]).level))];
        var h2 := [Field(names[0], Combine(LookupName(l2, names[0]).level, LookupName(r2, names[0]).level))];
        BelowAppend(h1, a.value, h2, b.value);
      }
    }
  }

  lemma {:induction false} BelowNames(a: FieldList, b: FieldList)
    requires Below(a, b)
    ensures Names(a) == Names(b)
  {
  }

  lemma JoinColumnsMono(l1: FieldList, l2: FieldList, r1: FieldList, r2: FieldList, cond: JoinCond)
    requires Below(l1, l2) && Below(r1, r2)
    ensures FieldsBelow(JoinColumns(l1, r1, cond), JoinColumns(l2, r2, cond))
  {
    var names := match cond
      case Using(ns) => ns
      case _ => CommonNames(l1, r1);
    if cond.Natural? {
      BelowNames(l1, l2);
      BelowNames(r1, r2);
      assert CommonNames(l1, r1) == CommonNames(l2, r2);
    }
    if cond.On? {
      BelowAppend(l1, r1, l2, r2);
    } else {
      UsingJoinMono(l1, l2, r1, r2, names);
    }
  }

  lemma UsingJoinMono(l1: FieldList, l2: FieldList, r1: FieldList, r2: FieldList, names: seq<string>)
    requires Below(l1, l2) && Below(r1, r2)
    ensures FieldsBelow(UsingJoin(l1, r1, names), UsingJoin(l2, r2, names))
  {
    MergedColumnsMono(l1, l2, r1, r2, names);
    var m1 := MergedColumns(l1, r1, names);
    var m2 := MergedColumns(l2, r2, names);
    if Distinct(names) && m1.Ok? {
      var w1 := Without(l1, names) + Without(r1, names);
      var w2 := Without(l2, names) + Without(r2, names);
      WithoutMono(l1, l2, names);
      WithoutMono(r1, r2, names);
      BelowAppend(Without(l1, names), Without(r1, names), Without(l2, names), Without(r2, names));
      BelowAppend(m1.value, w1, m2.value, w2);
    }
    UsingJoinResult(l1, r1, names);
    UsingJoinResult(l2, r2, names);
  }

  // The classifier, by mutual induction following its own recursion.

  lemma ClassifyQueryMono(ctx: Context, q: Query, e1: CteEnv, e2: CteEnv, o1: seq<Scope>, o2: seq<Scope>)
    requires EnvBelow(e1, e2) && StackBelow(o1, o2)
    ensures FieldsBelow(ClassifyQuery(ctx, q, e1, o1), ClassifyQuery(ctx, q, e2, o2))
    decreases q, 2, 0
  {
    match q
    case Select(_, _) =>
      ResolveFromListMono(ctx, q, 0, e1, e2, o1, o2);
      var s1 := ResolveFromList(ctx, q, 0, e1, o1);
      var s2 := ResolveFromList(ctx, q, 0, e2, o2);
      if s1.Ok? {
        StackExtend(o1, o2, s1.value, s2.value);
        ClassifyTargetsMono(ctx, q, 0, e1, e2, o1 + [s1.value], o2 + [s2.value]);
      }
    case SetOp(_, _, left, right) =>
      ClassifyQueryMono(ctx, left, e1, e2, o1, o2);
      ClassifyQueryMono(ctx, right, e1, e2, o1, o2);
      var l1 := ClassifyQuery(ctx, left, e1, o1);
      var r1 := ClassifyQuery(ctx, right, e1, o1);
      if l1.Ok? && r1.Ok? {
        MergeBranchesMono(l1.value, ClassifyQuery(ctx, left, e2, o2).value, r1.value, ClassifyQuery(ctx, right, e2, o2).value);
      }
    case With(_, _, _) =>
      ClassifyWithMono(ctx, q, 0, e1, e2, o1, o2);
    case Limit(body, _) =>
      ClassifyQueryMono(ctx, body, e1, e2, o1, o2);
  }

  lemma ClassifyWithMono(ctx: Context, q: Query, i: nat, e1: CteEnv, e2: CteEnv, o1: seq<Scope>, o2: seq<Scope>)
    requires q.With? && i <= |q.ctes|
    requires EnvBelow(e1, e2) && StackBelow(o1, o2)
    ensures FieldsBelow(ClassifyWith(ctx, q, i, e1, o1), ClassifyWith(ctx, q, i, e2, o2))
    decreases q, 1, |q.ctes| - i
  {
    if i == |q.ctes| {
      ClassifyQueryMono(ctx, q.body, e1, e2, o1, o2);
    } else {
      BindCteMono(ctx, q.ctes[i], q.recursive, e1, e2, o1, o2);
      var b1 := BindCte(ctx, q.ctes[i], q.recursive, e1, o1);
      var b2 := BindCte(ctx, q.ctes[i], q.recursive, e2, o2);
      if b1.Ok? {
        EnvExtend(e1, e2, q.ctes[i].name, b1.value, b2.value);
        ClassifyWithMono(ctx, q, i + 1, e1 + [CteBinding(q.ctes[i].name, b1.value)], e2 + [CteBinding(q.ctes[i].name, b2.value)], o1, o2);
      }
    }
  }

  lemma BindCteMono(ctx: Context, cte: Cte, recursive: bool, e1: CteEnv, e2: CteEnv, o1: seq<Scope>, o2: seq<Scope>)
    requires EnvBelow(e1, e2) && StackBelow(o1, o2)
    ensures FieldsBelow(BindCte(ctx, cte, recursive, e1, o1), BindCte(ctx, cte, recursive, e2, o2))
    decreases cte, 2, 0
  {
    if recursive && cte.body.SetOp? && cte.body.op == Union {
      ClassifyQueryMono(ctx, cte.body.left, e1, e2, o1, o2);
      var a1 := ClassifyQuery(ctx, cte.body.left, e1, o1);
      var a2 := ClassifyQuery(ctx, cte.body.left, e2, o2);
      if a1.Ok? {
        RenameMono(a1.value, a2.value, cte.columnAliases);
        var s1 := Rename(a1.value, cte.columnAliases);
        var s2 := Rename(a2.value, cte.columnAliases);
        if s1.Ok? {
          FixpointMono(ctx, cte.name, cte.body.right, s1.value, s2.value, e1, e2, o1, o2);
        }
      }
    } else {
      ClassifyQueryMono(ctx, cte.body, e1, e2, o1, o2);
      var f1 := ClassifyQuery(ctx, cte.body, e1, o1);
      if f1.Ok? {
        RenameMono(f1.value, ClassifyQuery(ctx, cte.body, e2, o2).value, cte.columnAliases);
      }
    }
  }

  /**
    Fixpoints from lower starts, in lower environments, are lower: the higher
    fixpoint is stable, so it bounds every step of the lower iteration.
   */
  lemma FixpointMono(ctx: Context, name: string, member: Query, c1: FieldList, c2: FieldList,
                     e1: CteEnv, e2: CteEnv, o1: seq<Scope>, o2: seq<Scope>)
    requires Below(c1, c2) && EnvBelow(e1, e2) && StackBelow(o1, o2)
    ensures FieldsBelow(RecursiveFixpoint(ctx, name, member, c1, e1, o1), RecursiveFixpoint(ctx, name, member, c2, e2, o2))
    decreases member, 5, 0
  {
    FixpointSucceeds(ctx, name, member, c1, e1, o1);
    FixpointSucceeds(ctx, name, member, c2, e2, o2);
    EnvExtend(e1, e2, name, c1, c2);
    ClassifyQueryMono(ctx, member, e1 + [CteBinding(name, c1)], e2 + [CteBinding(name, c2)], o1, o2);
    var r2 := RecursiveFixpoint(ctx, name, member, c2, e2, o2);
    if r2.Ok? {
      FixpointIsStable(ctx, name, member, c2, e2, o2);
      BelowTrans(c1, c2, r2.value);
      FixpointBounded(ctx, name, member, c1, r2.value, e1, e2, o1, o2);
    }
  }

  /** The fixpoint succeeds exactly when its first round does and keeps the width. */
  lemma FixpointSucceeds(ctx: Context, name: string, member: Query, c: FieldList, env: CteEnv, outer: seq<Scope>)
    ensures RecursiveFixpoint(ctx, name, member, c, env, outer).Ok? <==>
      ClassifyQuery(ctx, member, env + [CteBinding(name, c)], outer).Ok?
      && |ClassifyQuery(ctx, member, env + [CteBinding(name, c)], outer).value| == |c|
    decreases member, 4, Potential(c)
  {
    var round := ClassifyQuery(ctx, member, env + [CteBinding(name, c)], outer);
    if round.Ok? && |round.value| == |c| {
      var next := Upper(c, round.value);
      UpperLowersPotential(c, round.value);
      if next != c {
        UpperIsAbove(c, round.value);
        EnvBelowRefl(env);
        EnvExtend(env, env, name, c, next);
        StackBelowRefl(outer);
        ClassifyQueryMono(ctx, member, env + [CteBinding(name, c)], env + [CteBinding(name, next)], outer, outer);
        FixpointSucceeds(ctx, name, member, next, env, outer);
      }
    }
  }

  /**
    Any binding `f` above `c1` that one round (in a higher environment) leaves
    unchanged bounds the fixpoint from `c1`.
   */
  lemma FixpointBounded(ctx: Context, name: string, member: Query, c1: FieldList, f: FieldList,
                        e1: CteEnv, e2: CteEnv, o1: seq<Scope>, o2: seq<Scope>)
    requires Below(c1, f) && EnvBelow(e1, e2) && StackBelow(o1, o2)
    requires ClassifyQuery(ctx, member, e2 + [CteBinding(name, f)], o2).Ok?
    requires |ClassifyQuery(ctx, member, e2 + [CteBinding(name, f)], o2).value| == |f|
    requires Upper(f, ClassifyQuery(ctx, member, e2 + [CteBinding(name, f)], o2).value) == f
    ensures RecursiveFixpoint(ctx, name, member, c1, e1, o1).Ok?
    ensures Below(RecursiveFixpoint(ctx, name, member, c1, e1, o1).value, f)
    decreases member, 4, Potential(c1)
  {
    EnvExtend(e1, e2, name, c1, f);
    ClassifyQueryMono(ctx, member, e1 + [CteBinding(name, c1)], e2 + [CteBinding(name, f)], o1, o2);
    var round1 := ClassifyQuery(ctx, member, e1 + [CteBinding(name, c1)], o1).value;
    var roundF := ClassifyQuery(ctx, member, e2 + [CteBinding(name, f)], o2).value;
    var next := Upper(c1, round1);
    UpperMono(c1, f, round1, roundF);
    UpperLowersPotential(c1, round1);
    if next != c1 {
      FixpointBounded(ctx, name, member, next, f, e1, e2, o1, o2);
    }
  }

  lemma ResolveFromListMono(ctx: Context, q: Query, i: nat, e1: CteEnv, e2: CteEnv, o1: seq<Scope>, o2: seq<Scope>)
    requires q.Select? && i <= |q.from|
    requires EnvBelow(e1, e2) && StackBelow(o1, o2)
    ensures ScopeResultBelow(ResolveFromList(ctx, q, i, e1, o1), ResolveFromList(ctx, q, i, e2, o2))
    decreases q, 1, |q.from| - i
  {
    if i < |q.from| {
      ResolveFromItemMono(ctx, q.from[i], e1, e2, o1, o2);
      ResolveFromListMono(ctx, q, i + 1, e1, e2, o1, o2);
      var f1 := ResolveFromItem(ctx, q.from[i], e1, o1);
      var f2 := ResolveFromItem(ctx, q.from[i], e2, o2);
      var r1 := ResolveFromList(ctx, q, i + 1, e1, o1);
      var r2 := ResolveFromList(ctx, q, i + 1, e2, o2);
      if f1.Ok? && r1.Ok? {
        RangesAppend(f1.value.ranges, r1.value.ranges, f2.value.ranges, r2.value.ranges);
        BelowAppend(f1.value.columns, r1.value.columns, f2.value.columns, r2.value.columns);
      }
    }
  }

  lemma ResolveFromItemMono(ctx: Context, item: FromItem, e1: CteEnv, e2: CteEnv, o1: seq<Scope>, o2: seq<Scope>)
    requires EnvBelow(e1, e2) && StackBelow(o1, o2)
    ensures ScopeResultBelow(ResolveFromItem(ctx, item, e1, o1), ResolveFromItem(ctx, item, e2, o2))
    decreases item, 2, 0
  {
    match item
    case TableRef(schema, name, alias) =>
      TableRefMono(ctx, schema, name, alias, e1, e2, o1, o2);
    case Derived(sub, alias, columnAliases) =>
      ClassifyQueryMono(ctx, sub, e1, e2, o1, o2);
      var f1 := ClassifyQuery(ctx, sub, e1, o1);
      if f1.Ok? {
        RenameMono(f1.value, ClassifyQuery(ctx, sub, e2, o2).value, columnAliases);
      }
    case Join(left, right, cond) =>
      ResolveFromItemMono(ctx, left, e1, e2, o1, o2);
      ResolveFromItemMono(ctx, right, e1, e2, o1, o2);
      var l1 := ResolveFromItem(ctx, left, e1, o1);
      var l2 := ResolveFromItem(ctx, left, e2, o2);
      var r1 := ResolveFromItem(ctx, right, e1, o1);
      var r2 := ResolveFromItem(ctx, right, e2, o2);
      if l1.Ok? && r1.Ok? {
        JoinColumnsMono(l1.value.columns, l2.value.columns, r1.value.columns, r2.value.columns, cond);
        RangesAppend(l1.value.ranges, r1.value.ranges, l2.value.ranges, r2.value.ranges);
      }
  }

  lemma TableRefMono(ctx: Context, schema: Option<string>, name: string, alias: Option<string>,
                     e1: CteEnv, e2: CteEnv, o1: seq<Scope>, o2: seq<Scope>)
    requires EnvBelow(e1, e2)
    ensures ScopeResultBelow(ResolveFromItem(ctx, TableRef(schema, name, alias), e1, o1),
                             ResolveFromItem(ctx, TableRef(schema, name, alias), e2, o2))
  {
    LookupCteMono(e1, e2, name);
    if schema.None? && LookupCte(e1, name).Some? {
      var f1, f2 := LookupCte(e1, name).value, LookupCte(e2, name).value;
      assert RangesBelow([Range(None, Some(alias.GetOr(name)), f1)], [Range(None, Some(alias.GetOr(name)), f2)]);
    } else {
      var r := ResolveFromItem(ctx, TableRef(schema, name, alias), e1, o1);
      assert r == ResolveFromItem(ctx, TableRef(schema, name, alias), e2, o2);
      if r.Ok? {
        ScopeBelowRefl(r.value);
      }
    }
  }

  lemma ClassifyTargetsMono(ctx: Context, q: Query, i: nat, e1: CteEnv, e2: CteEnv, s1: seq<Scope>, s2: seq<Scope>)
    requires q.Select? && i <= |q.targets|
    requires EnvBelow(e1, e2) && StackBelow(s1, s2)
    ensures FieldsBelow(ClassifyTargets(ctx, q, i, e1, s1), ClassifyTargets(ctx, q, i, e2, s2))
    decreases q, 1, |q.targets| - i
  {
    if i < |q.targets| {
      ClassifyTargetMono(ctx, q.targets[i], e1, e2, s1, s2);
      ClassifyTargetsMono(ctx, q, i + 1, e1, e2, s1, s2);
      var f1 := ClassifyTarget(ctx, q.targets[i], e1, s1);
      var r1 := ClassifyTargets(ctx, q, i + 1, e1, s1);
      if f1.Ok? && r1.Ok? {
        BelowAppend(f1.value, r1.value, ClassifyTarget(ctx, q.targets[i], e2, s2).value, ClassifyTargets(ctx, q, i + 1, e2, s2).value);
      }
    }
  }

  lemma ClassifyTargetMono(ctx: Context, t: Target, e1: CteEnv, e2: CteEnv, s1: seq<Scope>, s2: seq<Scope>)
    requires EnvBelow(e1, e2) && StackBelow(s1, s2)
    ensures FieldsBelow(ClassifyTarget(ctx, t, e1, s1), ClassifyTarget(ctx, t, e2, s2))
    decreases t, 2, 0
  {
    match t
    case Star(schema, table) =>
      StarTargetMono(ctx, schema, table, e1, e2, s1, s2);
    case Item(e, alias) =>
      ClassifyExprMono(ctx, e, e1, e2, s1, s2);
  }

  lemma StarTargetMono(ctx: Context, schema: Option<string>, table: Option<string>, e1: CteEnv, e2: CteEnv, s1: seq<Scope>, s2: seq<Scope>)
    requires StackBelow(s1, s2)
    ensures FieldsBelow(ClassifyTarget(ctx, Star(schema, table), e1, s1), ClassifyTarget(ctx, Star(schema, table), e2, s2))
  {
    if |s1| > 0 {
      var sc1, sc2 := s1[|s1| - 1], s2[|s2| - 1];
      assert ScopeBelow(sc1, sc2);
      if table.Some? {
        MatchingRangesMono(sc1.ranges, sc2.ranges, schema, table.value);
        var m1 := MatchingRanges(sc1.ranges, schema, table.value);
        var m2 := MatchingRanges(sc2.ranges, schema, table.value);
        if |m1| == 1 {
          assert RangeBelow(m1[0], m2[0]);
        }
      }
    }
  }

  lemma ClassifyExprMono(ctx: Context, e: Expr, e1: CteEnv, e2: CteEnv, s1: seq<Scope>, s2: seq<Scope>)
    requires EnvBelow(e1, e2) && StackBelow(s1, s2)
    ensures FieldBelow(ClassifyExpr(ctx, e, e1, s1), ClassifyExpr(ctx, e, e2, s2))
    decreases e, 2, 0
  {
    match e
    case Literal(_) =>
    case ColumnRef(schema, table, column) =>
      ResolveColumnMono(s1, s2, schema, table, column);
    case FuncCall(_, _) =>
      ArgsLevelMono(ctx, e, 0, e1, e2, s1, s2);
    case Operator(_) =>
      ArgsLevelMono(ctx, e, 0, e1, e2, s1, s2);
    case SubLink(sub) =>
      ClassifyQueryMono(ctx, sub, e1, e2, s1, s2);
      var f1 := ClassifyQuery(ctx, sub, e1, s1);
      if f1.Ok? {
        MaxLevelMono(f1.value, ClassifyQuery(ctx, sub, e2, s2).value);
      }
  }

  lemma ArgsLevelMono(ctx: Context, e: Expr, i: nat, e1: CteEnv, e2: CteEnv, s1: seq<Scope>, s2: seq<Scope>)
    requires (e.FuncCall? || e.Operator?) && i <= |e.args|
    requires EnvBelow(e1, e2) && StackBelow(s1, s2)
    ensures LevelBelow(ArgsLevel(ctx, e, i, e1, s1), ArgsLevel(ctx, e, i, e2, s2))
    decreases e, 1, |e.args| - i
  {
    if i < |e.args| {
      ClassifyExprMono(ctx, e.args[i], e1, e2, s1, s2);
      ArgsLevelMono(ctx, e, i + 1, e1, e2, s1, s2);
      ArgsLevelStep(ctx, e, i, e1, s1);
      ArgsLevelStep(ctx, e, i, e2, s2);
      var a1 := ClassifyExpr(ctx, e.args[i], e1, s1);
      var r1 := ArgsLevel(ctx, e, i + 1, e1, s1);
      if a1.Ok? && r1.Ok? {
        CombineMono(a1.value.level, ClassifyExpr(ctx, e.args[i], e2, s2).value.level, r1.value, ArgsLevel(ctx, e, i + 1, e2, s2).value);
      }
    }
  }

  // What the fixpoint is.

  /**
    The recursive-CTE result is the least binding above the start that one
    more round leaves unchanged: every such binding `f` is at least as strict,
    position by position, as the result. With `FixpointIsStable` and
    `Below(start, result)` this pins the result down: it is the least upper
    bound of the anchor and of every round of the member.
   */
  lemma FixpointIsLeast(ctx: Context, name: string, member: Query, start: FieldList, env: CteEnv, outer: seq<Scope>, f: FieldList)
    requires Below(start, f)
    requires ClassifyQuery(ctx, member, env + [CteBinding(name, f)], outer).Ok?
    requires |ClassifyQuery(ctx, member, env + [CteBinding(name, f)], outer).value| == |f|
    requires Upper(f, ClassifyQuery(ctx, member, env + [CteBinding(name, f)], outer).value) == f
    ensures RecursiveFixpoint(ctx, name, member, start, env, outer).Ok?
    ensures Below(RecursiveFixpoint(ctx, name, member, start, env, outer).value, f)
  {
    EnvBelowRefl(env);
    StackBelowRefl(outer);
    FixpointBounded(ctx, name, member, start, f, env, env, outer, outer);
  }

  /** Raising the levels of any CTE binding never lowers a query's result, nor changes its names or its success. */
  lemma RaisingBindingRaisesResult(ctx: Context, q: Query, env: CteEnv, k: nat, raised: FieldList, outer: seq<Scope>)
    requires k < |env| && Below(env[k].fields, raised)
    ensures FieldsBelow(ClassifyQuery(ctx, q, env, outer), ClassifyQuery(ctx, q, env[k := CteBinding(env[k].name, raised)], outer))
  {
    StackBelowRefl(outer);
    ClassifyQueryMono(ctx, q, env, env[k := CteBinding(env[k].name, raised)], outer, outer);
  }
}
