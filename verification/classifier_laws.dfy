/**
  Laws of the classifier that hold for every catalog and every query: how
  select lists, FROM lists and operands compose, the wildcard law, set-operation
  and pass-through laws, qualified-name equivalence, and the recursive-CTE
  fixpoint's stability.
 */
module ClassifierLaws {
  import opened Wrappers
  import opened MaskingLevels
  import opened Fields
  import opened Catalog
  import opened Syntax
  import opened Scopes
  import opened Joins
  import opened Classifier

  function Flatten(parts: seq<FieldList>): (r: FieldList)
    ensures |parts| == 1 ==> r == parts[0]
  {
    if |parts| == 0 then [] else parts[0] + Flatten(parts[1..])
  }

  /** A select list's fields are its entries' fields, concatenated in order. */
  lemma {:induction false} TargetsCompose(ctx: Context, q: Query, i: nat, env: CteEnv, stack: seq<Scope>, outs: seq<FieldList>)
    requires q.Select? && i <= |q.targets| && |outs| == |q.targets|
    requires forall k :: i <= k < |q.targets| ==> ClassifyTarget(ctx, q.targets[k], env, stack) == Ok(outs[k])
    ensures ClassifyTargets(ctx, q, i, env, stack) == Ok(Flatten(outs[i..]))
    decreases |q.targets| - i
  {
    if i < |q.targets| {
      TargetsCompose(ctx, q, i + 1, env, stack, outs);
      assert outs[i..][1..] == outs[i + 1..];
    }
  }

  /** The scope a FROM list builds: every item's ranges and columns, concatenated in order. */
  lemma {:induction false} FromListCompose(ctx: Context, q: Query, i: nat, env: CteEnv, outer: seq<Scope>, items: seq<Scope>)
    requires q.Select? && i <= |q.from| && |items| == |q.from|
    requires forall k :: i <= k < |q.from| ==> ResolveFromItem(ctx, q.from[k], env, outer) == Ok(items[k])
    ensures ResolveFromList(ctx, q, i, env, outer) == Ok(Merge(items[i..]))
    decreases |q.from| - i
  {
    if i < |q.from| {
      FromListCompose(ctx, q, i + 1, env, outer, items);
      assert items[i..][1..] == items[i + 1..];
    }
  }

  /** Scopes side by side, as a FROM list (an implicit cross join) places them. */
  function Merge(items: seq<Scope>): (r: Scope)
    ensures |items| == 1 ==> r == items[0]
  {
    if |items| == 0 then Scope([], [])
    else
      var rest := Merge(items[1..]);
      Scope(items[0].ranges + rest.ranges, items[0].columns + rest.columns)
  }

  /** A call's or operator's level is the maximum of its operands' levels. */
  lemma {:induction false} ArgsCompose(ctx: Context, e: Expr, i: nat, env: CteEnv, stack: seq<Scope>, levels: seq<MaskingLevel>)
    requires (e.FuncCall? || e.Operator?) && i <= |e.args| && |levels| == |e.args|
    requires forall k :: i <= k < |e.args| ==> ClassifyExpr(ctx, e.args[k], env, stack).Ok?
    requires forall k :: i <= k < |e.args| ==> ClassifyExpr(ctx, e.args[k], env, stack).value.level == levels[k]
    ensures ArgsLevel(ctx, e, i, env, stack) == Ok(MaxLevel(levels[i..]))
    decreases |e.args| - i
  {
    if i < |e.args| {
      ArgsCompose(ctx, e, i + 1, env, stack, levels);
      assert levels[i..][1..] == levels[i + 1..];
    }
  }

  /** A select block classifies its select list against its own FROM scope, innermost. */
  lemma SelectCompose(ctx: Context, q: Query, env: CteEnv, outer: seq<Scope>, sc: Scope, out: FieldList)
    requires q.Select?
    requires ResolveFromList(ctx, q, 0, env, outer) == Ok(sc)
    requires ClassifyTargets(ctx, q, 0, env, outer + [sc]) == Ok(out)
    ensures ClassifyQuery(ctx, q, env, outer) == Ok(out)
  {
  }

  /**
    Wildcard law: `SELECT *` over one catalog table (not shadowed by a CTE)
    yields that table's columns, in declaration order, names and levels unchanged.
   */
  lemma WildcardLaw(ctx: Context, schema: Option<string>, name: string, alias: Option<string>, env: CteEnv, outer: seq<Scope>)
    requires schema.Some? || LookupCte(env, name).None?
    requires ResolveTable(ctx.catalog, ctx.defaultDatabase, schema, name).Ok?
    ensures ClassifyQuery(ctx, Select([Star(None, None)], [TableRef(schema, name, alias)]), env, outer)
            == Ok(TableFields(ResolveTable(ctx.catalog, ctx.defaultDatabase, schema, name).value.1.columnList))
  {
    var q := Select([Star(None, None)], [TableRef(schema, name, alias)]);
    var found := ResolveTable(ctx.catalog, ctx.defaultDatabase, schema, name).value;
    var fs := TableFields(found.1.columnList);
    var sc := Scope([Range(if alias.Some? then None else Some(found.0), Some(alias.GetOr(name)), fs)], fs);
    assert ResolveFromItem(ctx, q.from[0], env, outer) == Ok(sc);
    FromListCompose(ctx, q, 0, env, outer, [sc]);
    TargetsCompose(ctx, q, 0, env, outer + [sc], [fs]);
  }

  /** Combining a query with itself by a set operation changes nothing, errors included. */
  lemma SelfSetOp(ctx: Context, op: SetOpKind, all: bool, q: Query, env: CteEnv, outer: seq<Scope>)
    ensures ClassifyQuery(ctx, SetOp(op, all, q, q), env, outer) == ClassifyQuery(ctx, q, env, outer)
  {
    var r := ClassifyQuery(ctx, q, env, outer);
    if r.Ok? {
      MergeSelf(r.value);
    }
  }

  /** A trailing LIMIT never affects classification. */
  lemma LimitIgnored(ctx: Context, q: Query, count: nat, env: CteEnv, outer: seq<Scope>)
    ensures ClassifyQuery(ctx, Limit(q, count), env, outer) == ClassifyQuery(ctx, q, env, outer)
  {
  }

  /** `SELECT * FROM <name>` where `name` is bound as a CTE to `fs` yields `fs` itself. */
  lemma StarFromCte(ctx: Context, name: string, fs: FieldList, env: CteEnv, outer: seq<Scope>)
    requires LookupCte(env, name) == Some(fs)
    ensures ClassifyQuery(ctx, Select([Star(None, None)], [TableRef(None, name, None)]), env, outer) == Ok(fs)
  {
    var q := Select([Star(None, None)], [TableRef(None, name, None)]);
    var sc := Scope([Range(None, Some(name), fs)], fs);
    assert ResolveFromItem(ctx, q.from[0], env, outer) == Ok(sc);
    FromListCompose(ctx, q, 0, env, outer, [sc]);
    TargetsCompose(ctx, q, 0, env, outer + [sc], [fs]);
  }

  /**
    A non-recursive CTE passes its body's fields through, renamed by position
    by its column list when it has one: `WITH n(cols) AS (b) SELECT * FROM n`
    is `b` renamed.
   */
  lemma CtePassThrough(ctx: Context, name: string, columnAliases: seq<string>, body: Query, env: CteEnv, outer: seq<Scope>)
    ensures ClassifyQuery(ctx, With(false, [Cte(name, columnAliases, body)], Select([Star(None, None)], [TableRef(None, name, None)])), env, outer)
            == (match ClassifyQuery(ctx, body, env, outer)
                case Err(m) => Err(m)
                case Ok(fs) => Rename(fs, columnAliases))
  {
    var q := With(false, [Cte(name, columnAliases, body)], Select([Star(None, None)], [TableRef(None, name, None)]));
    var b := BindCte(ctx, q.ctes[0], false, env, outer);
    if b.Ok? {
      var env' := env + [CteBinding(name, b.value)];
      assert LookupCte(env', name) == Some(b.value);
      StarFromCte(ctx, name, b.value, env', outer);
      assert ClassifyWith(ctx, q, 1, env', outer) == Ok(b.value);
    }
  }

  /** A derived table passes its subquery's fields through, renamed by its column list. */
  lemma DerivedPassThrough(ctx: Context, sub: Query, alias: Option<string>, columnAliases: seq<string>, env: CteEnv, outer: seq<Scope>)
    ensures ClassifyQuery(ctx, Select([Star(None, None)], [Derived(sub, alias, columnAliases)]), env, outer)
            == (match ClassifyQuery(ctx, sub, env, outer)
                case Err(m) => Err(m)
                case Ok(fs) => Rename(fs, columnAliases))
  {
    var q := Select([Star(None, None)], [Derived(sub, alias, columnAliases)]);
    var r := ClassifyQuery(ctx, sub, env, outer);
    if r.Ok? && Rename(r.value, columnAliases).Ok? {
      var fs := Rename(r.value, columnAliases).value;
      var sc := Scope([Range(None, alias, fs)], fs);
      FromListCompose(ctx, q, 0, env, outer, [sc]);
      TargetsCompose(ctx, q, 0, env, outer + [sc], [fs]);
    } else {
      assert ResolveFromItem(ctx, q.from[0], env, outer).Err?;
      assert ResolveFromList(ctx, q, 0, env, outer).Err?;
    }
  }

  /** A comma-separated FROM list of two items is their cross join. */
  lemma CommaIsCrossJoin(ctx: Context, targets: seq<Target>, a: FromItem, b: FromItem, env: CteEnv, outer: seq<Scope>)
    ensures ResolveFromList(ctx, Select(targets, [a, b]), 0, env, outer) == ResolveFromItem(ctx, Join(a, b, On), env, outer)
  {
    var q := Select(targets, [a, b]);
    var ra := ResolveFromItem(ctx, a, env, outer);
    var rb := ResolveFromItem(ctx, b, env, outer);
    if ra.Ok? && rb.Ok? {
      FromListCompose(ctx, q, 0, env, outer, [ra.value, rb.value]);
      assert Merge([ra.value, rb.value][1..]) == rb.value;
    }
  }

  /** Qualifying a column by its table, or by schema and table, designates the same column. */
  lemma QualifiedRefsAgree(ctx: Context, schema: string, table: string, fs: FieldList, column: string, env: CteEnv, outer: seq<Scope>)
    requires !LookupName(fs, column).Missing?
    ensures var stack := outer + [Scope([Range(Some(schema), Some(table), fs)], fs)];
            && ClassifyExpr(ctx, ColumnRef(None, Some(table), column), env, stack) == ClassifyExpr(ctx, ColumnRef(None, None, column), env, stack)
            && ClassifyExpr(ctx, ColumnRef(Some(schema), Some(table), column), env, stack) == ClassifyExpr(ctx, ColumnRef(None, None, column), env, stack)
  {
    var rg := Range(Some(schema), Some(table), fs);
    var sc := Scope([rg], fs);
    var stack := outer + [sc];
    assert MatchingRanges([rg], None, table) == [rg];
    assert MatchingRanges([rg], Some(schema), table) == [rg];
    assert ResolveInScope(sc, None, Some(table), column) == ResolveInScope(sc, None, None, column);
    assert ResolveInScope(sc, Some(schema), Some(table), column) == ResolveInScope(sc, None, None, column);
  }

  /**
    A reference that the innermost scope cannot place is resolved in the
    enclosing scopes, exactly as there: this is how a correlated subquery sees
    the outer query's columns.
   */
  lemma OuterReference(outer: seq<Scope>, inner: Scope, schema: Option<string>, table: Option<string>, column: string)
    requires ResolveInScope(inner, schema, table, column).None?
    ensures ResolveColumn(outer + [inner], schema, table, column) == ResolveColumn(outer, schema, table, column)
  {
    assert (outer + [inner])[..|outer|] == outer;
  }

  /** An alias replaces the default name and never changes the level. */
  lemma AliasKeepsLevel(ctx: Context, e: Expr, alias: string, env: CteEnv, stack: seq<Scope>)
    ensures ClassifyTarget(ctx, Item(e, Some(alias)), env, stack).Ok? <==> ClassifyExpr(ctx, e, env, stack).Ok?
    ensures ClassifyExpr(ctx, e, env, stack).Ok? ==>
      ClassifyTarget(ctx, Item(e, Some(alias)), env, stack) == Ok([Field(alias, ClassifyExpr(ctx, e, env, stack).value.level)])
    ensures ClassifyExpr(ctx, e, env, stack).Ok? ==>
      ClassifyTarget(ctx, Item(e, None), env, stack) == Ok([ClassifyExpr(ctx, e, env, stack).value])
  {
  }

  /**
    Default naming: a column reference is named by its column, a function call
    by its lower-case function name, a literal or operator by `?column?`; a
    literal is always NONE.
   */
  lemma DefaultNaming(ctx: Context, e: Expr, env: CteEnv, stack: seq<Scope>)
    requires ClassifyExpr(ctx, e, env, stack).Ok?
    ensures e.ColumnRef? ==> ClassifyExpr(ctx, e, env, stack).value.name == e.column
    ensures e.FuncCall? ==> ClassifyExpr(ctx, e, env, stack).value.name == LowerAscii(e.funcName)
    ensures e.Operator? || e.Literal? ==> ClassifyExpr(ctx, e, env, stack).value.name == UNNAMED
    ensures e.Literal? ==> ClassifyExpr(ctx, e, env, stack).value.level == NONE
  {
  }

  /**
    The recursive-CTE fixpoint is stable: one further round with the CTE bound
    to the result raises no level.
   */
  lemma {:induction false} FixpointIsStable(ctx: Context, name: string, member: Query, current: FieldList, env: CteEnv, outer: seq<Scope>)
    requires RecursiveFixpoint(ctx, name, member, current, env, outer).Ok?
    ensures var fs := RecursiveFixpoint(ctx, name, member, current, env, outer).value;
            && ClassifyQuery(ctx, member, env + [CteBinding(name, fs)], outer).Ok?
            && |ClassifyQuery(ctx, member, env + [CteBinding(name, fs)], outer).value| == |fs|
            && Upper(fs, ClassifyQuery(ctx, member, env + [CteBinding(name, fs)], outer).value) == fs
    decreases Potential(current)
  {
    var round := ClassifyQuery(ctx, member, env + [CteBinding(name, current)], outer).value;
    var next := Upper(current, round);
    UpperLowersPotential(current, round);
    if next != current {
      FixpointIsStable(ctx, name, member, next, env, outer);
    }
  }

  /**
    When the recursive member does not depend on the CTE's binding (it never
    names the CTE), the fixpoint is reached after one round and is the plain
    position-wise union of the start list and the member's fields.
   */
  lemma FixpointOfIndependentMember(ctx: Context, name: string, member: Query, current: FieldList, env: CteEnv, outer: seq<Scope>, fs: FieldList)
    requires |fs| == |current|
    requires ClassifyQuery(ctx, member, env + [CteBinding(name, current)], outer) == Ok(fs)
    requires ClassifyQuery(ctx, member, env + [CteBinding(name, Upper(current, fs))], outer) == Ok(fs)
    ensures RecursiveFixpoint(ctx, name, member, current, env, outer) == Ok(Upper(current, fs))
  {
    UpperAbsorbs(current, fs);
    var next := Upper(current, fs);
    if next != current {
      UpperLowersPotential(next, fs);
      assert RecursiveFixpoint(ctx, name, member, next, env, outer) == Ok(next);
    }
  }

  /** Reads only columns: no subquery anywhere inside. */
  predicate SubqueryFree(e: Expr)
    decreases e
  {
    match e
    case SubLink(_) => false
    case FuncCall(_, args) => forall k :: 0 <= k < |args| ==> SubqueryFree(args[k])
    case Operator(args) => forall k :: 0 <= k < |args| ==> SubqueryFree(args[k])
    case _ => true
  }

  /** Every column reference inside an expression, left to right. */
  function ColumnRefs(e: Expr): (r: seq<Expr>)
    ensures forall k :: 0 <= k < |r| ==> r[k].ColumnRef?
    decreases e, 1, 0
  {
    match e
    case ColumnRef(_, _, _) => [e]
    case FuncCall(_, _) => ArgRefs(e, 0)
    case Operator(_) => ArgRefs(e, 0)
    case _ => []
  }

  function ArgRefs(e: Expr, i: nat): (r: seq<Expr>)
    requires (e.FuncCall? || e.Operator?) && i <= |e.args|
    ensures forall k :: 0 <= k < |r| ==> r[k].ColumnRef?
    decreases e, 0, |e.args| - i
  {
    if i == |e.args| then [] else ColumnRefs(e.args[i]) + ArgRefs(e, i + 1)
  }

  /** The level of each column reference, resolved through the scope stack. */
  function ResolveRefs(refs: seq<Expr>, stack: seq<Scope>): (r: Result<seq<MaskingLevel>>)
    ensures r.Ok? ==> |r.value| == |refs|
  {
    if |refs| == 0 then Ok([])
    else
      var first :- if refs[0].ColumnRef? then ResolveColumn(stack, refs[0].schema, refs[0].table, refs[0].column) else Ok(NONE);
      var rest :- ResolveRefs(refs[1..], stack);
      Ok([first] + rest)
  }

  lemma {:induction false} ResolveRefsAppend(a: seq<Expr>, b: seq<Expr>, stack: seq<Scope>)
    ensures ResolveRefs(a + b, stack).Ok? <==> ResolveRefs(a, stack).Ok? && ResolveRefs(b, stack).Ok?
    ensures ResolveRefs(a + b, stack).Ok? ==> ResolveRefs(a + b, stack).value == ResolveRefs(a, stack).value + ResolveRefs(b, stack).value
  {
    if |a| == 0 {
      assert a + b == b;
    } else {
      assert (a + b)[0] == a[0];
      assert (a + b)[1..] == a[1..] + b;
      ResolveRefsAppend(a[1..], b, stack);
    }
  }

  /**
    Expression law: a subquery-free expression classifies exactly when each of
    its column references resolves, and its level is then the maximum of theirs
    (NONE when it references none): never below any contributing column.
   */
  lemma {:induction false} ExprLevelIsMaxOfRefs(ctx: Context, e: Expr, env: CteEnv, stack: seq<Scope>)
    requires SubqueryFree(e)
    ensures ClassifyExpr(ctx, e, env, stack).Ok? <==> ResolveRefs(ColumnRefs(e), stack).Ok?
    ensures ClassifyExpr(ctx, e, env, stack).Ok? ==>
      ClassifyExpr(ctx, e, env, stack).value.level == MaxLevel(ResolveRefs(ColumnRefs(e), stack).value)
    decreases e, 1, 0
  {
    match e
    case Literal(_) =>
    case ColumnRef(schema, table, column) =>
      assert [e][1..] == [];
    case FuncCall(_, _) =>
      ArgsLevelIsMaxOfRefs(ctx, e, 0, env, stack);
    case Operator(_) =>
      ArgsLevelIsMaxOfRefs(ctx, e, 0, env, stack);
  }

  lemma {:induction false} ArgsLevelIsMaxOfRefs(ctx: Context, e: Expr, i: nat, env: CteEnv, stack: seq<Scope>)
    requires (e.FuncCall? || e.Operator?) && i <= |e.args|
    requires forall k :: 0 <= k < |e.args| ==> SubqueryFree(e.args[k])
    ensures ArgsLevel(ctx, e, i, env, stack).Ok? <==> ResolveRefs(ArgRefs(e, i), stack).Ok?
    ensures ArgsLevel(ctx, e, i, env, stack).Ok? ==>
      ArgsLevel(ctx, e, i, env, stack).value == MaxLevel(ResolveRefs(ArgRefs(e, i), stack).value)
    decreases e, 0, |e.args| - i
  {
    if i < |e.args| {
      var head := ColumnRefs(e.args[i]);
      var tail := ArgRefs(e, i + 1);
      assert ArgRefs(e, i) == head + tail;
      ArgsLevelStep(ctx, e, i, env, stack);
      ExprLevelIsMaxOfRefs(ctx, e.args[i], env, stack);
      ArgsLevelIsMaxOfRefs(ctx, e, i + 1, env, stack);
      ResolveRefsAppend(head, tail, stack);
      if ResolveRefs(head, stack).Ok? && ResolveRefs(tail, stack).Ok? {
        MaxLevelAppend(ResolveRefs(head, stack).value, ResolveRefs(tail, stack).value);
      }
    }
  }

  /** One operand more: the operands from the `i`-th on classify when the `i`-th and the rest do, at the stricter level. */
  lemma ArgsLevelStep(ctx: Context, e: Expr, i: nat, env: CteEnv, stack: seq<Scope>)
    requires (e.FuncCall? || e.Operator?) && i < |e.args|
    ensures ArgsLevel(ctx, e, i, env, stack).Ok? <==>
      ClassifyExpr(ctx, e.args[i], env, stack).Ok? && ArgsLevel(ctx, e, i + 1, env, stack).Ok?
    ensures ArgsLevel(ctx, e, i, env, stack).Ok? ==>
      ArgsLevel(ctx, e, i, env, stack).value
        == Combine(ClassifyExpr(ctx, e.args[i], env, stack).value.level, ArgsLevel(ctx, e, i + 1, env, stack).value)
  {
  }
}
