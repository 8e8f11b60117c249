/**
  The masking-level classifier: for each output column of a query, the strictest
  masking level it is entitled to, traced through projections, expressions,
  FROM items, joins, set operations and CTEs back to the catalog.
 */
module Classifier {
  import opened Wrappers
  import opened MaskingLevels
  import opened Fields
  import opened Catalog
  import opened Syntax
  import opened Scopes
  import opened Joins

  /** The fixed inputs of one classification: the catalog and the default database. */
  datatype Context = Context(catalog: SensitiveSchemaInfo, defaultDatabase: string)

  function LowerChar(c: char): (r: char)
    ensures !('A' <= r <= 'Z')
    ensures 'A' <= c <= 'Z' ==> r as int == c as int + 32
    ensures !('A' <= c <= 'Z') ==> r == c
  {
    if 'A' <= c <= 'Z' then (c as int + 32) as char else c
  }

  /** ASCII lower case, as PostgreSQL folds an unquoted function name. */
  function LowerAscii(s: string): (r: string)
    ensures |r| == |s|
    ensures forall i :: 0 <= i < |s| ==> r[i] == LowerChar(s[i])
  {
    if |s| == 0 then [] else [LowerChar(s[0])] + LowerAscii(s[1..])
  }

  /**
    Classifies a query block. `env` holds the CTEs visible here; `outer` holds the
    FROM scopes of the enclosing blocks, innermost last, for correlated references.
   */
  function ClassifyQuery(ctx: Context, q: Query, env: CteEnv, outer: seq<Scope>): Result<FieldList>
    decreases q, 2, 0
  {
    match q
    case Select(_, _) =>
      var sc :- ResolveFromList(ctx, q, 0, env, outer);
      ClassifyTargets(ctx, q, 0, env, outer + [sc])
    case SetOp(_, _, left, right) =>
      var l :- ClassifyQuery(ctx, left, env, outer);
      var r :- ClassifyQuery(ctx, right, env, outer);
      MergeBranches(l, r)
    case With(_, _, _) =>
      ClassifyWith(ctx, q, 0, env, outer)
    case Limit(body, _) =>
      ClassifyQuery(ctx, body, env, outer)
  }

  /** Binds the CTEs of a WITH clause from the `i`-th on, then classifies its body. */
  function ClassifyWith(ctx: Context, q: Query, i: nat, env: CteEnv, outer: seq<Scope>): Result<FieldList>
    requires q.With? && i <= |q.ctes|
    decreases q, 1, |q.ctes| - i
  {
    if i == |q.ctes| then ClassifyQuery(ctx, q.body, env, outer)
    else
      var fs :- BindCte(ctx, q.ctes[i], q.recursive, env, outer);
      ClassifyWith(ctx, q, i + 1, env + [CteBinding(q.ctes[i].name, fs)], outer)
  }

  /**
    The field list a CTE name stands for. Under RECURSIVE, a UNION body is
    resolved to a fixpoint: its anchor (left branch) is classified without the
    CTE's own name in scope, then the recursive member is classified again and
    again against the current binding. Any other body is an ordinary query, which
    does not see its own name.
   */
  function BindCte(ctx: Context, cte: Cte, recursive: bool, env: CteEnv, outer: seq<Scope>): Result<FieldList>
    decreases cte, 2, 0
  {
    if recursive && cte.body.SetOp? && cte.body.op == Union then
      var anchor :- ClassifyQuery(ctx, cte.body.left, env, outer);
      var start :- Rename(anchor, cte.columnAliases);
      RecursiveFixpoint(ctx, cte.name, cte.body.right, start, env, outer)
    else
      var fs :- ClassifyQuery(ctx, cte.body, env, outer);
      Rename(fs, cte.columnAliases)
  }

  /**
    One round of recursive-CTE resolution: classify the recursive member with the
    CTE bound to `current`, combine position-wise into `current`, and stop once a
    round changes nothing. Levels only rise and are bounded by FULL, so
    `Potential(current)` falls every round that continues.
   */
  function RecursiveFixpoint(ctx: Context, name: string, member: Query, current: FieldList, env: CteEnv, outer: seq<Scope>): (r: Result<FieldList>)
    ensures r.Ok? ==> Below(current, r.value)
    decreases member, 3, Potential(current)
  {
    var round :- ClassifyQuery(ctx, member, env + [CteBinding(name, current)], outer);
    if |round| != |current| then Err("recursive query column count does not match the non-recursive term")
    else
      var next := Upper(current, round);
      UpperLowersPotential(current, round);
      if next == current then Ok(current)
      else RecursiveFixpoint(ctx, name, member, next, env, outer)
  }

  /** Resolves the FROM items of a select block from the `i`-th on into one scope. */
  function ResolveFromList(ctx: Context, q: Query, i: nat, env: CteEnv, outer: seq<Scope>): Result<Scope>
    requires q.Select? && i <= |q.from|
    decreases q, 1, |q.from| - i
  {
    if i == |q.from| then Ok(Scope([], []))
    else
      var first :- ResolveFromItem(ctx, q.from[i], env, outer);
      var rest :- ResolveFromList(ctx, q, i + 1, env, outer);
      Ok(Scope(first.ranges + rest.ranges, first.columns + rest.columns))
  }

  /**
    Resolves one FROM item. An unqualified name bound as a CTE is that CTE;
    otherwise it is a catalog table. Derived tables are classified as their own
    blocks, seeing only the enclosing scopes (not their FROM siblings).
   */
  function ResolveFromItem(ctx: Context, item: FromItem, env: CteEnv, outer: seq<Scope>): Result<Scope>
    decreases item, 2, 0
  {
    match item
    case TableRef(schema, name, alias) =>
      if schema.None? && LookupCte(env, name).Some? then
        var fs := LookupCte(env, name).value;
        Ok(Scope([Range(None, Some(alias.GetOr(name)), fs)], fs))
      else
        var found :- ResolveTable(ctx.catalog, ctx.defaultDatabase, schema, name);
        var fs := TableFields(found.1.columnList);
        Ok(Scope([Range(if alias.Some? then None else Some(found.0), Some(alias.GetOr(name)), fs)], fs))
    case Derived(sub, alias, columnAliases) =>
      var fs :- ClassifyQuery(ctx, sub, env, outer);
      var renamed :- Rename(fs, columnAliases);
      Ok(Scope([Range(None, alias, renamed)], renamed))
    case Join(left, right, cond) =>
      var l :- ResolveFromItem(ctx, left, env, outer);
      var r :- ResolveFromItem(ctx, right, env, outer);
      var columns :- JoinColumns(l.columns, r.columns, cond);
      Ok(Scope(l.ranges + r.ranges, columns))
  }

  /** Classifies the select list from the `i`-th entry on; the innermost scope is last in `stack`. */
  function ClassifyTargets(ctx: Context, q: Query, i: nat, env: CteEnv, stack: seq<Scope>): Result<FieldList>
    requires q.Select? && i <= |q.targets|
    decreases q, 1, |q.targets| - i
  {
    if i == |q.targets| then Ok([])
    else
      var first :- ClassifyTarget(ctx, q.targets[i], env, stack);
      var rest :- ClassifyTargets(ctx, q, i + 1, env, stack);
      Ok(first + rest)
  }

  /** One select-list entry: `*` expands to fields unchanged; an alias renames without touching the level. */
  function ClassifyTarget(ctx: Context, t: Target, env: CteEnv, stack: seq<Scope>): Result<FieldList>
    decreases t, 2, 0
  {
    match t
    case Star(schema, table) =>
      if |stack| == 0 then Err("SELECT * with no tables specified is not valid")
      else
        var sc := stack[|stack| - 1];
        (match table
         case None =>
           if |sc.ranges| == 0 then Err("SELECT * with no tables specified is not valid")
           else Ok(sc.columns)
         case Some(name) =>
           var m := MatchingRanges(sc.ranges, schema, name);
           if |m| == 1 then Ok(m[0].fields) else Err("missing or ambiguous FROM-clause entry"))
    case Item(e, alias) =>
      var f :- ClassifyExpr(ctx, e, env, stack);
      Ok([if alias.Some? then Field(alias.value, f.level) else f])
  }

  /**
    An expression's default-named field: a column reference keeps the column's
    name and level; a literal is NONE; a function call or operator is the
    maximum over its operands, named by the lower-case function name or
    `?column?`; a subquery contributes its own fields' maximum and first name.
   */
  function ClassifyExpr(ctx: Context, e: Expr, env: CteEnv, stack: seq<Scope>): Result<Field>
    decreases e, 2, 0
  {
    match e
    case Literal(_) => Ok(Field(UNNAMED, NONE))
    case ColumnRef(schema, table, column) =>
      var level :- ResolveColumn(stack, schema, table, column);
      Ok(Field(column, level))
    case FuncCall(funcName, _) =>
      var level :- ArgsLevel(ctx, e, 0, env, stack);
      Ok(Field(LowerAscii(funcName), level))
    case Operator(_) =>
      var level :- ArgsLevel(ctx, e, 0, env, stack);
      Ok(Field(UNNAMED, level))
    case SubLink(sub) =>
      var fs :- ClassifyQuery(ctx, sub, env, stack);
      Ok(Field(if |fs| == 0 then UNNAMED else fs[0].name, MaxLevel(Levels(fs))))
  }

  /** The maximum level over the operands of a call or operator from the `i`-th on. */
  function ArgsLevel(ctx: Context, e: Expr, i: nat, env: CteEnv, stack: seq<Scope>): Result<MaskingLevel>
    requires (e.FuncCall? || e.Operator?) && i <= |e.args|
    decreases e, 1, |e.args| - i
  {
    if i == |e.args| then Ok(NONE)
    else
      var first :- ClassifyExpr(ctx, e.args[i], env, stack);
      var rest :- ArgsLevel(ctx, e, i + 1, env, stack);
      Ok(Combine(first.level, rest))
  }

  /**
    The entry point: the masked fields of a statement. EXPLAIN and statements that
    return no data yield no fields.
   */
  function GetMaskedFields(statement: Statement, defaultDatabase: string, schemaInfo: SensitiveSchemaInfo): (r: Result<FieldList>)
    ensures !statement.QueryStatement? ==> r == Ok([])
  {
    match statement
    case QueryStatement(q) => ClassifyQuery(Context(schemaInfo, defaultDatabase), q, [], [])
    case Explain(_) => Ok([])
    case Utility => Ok([])
  }
}
