/**
  The pre-parsed statement tree the classifier consumes. Identifiers are the
  parser's case-folded forms; clauses that never influence classification
  (WHERE, GROUP BY, ORDER BY, the expression of a join's ON) are not represented.
 */
module Syntax {
  import opened Wrappers

  datatype Expr =
    | Literal(text: string)
      /** `column`, `table.column` or `schema.table.column`. */
    | ColumnRef(schema: Option<string>, table: Option<string>, column: string)
    | FuncCall(funcName: string, args: seq<Expr>)
      /** Any operator, comparison, arithmetic or IN-list, over its operands. */
    | Operator(args: seq<Expr>)
      /** A parenthesised subquery used as a value. */
    | SubLink(subquery: Query)

  /** One entry of a select list: `*`, `t.*`, or an expression with an optional `AS` alias. */
  datatype Target =
    | Star(schema: Option<string>, table: Option<string>)
    | Item(expr: Expr, alias: Option<string>)

  /** How a join matches its sides; ON conditions, cross and comma joins all share `On`. */
  datatype JoinCond = On | Natural | Using(columns: seq<string>)

  datatype FromItem =
    | TableRef(schema: Option<string>, name: string, alias: Option<string>)
    | Derived(subquery: Query, alias: Option<string>, columnAliases: seq<string>)
    | Join(left: FromItem, right: FromItem, cond: JoinCond)

  datatype SetOpKind = Union | Intersect | Except

  /** `name(columnAliases) AS (body)`; an empty alias list means none was written. */
  datatype Cte = Cte(name: string, columnAliases: seq<string>, body: Query)

  datatype Query =
    | Select(targets: seq<Target>, from: seq<FromItem>)
    | SetOp(op: SetOpKind, all: bool, left: Query, right: Query)
    | With(recursive: bool, ctes: seq<Cte>, body: Query)
    | Limit(body: Query, count: nat)

  /** A statement: a query, an EXPLAIN of one, or anything else (DDL, control). */
  datatype Statement =
    | QueryStatement(query: Query)
    | Explain(explained: Query)
    | Utility
}
