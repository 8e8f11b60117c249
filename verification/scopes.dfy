/**
  Name resolution: FROM-clause scopes stacked from the outermost query block to
  the innermost, and the lexically nested CTE environment.
 */
module Scopes {
  import opened Wrappers
  import opened MaskingLevels
  import opened Fields

  /**
    One FROM source as a qualifier sees it: the schema it was found in (only for
    an unaliased catalog table), the name it is referred to by, and its fields.
   */
  datatype Range = Range(schema: Option<string>, alias: Option<string>, fields: FieldList)

  /**
    A query block's FROM clause: its sources, for qualified references, and the
    joined column list, for unqualified references and `*`.
   */
  datatype Scope = Scope(ranges: seq<Range>, columns: FieldList)

  datatype CteBinding = CteBinding(name: string, fields: FieldList)

  /** CTE bindings in declaration order; later (inner) bindings shadow earlier ones. */
  type CteEnv = seq<CteBinding>

  datatype Lookup = Missing | Found(level: MaskingLevel) | Ambiguous

  /** Looks a column name up in a field list: absent, present exactly once, or ambiguous. */
  function LookupName(fs: FieldList, name: string): (r: Lookup)
    ensures r.Found? ==> Field(name, r.level) in fs
  {
    if |fs| == 0 then Missing
    else
      var rest := LookupName(fs[1..], name);
      if fs[0].name != name then rest
      else if rest.Missing? then Found(fs[0].level)
      else Ambiguous
  }

  /** What each lookup outcome says about how often the name occurs. */
  lemma {:induction false} LookupNameMeaning(fs: FieldList, name: string)
    ensures LookupName(fs, name).Missing? <==> forall i :: 0 <= i < |fs| ==> fs[i].name != name
    ensures LookupName(fs, name).Found? ==>
      forall i, j :: 0 <= i < |fs| && 0 <= j < |fs| && fs[i].name == name && fs[j].name == name ==> i == j
    ensures LookupName(fs, name).Ambiguous? ==>
      exists i, j :: 0 <= i < j < |fs| && fs[i].name == name && fs[j].name == name
  {
    if |fs| > 0 {
      var tail := fs[1..];
      LookupNameMeaning(tail, name);
      assert forall i :: 1 <= i < |fs| ==> fs[i] == tail[i - 1];
      var rest := LookupName(tail, name);
      if fs[0].name == name && !rest.Missing? {
        var k :| 0 <= k < |tail| && tail[k].name == name;
        assert fs[k + 1].name == name;
      }
      if rest.Ambiguous? {
        var a, b :| 0 <= a < b < |tail| && tail[a].name == name && tail[b].name == name;
        assert fs[a + 1].name == name && fs[b + 1].name == name;
      }
    }
  }

  /** A name absent from one part of a concatenated list is looked up in the other part alone. */
  lemma {:induction false} LookupAppend(fs: FieldList, gs: FieldList, name: string)
    ensures LookupName(gs, name).Missing? ==> LookupName(fs + gs, name) == LookupName(fs, name)
    ensures LookupName(fs, name).Missing? ==> LookupName(fs + gs, name) == LookupName(gs, name)
  {
    if |fs| == 0 {
      assert fs + gs == gs;
    } else {
      assert (fs + gs)[1..] == fs[1..] + gs;
      LookupAppend(fs[1..], gs, name);
    }
  }

  /** The innermost CTE binding of `name`, if any. */
  function LookupCte(env: CteEnv, name: string): (r: Option<FieldList>)
    ensures r.None? <==> forall i :: 0 <= i < |env| ==> env[i].name != name
    ensures r.Some? ==> exists i :: 0 <= i < |env| && env[i] == CteBinding(name, r.value) && forall j :: i < j < |env| ==> env[j].name != name
  {
    if |env| == 0 then None
    else if env[|env| - 1].name == name then Some(env[|env| - 1].fields)
    else LookupCte(env[..|env| - 1], name)
  }

  /** The range a qualifier `schema.table` designates. */
  predicate Designates(rg: Range, schema: Option<string>, table: string) {
    rg.alias == Some(table) && (schema.None? || rg.schema == schema)
  }

  function MatchingRanges(ranges: seq<Range>, schema: Option<string>, table: string): (r: seq<Range>)
    ensures forall rg :: rg in r <==> rg in ranges && Designates(rg, schema, table)
    ensures |r| <= |ranges|
  {
    if |ranges| == 0 then []
    else
      var rest := MatchingRanges(ranges[1..], schema, table);
      if Designates(ranges[0], schema, table) then [ranges[0]] + rest else rest
  }

  /**
    Resolves a column reference within one scope: `None` when the scope has no
    candidate, so the enclosing scope is tried next; otherwise the level or the
    error that ends resolution.
   */
  function ResolveInScope(sc: Scope, schema: Option<string>, table: Option<string>, column: string): Option<Result<MaskingLevel>>
  {
    match table
    case None =>
      (match LookupName(sc.columns, column)
       case Missing => None
       case Found(l) => Some(Ok(l))
       case Ambiguous => Some(Err("column reference is ambiguous")))
    case Some(t) =>
      var m := MatchingRanges(sc.ranges, schema, t);
      if |m| == 0 then None
      else
        assert m[0] in m;
        if |m| > 1 then Some(Err("table reference is ambiguous"))
        else
          match LookupName(m[0].fields, column)
          case Missing => Some(Err("column does not exist"))
          case Found(l) => Some(Ok(l))
          case Ambiguous => Some(Err("column reference is ambiguous"))
  }

  /**
    When one scope has a candidate: an unqualified name needs a column of that
    name, a qualified one a range the qualifier designates; a resolved level is
    that of a column of that name, in the designated range when qualified.
   */
  lemma ResolveInScopeMeaning(sc: Scope, schema: Option<string>, table: Option<string>, column: string)
    ensures var r := ResolveInScope(sc, schema, table, column);
      && (table.None? ==> (r.None? <==> LookupName(sc.columns, column).Missing?))
      && (table.Some? ==> (r.None? <==> forall rg :: rg in sc.ranges ==> !Designates(rg, schema, table.value)))
      && (r.Some? && r.value.Ok? && table.None? ==> Field(column, r.value.value) in sc.columns)
      && (r.Some? && r.value.Ok? && table.Some? ==>
            exists rg :: rg in sc.ranges && Designates(rg, schema, table.value) && Field(column, r.value.value) in rg.fields)
  {
    if table.Some? {
      var m := MatchingRanges(sc.ranges, schema, table.value);
      if |m| > 0 {
        assert m[0] in m;
      }
    }
  }

  /**
    Resolves a column reference through the scope stack, innermost block
    (last) first: the first scope with a candidate decides.
   */
  function ResolveColumn(stack: seq<Scope>, schema: Option<string>, table: Option<string>, column: string): Result<MaskingLevel>
  {
    if |stack| == 0 then Err("column does not exist")
    else
      match ResolveInScope(stack[|stack| - 1], schema, table, column)
      case None => ResolveColumn(stack[..|stack| - 1], schema, table, column)
      case Some(r) => r
  }

  /** A reference no scope of the stack has a candidate for is an error. */
  lemma {:induction false} ResolveColumnUnplaced(stack: seq<Scope>, schema: Option<string>, table: Option<string>, column: string)
    requires forall k :: 0 <= k < |stack| ==> ResolveInScope(stack[k], schema, table, column).None?
    ensures ResolveColumn(stack, schema, table, column).Err?
  {
    if |stack| > 0 {
      var init := stack[..|stack| - 1];
      assert forall k :: 0 <= k < |init| ==> init[k] == stack[k];
      ResolveColumnUnplaced(init, schema, table, column);
    }
  }

  /** The innermost scope with a candidate decides, whatever the scopes outside it hold. */
  lemma {:induction false} ResolveColumnInnermost(stack: seq<Scope>, k: nat, schema: Option<string>, table: Option<string>, column: string)
    requires k < |stack| && ResolveInScope(stack[k], schema, table, column).Some?
    requires forall j :: k < j < |stack| ==> ResolveInScope(stack[j], schema, table, column).None?
    ensures ResolveColumn(stack, schema, table, column) == ResolveInScope(stack[k], schema, table, column).value
  {
    var last := |stack| - 1;
    if k < last {
      var init := stack[..last];
      assert init[k] == stack[k];
      forall j | k < j < |init|
        ensures ResolveInScope(init[j], schema, table, column).None?
      {
        assert init[j] == stack[j];
      }
      ResolveColumnInnermost(init, k, schema, table, column);
      assert ResolveInScope(stack[last], schema, table, column).None?;
    }
  }
}
