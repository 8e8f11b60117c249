/** The classifier's join fixtures: `t` joined with itself under each join condition. */
module JoinFixtures {
  import opened Wrappers
  import opened MaskingLevels
  import opened Fields
  import opened Syntax
  import opened Scopes
  import opened Joins
  import opened Classifier
  import opened FixtureSupport

  /** `t as t1 join t as t2 <cond>` */
  function SelfJoin(cond: JoinCond): FromItem {
    Join(TblAs("t", "t1"), TblAs("t", "t2"), cond)
  }

  lemma SelfJoinScope(cond: JoinCond, columns: FieldList)
    requires JoinColumns(AllOfT, AllOfT, cond) == Ok(columns)
    ensures ResolveFromItem(Ctx, SelfJoin(cond), [], []) == Ok(Scope(ScopeT(Some("t1")).ranges + ScopeT(Some("t2")).ranges, columns))
  {
    ResolveT(None, Some("t1"), [], []);
    ResolveT(None, Some("t2"), [], []);
    JoinOf(TblAs("t", "t1"), TblAs("t", "t2"), cond, ScopeT(Some("t1")), ScopeT(Some("t2")), columns);
  }

  /** A join's scope: both sides' ranges, left first, with the columns the condition exposes. */
  lemma JoinOf(left: FromItem, right: FromItem, cond: JoinCond, l: Scope, r: Scope, columns: FieldList)
    requires ResolveFromItem(Ctx, left, [], []) == Ok(l)
    requires ResolveFromItem(Ctx, right, [], []) == Ok(r)
    requires JoinColumns(l.columns, r.columns, cond) == Ok(columns)
    ensures ResolveFromItem(Ctx, Join(left, right, cond), [], []) == Ok(Scope(l.ranges + r.ranges, columns))
  {
  }

  /** `select * from t as t1 <cond>-joined to t as t2`, given the join's columns. */
  lemma StarOverSelfJoin(cond: JoinCond, columns: FieldList)
    requires JoinColumns(AllOfT, AllOfT, cond) == Ok(columns)
    ensures Run(StarFrom(SelfJoin(cond))) == Ok(columns)
  {
    SelfJoinScope(cond, columns);
    StarOver(Ctx, SelfJoin(cond), [], [], Scope(ScopeT(Some("t1")).ranges + ScopeT(Some("t2")).ranges, columns));
    RunIsClassify(StarFrom(SelfJoin(cond)), columns);
  }

  /** `select * from t as t1 join t as t2 on t1.a = t2.a`: both sides' columns, left first. */
  lemma JoinOn()
    ensures Run(StarFrom(SelfJoin(On))) == Ok(AllOfT + AllOfT)
  {
    StarOverSelfJoin(On, AllOfT + AllOfT);
  }

  lemma AllOfTDistinct()
    ensures DistinctNames(AllOfT)
  {
  }

  /** `select * from t as t1 natural join t as t2`: every column is shared, so one copy of `t`. */
  lemma NaturalJoin()
    ensures Run(StarFrom(SelfJoin(Natural))) == Ok(AllOfT)
  {
    AllOfTDistinct();
    NaturalSelfJoin(AllOfT);
    StarOverSelfJoin(Natural, AllOfT);
  }

  const UsingOut: FieldList :=
    [Field("a", FULL), Field("b", NONE), Field("c", NONE), Field("d", PARTIAL), Field("b", NONE), Field("c", NONE), Field("d", PARTIAL)]

  const RestOfT: FieldList := [Field("b", NONE), Field("c", NONE), Field("d", PARTIAL)]

  lemma MergedA()
    ensures MergedColumns(AllOfT, AllOfT, ["a"]) == Ok([Field("a", FULL)])
  {
    assert LookupName(AllOfT, "a") == Found(FULL);
    assert MergedColumns(AllOfT, AllOfT, ["a"][1..]) == Ok([]);
    assert [Field("a", FULL)] + [] == [Field("a", FULL)];
  }

  lemma WithoutA()
    ensures Without(AllOfT, ["a"]) == RestOfT
  {
    WithoutNoneListed(RestOfT, ["a"]);
    assert AllOfT[0].name in ["a"] && AllOfT[1..] == RestOfT;
  }

  lemma UsingAColumns()
    ensures JoinColumns(AllOfT, AllOfT, Using(["a"])) == Ok(UsingOut)
  {
    MergedA();
    WithoutA();
    UsingOutParts();
    UsingOf(AllOfT, ["a"], [Field("a", FULL)], RestOfT);
  }

  lemma UsingOutParts()
    ensures Distinct(["a"])
    ensures [Field("a", FULL)] + RestOfT + RestOfT == UsingOut
  {
  }

  /** A self-join USING distinct names: the merged columns, then what is left of each side. */
  lemma UsingOf(fs: FieldList, names: seq<string>, merged: FieldList, rest: FieldList)
    requires Distinct(names)
    requires MergedColumns(fs, fs, names) == Ok(merged)
    requires Without(fs, names) == rest
    ensures JoinColumns(fs, fs, Using(names)) == Ok(merged + rest + rest)
  {
    UsingJoinResult(fs, fs, names);
    assert merged + (rest + rest) == merged + rest + rest;
  }

  /** `select * from t as t1 join t as t2 using(a)`: `a` once, then the rest of each side. */
  lemma JoinUsing()
    ensures Run(StarFrom(SelfJoin(Using(["a"])))) == Ok(UsingOut)
  {
    UsingAColumns();
    StarOverSelfJoin(Using(["a"]), UsingOut);
  }
}
