/**
  Column merging for joins: plain (ON, cross, comma) joins concatenate; NATURAL
  and USING joins emit each shared column once, then the rest of the left side,
  then the rest of the right side.
 */
module Joins {
  import opened Wrappers
  import opened MaskingLevels
  import opened Fields
  import opened Scopes
  import opened Syntax
  import opened Seqs

  predicate Distinct(names: seq<string>) {
    forall i, j :: 0 <= i < j < |names| ==> names[i] != names[j]
  }

  /** No two fields share a name. */
  predicate DistinctNames(fs: FieldList) {
    forall i, j :: 0 <= i < j < |fs| ==> fs[i].name != fs[j].name
  }

  function NotListed(names: seq<string>): Field -> bool {
    (f: Field) => f.name !in names
  }

  function Listed(names: seq<string>): string -> bool {
    (n: string) => n in names
  }

  /** The fields whose names are not listed, in their original order. */
  function Without(fs: FieldList, names: seq<string>): (r: FieldList)
    ensures r == Filter(fs, NotListed(names))
    ensures |r| <= |fs|
    ensures forall f :: f in r <==> f in fs && f.name !in names
  {
    if |fs| == 0 then []
    else
      var rest := Without(fs[1..], names);
      assert fs == [fs[0]] + fs[1..];
      if fs[0].name in names then rest else [fs[0]] + rest
  }

  /**
    The merged join columns, one per listed name, each at the stricter of the two
    sides' levels. A name absent from, or ambiguous in, either side is an error.
   */
  function MergedColumns(left: FieldList, right: FieldList, names: seq<string>): (r: Result<FieldList>)
    ensures r.Ok? ==> |r.value| == |names|
  {
    if |names| == 0 then Ok([])
    else
      var l := LookupName(left, names[0]);
      var r := LookupName(right, names[0]);
      if !l.Found? || !r.Found? then Err("column specified in USING clause does not exist in both tables, or is ambiguous")
      else
        var rest :- MergedColumns(left, right, names[1..]);
        Ok([Field(names[0], Combine(l.level, r.level))] + rest)
  }

  /**
    The merged columns exist exactly when every listed name is found once on
    each side, and the `i`-th is the `i`-th name at the stricter of its two levels.
   */
  lemma {:induction false} MergedColumnsMeaning(left: FieldList, right: FieldList, names: seq<string>)
    ensures MergedColumns(left, right, names).Ok? <==>
      forall i :: 0 <= i < |names| ==> LookupName(left, names[i]).Found? && LookupName(right, names[i]).Found?
    ensures MergedColumns(left, right, names).Ok? ==> forall i :: 0 <= i < |names| ==>
      && MergedColumns(left, right, names).value[i].name == names[i]
      && MergedColumns(left, right, names).value[i].level == Combine(LookupName(left, names[i]).level, LookupName(right, names[i]).level)
  {
    if |names| > 0 {
      var tail := names[1..];
      MergedColumnsMeaning(left, right, tail);
      assert forall i :: 0 < i < |names| ==> names[i] == tail[i - 1];
      var m := MergedColumns(left, right, names);
      if m.Ok? {
        var rest := MergedColumns(left, right, tail).value;
        assert m.value == [Field(names[0], Combine(LookupName(left, names[0]).level, LookupName(right, names[0]).level))] + rest;
        assert forall i :: 0 < i < |names| ==> m.value[i] == rest[i - 1];
      }
    } else {
      assert MergedColumns(left, right, names) == Ok([]);
    }
  }

  /** Names of the left side that the right side also has, in left order. */
  function CommonNames(left: FieldList, right: FieldList): (r: seq<string>)
    ensures r == Filter(Names(left), Listed(Names(right)))
    ensures forall n :: n in r <==> n in Names(left) && n in Names(right)
    ensures |r| <= |left|
  {
    if |left| == 0 then []
    else
      var rest := CommonNames(left[1..], right);
      assert Names(left) == [left[0].name] + Names(left[1..]);
      if left[0].name in Names(right) then [left[0].name] + rest else rest
  }

  function UsingJoin(left: FieldList, right: FieldList, names: seq<string>): (r: Result<FieldList>)
    ensures r.Ok? ==> Distinct(names)
    ensures r.Ok? ==> MergedColumns(left, right, names).Ok?
    ensures r.Ok? ==> |r.value| >= |names|
    ensures r.Ok? ==> r.value[..|names|] == MergedColumns(left, right, names).value
    ensures r.Ok? ==> r.value[|names|..] == Without(left, names) + Without(right, names)
  {
    if !Distinct(names) then Err("column name appears more than once in USING clause")
    else
      var merged :- MergedColumns(left, right, names);
      var rest := Without(left, names) + Without(right, names);
      var r := merged + rest;
      assert r[..|names|] == merged && r[|names|..] == rest;
      Ok(r)
  }

  /**
    A USING join succeeds exactly when its names are distinct and each is found
    once on both sides; its columns are then the merged ones, followed by the
    unlisted columns of the left side and then of the right side.
   */
  lemma UsingJoinResult(left: FieldList, right: FieldList, names: seq<string>)
    ensures UsingJoin(left, right, names).Ok? <==> Distinct(names) && MergedColumns(left, right, names).Ok?
    ensures UsingJoin(left, right, names).Ok? ==>
      UsingJoin(left, right, names).value == MergedColumns(left, right, names).value + (Without(left, names) + Without(right, names))
  {
  }

  /** The column list a join of two sides exposes. */
  function JoinColumns(left: FieldList, right: FieldList, cond: JoinCond): (r: Result<FieldList>)
    ensures cond.On? ==> r == Ok(left + right)
  {
    match cond
    case On => Ok(left + right)
    case Using(names) => UsingJoin(left, right, names)
    case Natural => UsingJoin(left, right, CommonNames(left, right))
  }

  lemma {:induction false} CommonNamesOfSelf(left: FieldList, right: FieldList)
    requires forall i :: 0 <= i < |left| ==> left[i].name in Names(right)
    ensures CommonNames(left, right) == Names(left)
  {
    if |left| > 0 {
      CommonNamesOfSelf(left[1..], right);
      assert Names(left) == [left[0].name] + Names(left[1..]);
    }
  }

  /** In a list of distinct names, a field's own name finds exactly that field. */
  lemma LookupDistinct(fs: FieldList, i: nat)
    requires DistinctNames(fs) && i < |fs|
    ensures LookupName(fs, fs[i].name) == Found(fs[i].level)
  {
    var name := fs[i].name;
    var r := LookupName(fs, name);
    LookupNameMeaning(fs, name);
    assert !r.Missing?;
    assert !r.Ambiguous?;
    assert Field(name, r.level) in fs;
    var k :| 0 <= k < |fs| && fs[k] == Field(name, r.level);
    assert k == i;
  }

  lemma MergedColumnsOfSelf(fs: FieldList)
    requires DistinctNames(fs)
    ensures MergedColumns(fs, fs, Names(fs)) == Ok(fs)
  {
    var names := Names(fs);
    forall i | 0 <= i < |fs|
      ensures LookupName(fs, names[i]) == Found(fs[i].level)
    {
      LookupDistinct(fs, i);
    }
    var merged := MergedColumns(fs, fs, names);
    MergedColumnsMeaning(fs, fs, names);
    assert merged.Ok?;
    forall i | 0 <= i < |fs|
      ensures merged.value[i] == fs[i]
    {
      CombineLaws(fs[i].level, fs[i].level, fs[i].level);
    }
    assert merged.value == fs;
  }

  lemma {:induction false} WithoutAllListed(fs: FieldList, names: seq<string>)
    requires forall i :: 0 <= i < |fs| ==> fs[i].name in names
    ensures Without(fs, names) == []
  {
    if |fs| > 0 {
      WithoutAllListed(fs[1..], names);
    }
  }

  lemma {:induction false} WithoutNoneListed(fs: FieldList, names: seq<string>)
    requires forall i :: 0 <= i < |fs| ==> fs[i].name !in names
    ensures Without(fs, names) == fs
  {
    if |fs| > 0 {
      WithoutNoneListed(fs[1..], names);
      assert fs == [fs[0]] + fs[1..];
    }
  }

  /** A NATURAL join of a side with itself (distinct column names) yields one copy of it. */
  lemma NaturalSelfJoin(fs: FieldList)
    requires DistinctNames(fs)
    ensures JoinColumns(fs, fs, Natural) == Ok(fs)
  {
    var names := Names(fs);
    CommonNamesOfSelf(fs, fs);
    assert Distinct(names);
    MergedColumnsOfSelf(fs);
    WithoutAllListed(fs, names);
    UsingJoinResult(fs, fs, names);
    assert fs + ([] + []) == fs;
  }

  /** A USING join keeps every column of both sides except that each listed name appears once. */
  lemma UsingJoinWidth(left: FieldList, right: FieldList, names: seq<string>)
    requires UsingJoin(left, right, names).Ok?
    ensures |UsingJoin(left, right, names).value| == |names| + |Without(left, names)| + |Without(right, names)|
  {
  }
}
