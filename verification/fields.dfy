/**
  Fields and field lists: the ordered, named, levelled output of every query block,
  with the two positional operations that act on them (renaming by an explicit
  column list, and the level-wise combination used by set operations and by the
  recursive-CTE fixpoint).
 */
module Fields {
  import opened Wrappers
  import opened MaskingLevels

  /** One output column: its name and the masking level it is entitled to. */
  datatype Field = Field(name: string, level: MaskingLevel)

  type FieldList = seq<Field>

  /** PostgreSQL's name for an output column it cannot name otherwise. */
  const UNNAMED: string := "?column?"

  function Names(fs: FieldList): (r: seq<string>)
    ensures |r| == |fs|
    ensures forall i :: 0 <= i < |fs| ==> r[i] == fs[i].name
  {
    if |fs| == 0 then [] else [fs[0].name] + Names(fs[1..])
  }

  function Levels(fs: FieldList): (r: seq<MaskingLevel>)
    ensures |r| == |fs|
    ensures forall i :: 0 <= i < |fs| ==> r[i] == fs[i].level
  {
    if |fs| == 0 then [] else [fs[0].level] + Levels(fs[1..])
  }

  /**
    Renames fields by position from an explicit column-name list: the first
    `|names|` fields take the listed names, the rest keep theirs, and no level
    changes. Listing more names than there are columns is an error.
   */
  function Rename(fs: FieldList, names: seq<string>): (r: Result<FieldList>)
    ensures r.Ok? <==> |names| <= |fs|
    ensures r.Ok? ==> |r.value| == |fs|
    ensures r.Ok? ==> forall i :: 0 <= i < |fs| ==> r.value[i].level == fs[i].level
    ensures r.Ok? ==> forall i :: 0 <= i < |names| ==> r.value[i].name == names[i]
    ensures r.Ok? ==> forall i :: |names| <= i < |fs| ==> r.value[i].name == fs[i].name
  {
    if |names| == 0 then Ok(fs)
    else if |fs| == 0 then Err("more column names were specified than the query has columns")
    else
      var rest :- Rename(fs[1..], names[1..]);
      Ok([Field(names[0], fs[0].level)] + rest)
  }

  /** Renaming with a list's own names gives the list back. */
  lemma RenameToOwnNames(fs: FieldList)
    ensures Rename(fs, Names(fs)) == Ok(fs)
  {
    var r := Rename(fs, Names(fs));
    assert r.Ok?;
    assert forall i :: 0 <= i < |fs| ==> r.value[i] == fs[i];
    assert r.value == fs;
  }

  /**
    Position-wise least upper bound of two lists of equal length, keeping the
    names of the first.
   */
  function Upper(a: FieldList, b: FieldList): (r: FieldList)
    requires |a| == |b|
    ensures |r| == |a|
    ensures forall i :: 0 <= i < |a| ==> r[i].name == a[i].name
    ensures forall i :: 0 <= i < |a| ==> r[i].level == Combine(a[i].level, b[i].level)
  {
    if |a| == 0 then [] else [Field(a[0].name, Combine(a[0].level, b[0].level))] + Upper(a[1..], b[1..])
  }

  /**
    Combines two set-operation branches: names from the left branch, each
    position's level the maximum of both; branches of different widths are an error.
   */
  function MergeBranches(a: FieldList, b: FieldList): (r: Result<FieldList>)
    ensures r.Ok? <==> |a| == |b|
    ensures r.Ok? ==> |r.value| == |a|
    ensures r.Ok? ==> forall i :: 0 <= i < |a| ==> r.value[i].name == a[i].name
    ensures r.Ok? ==> forall i :: 0 <= i < |a| ==> r.value[i].level == Combine(a[i].level, b[i].level)
  {
    if |a| != |b| then Err("each UNION query must have the same number of columns")
    else Ok(Upper(a, b))
  }

  /** `a` is position-wise no stricter than `b`, with the same names. */
  predicate Below(a: FieldList, b: FieldList) {
    && |a| == |b|
    && (forall i :: 0 <= i < |a| ==> a[i].name == b[i].name)
    && (forall i :: 0 <= i < |a| ==> AtMost(a[i].level, b[i].level))
  }

  /** Combining a branch with itself changes nothing. */
  lemma MergeSelf(a: FieldList)
    ensures MergeBranches(a, a) == Ok(a)
  {
    var r := MergeBranches(a, a).value;
    assert forall i :: 0 <= i < |a| ==> r[i] == a[i];
    assert r == a;
  }

  /** Branch order changes only the names, never the levels. */
  lemma MergeLevelsCommute(a: FieldList, b: FieldList)
    requires |a| == |b|
    ensures Levels(Upper(a, b)) == Levels(Upper(b, a))
  {
  }

  /** Multi-way set operations may be reduced in any grouping. */
  lemma MergeAssociative(a: FieldList, b: FieldList, c: FieldList)
    requires |a| == |b| == |c|
    ensures Upper(Upper(a, b), c) == Upper(a, Upper(b, c))
  {
    var l := Upper(Upper(a, b), c);
    var r := Upper(a, Upper(b, c));
    forall i | 0 <= i < |a|
      ensures l[i] == r[i]
    {
      CombineLaws(a[i].level, b[i].level, c[i].level);
    }
  }

  /** Combining in the same list twice is combining it once. */
  lemma UpperAbsorbs(a: FieldList, b: FieldList)
    requires |a| == |b|
    ensures Upper(Upper(a, b), b) == Upper(a, b)
  {
    var l := Upper(Upper(a, b), b);
    var r := Upper(a, b);
    forall i | 0 <= i < |a|
      ensures l[i] == r[i]
    {
      CombineLaws(a[i].level, b[i].level, b[i].level);
    }
  }

  /** The combination is above its first argument. */
  lemma UpperIsAbove(a: FieldList, b: FieldList)
    requires |a| == |b|
    ensures Below(a, Upper(a, b))
  {
  }

  /** Renaming and combining act on different components, so they commute. */
  lemma RenameUpper(a: FieldList, b: FieldList, names: seq<string>)
    requires |a| == |b| && |names| <= |a|
    ensures Rename(Upper(a, b), names) == Ok(Upper(Rename(a, names).value, b))
  {
    var l := Rename(Upper(a, b), names).value;
    var r := Upper(Rename(a, names).value, b);
    assert forall i :: 0 <= i < |a| ==> l[i] == r[i];
  }

  /** How far a list still is from being entirely FULL: the measure that bounds the fixpoint. */
  function Potential(fs: FieldList): (r: nat)
    ensures r <= 2 * |fs|
  {
    if |fs| == 0 then 0 else (2 - Rank(fs[0].level)) + Potential(fs[1..])
  }

  /**
    Combining never raises the potential, and lowers it whenever it changes the
    list: levels only rise, and they cannot rise past FULL.
   */
  lemma {:induction false} UpperLowersPotential(a: FieldList, b: FieldList)
    requires |a| == |b|
    ensures Potential(Upper(a, b)) <= Potential(a)
    ensures Upper(a, b) != a ==> Potential(Upper(a, b)) < Potential(a)
  {
    if |a| > 0 {
      var u := Upper(a, b);
      UpperLowersPotential(a[1..], b[1..]);
      assert u[1..] == Upper(a[1..], b[1..]);
      if u != a {
        if u[1..] == a[1..] {
          assert u[0] != a[0];
        }
      }
    }
  }
}
