/** The masking-level lattice: NONE < PARTIAL < FULL, combined by taking the maximum. */
module MaskingLevels {

  datatype MaskingLevel = NONE | PARTIAL | FULL

  /** Position of a level in the total order. */
  function Rank(l: MaskingLevel): (r: nat)
    ensures r <= 2
    ensures r == 0 <==> l == NONE
    ensures r == 2 <==> l == FULL
  {
    match l
    case NONE => 0
    case PARTIAL => 1
    case FULL => 2
  }

  /** `a` is at most as strict as `b`. */
  predicate AtMost(a: MaskingLevel, b: MaskingLevel) {
    Rank(a) <= Rank(b)
  }

  /** Least upper bound of two levels: the stricter one. */
  function Combine(a: MaskingLevel, b: MaskingLevel): (r: MaskingLevel)
    ensures AtMost(a, r) && AtMost(b, r)
    ensures r == a || r == b
  {
    if Rank(a) >= Rank(b) then a else b
  }

  /** `Combine` is the join of a semilattice, with NONE as its unit and FULL absorbing. */
  lemma CombineLaws(a: MaskingLevel, b: MaskingLevel, c: MaskingLevel)
    ensures Combine(a, b) == Combine(b, a)
    ensures Combine(Combine(a, b), c) == Combine(a, Combine(b, c))
    ensures Combine(a, a) == a
    ensures Combine(NONE, a) == a && Combine(FULL, a) == FULL
    ensures AtMost(a, c) && AtMost(b, c) ==> AtMost(Combine(a, b), c)
  {
  }

  /** The strictest of any number of levels; NONE when there are none. */
  function MaxLevel(ls: seq<MaskingLevel>): (r: MaskingLevel)
    ensures forall i :: 0 <= i < |ls| ==> AtMost(ls[i], r)
    ensures |ls| == 0 ==> r == NONE
    ensures |ls| > 0 ==> r in ls
  {
    if |ls| == 0 then NONE else Combine(ls[0], MaxLevel(ls[1..]))
  }

  /** Folding a concatenation folds each part and combines the two. */
  lemma {:induction false} MaxLevelAppend(a: seq<MaskingLevel>, b: seq<MaskingLevel>)
    ensures MaxLevel(a + b) == Combine(MaxLevel(a), MaxLevel(b))
  {
    if |a| == 0 {
      assert a + b == b;
    } else {
      assert (a + b)[1..] == a[1..] + b;
      MaxLevelAppend(a[1..], b);
    }
  }
}
