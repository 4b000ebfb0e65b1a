/**
  Ruby's `case x when r1 ... when rn ... else d end` over numeric ranges.

  A range literal `lo..hi` covers both ends and `lo...hi` leaves out `hi`;
  `when` clauses are tried in order and the first range that covers `x` wins,
  so a value sitting on an edge shared by two clauses goes to the earlier one.
  When no clause covers `x`, the `else` value is taken (a `case` without an
  `else` is modelled by passing the neutral value as `otherwise`).
 */
module RubyCase {

  /** A Ruby numeric range literal. */
  datatype Range = Inclusive(lo: real, hi: real)   // lo..hi
                 | Exclusive(lo: real, hi: real)   // lo...hi

  /** `range === x`, the test a `when` clause performs. */
  predicate Covers(range: Range, x: real) {
    match range
    case Inclusive(lo, hi) => lo <= x <= hi
    case Exclusive(lo, hi) => lo <= x < hi
  }

  /** One `when range then value` clause. */
  datatype When<V> = When(range: Range, value: V)

  /** True iff clause `k` is the first clause of `clauses` whose range covers `x`. */
  predicate IsFirstMatch<V>(clauses: seq<When<V>>, x: real, k: int) {
    && 0 <= k < |clauses|
    && Covers(clauses[k].range, x)
    && forall j :: 0 <= j < k ==> !Covers(clauses[j].range, x)
  }

  /** Position of the first clause that covers `x`, or `|clauses|` when none does. */
  function FirstMatch<V>(clauses: seq<When<V>>, x: real): (k: nat)
    ensures k <= |clauses|
    ensures forall j :: 0 <= j < k ==> !Covers(clauses[j].range, x)
    ensures k < |clauses| ==> Covers(clauses[k].range, x)
  {
    if |clauses| == 0 then 0
    else if Covers(clauses[0].range, x) then 0
    else 1 + FirstMatch(clauses[1..], x)
  }

  /** The value a `case` expression produces for `x`. */
  function Case<V>(clauses: seq<When<V>>, x: real, otherwise: V): (v: V)
    ensures forall k :: IsFirstMatch(clauses, x, k) ==> v == clauses[k].value
    ensures (forall j :: 0 <= j < |clauses| ==> !Covers(clauses[j].range, x)) ==> v == otherwise
  {
    var k := FirstMatch(clauses, x);
    if k < |clauses| then clauses[k].value else otherwise
  }
}
