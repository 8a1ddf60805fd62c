/** The checksum self-test of the visualizer: a purely advisory comparison of
    the sum of the samples against the sum of the canonical test plate. */
module Integrity {

  datatype Option<T> = None | Some(value: T)

  /** The two sums that checkSum's warning message reports. */
  datatype Mismatch = Mismatch(actual: real, expected: real)

  /** The reference sum of the canonical test plate. */
  const CheckSumVal: real := 14365.942363022965

  /** Python's sum over the array, folded from the left. A plate of
      non-negative readings has a non-negative sum. */
  function Sum(s: seq<real>): (r: real)
    ensures (forall i :: 0 <= i < |s| ==> 0.0 <= s[i]) ==> 0.0 <= r
  {
    if s == [] then 0.0 else Sum(s[..|s| - 1]) + s[|s| - 1]
  }

  /** The sum of a concatenation is the sum of the parts, so the order in
      which the fold visits the rows of a plate does not matter. */
  lemma {:induction false} SumAppend(a: seq<real>, b: seq<real>)
    ensures Sum(a + b) == Sum(a) + Sum(b)
  {
    if b == [] {
      assert a + b == a;
    } else {
      assert (a + b)[..|a + b| - 1] == a + b[..|b| - 1];
      SumAppend(a, b[..|b| - 1]);
    }
  }

  /** checkSum: given the length of the argument vector (the program name
      counts, so 1 means "no extra arguments"), the warning it prints, if
      any, carrying the actual and the expected sum. */
  function CheckSum(argc: nat, ary: seq<real>): (w: Option<Mismatch>)
    ensures argc != 1 ==> w == None
    ensures w.Some? ==> w.value.actual == Sum(ary) && w.value.expected == CheckSumVal
    ensures w.Some? ==> w.value.actual != w.value.expected
    ensures argc == 1 && Sum(ary) != CheckSumVal ==> w.Some?
  {
    var sumAry := Sum(ary);
    if argc == 1 && sumAry != CheckSumVal then Some(Mismatch(sumAry, CheckSumVal))
    else None
  }
}
