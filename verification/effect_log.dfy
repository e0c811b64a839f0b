/** Counting the entries of an effect log that satisfy a marker predicate. */
module EffectLog {

  /** The number of entries of `log` for which `marks` holds. */
  function Count<T>(log: seq<T>, marks: T -> bool): (n: nat)
    ensures n <= |log|
    ensures n == 0 <==> forall i :: 0 <= i < |log| ==> !marks(log[i])
  {
    if log == [] then 0
    else (if marks(log[0]) then 1 else 0) + Count(log[1..], marks)
  }

  /** Counting distributes over concatenation of logs. */
  lemma {:induction false} CountAppend<T>(a: seq<T>, b: seq<T>, marks: T -> bool)
    ensures Count(a + b, marks) == Count(a, marks) + Count(b, marks)
    decreases |a|
  {
    if a == [] {
      assert a + b == b;
    } else {
      assert (a + b)[1..] == a[1..] + b;
      CountAppend(a[1..], b, marks);
    }
  }
}
