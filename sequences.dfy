/** Facts about sequences shared by the trace and log proofs. */
module Sequences {

  /** Helper: the groupings of three appended sequences agree. */
  lemma Assoc<T>(a: seq<T>, b: seq<T>, c: seq<T>)
    ensures a + b + c == a + (b + c)
  {
  }

  /** Helper: the groupings of four appended sequences agree. */
  lemma Regroup<T>(a: seq<T>, b: seq<T>, c: seq<T>, d: seq<T>)
    ensures a + b + c + d == a + (b + c + d)
    ensures a + b + c + d == a + (b + (c + d))
  {
  }

  /** Helper: past a head of length n + 1, the elements of a concatenation
      are those of its tail. */
  lemma ShiftedIndex<T>(whole: seq<T>, head: seq<T>, tail: seq<T>, n: nat)
    requires whole == head + tail && |head| == 1 + n
    ensures |whole| == 1 + n + |tail|
    ensures forall i :: 1 + n <= i < |whole| ==> whole[i] == tail[i - 1 - n]
  {
  }

  /** Helper: after a first element, the elements of a concatenation are
      those of its middle part. */
  lemma MiddleIndex<T>(whole: seq<T>, first: T, mid: seq<T>, tail: seq<T>)
    requires whole == [first] + mid + tail
    ensures whole[0] == first
    ensures forall i :: 1 <= i <= |mid| ==> whole[i] == mid[i - 1]
  {
  }
}
