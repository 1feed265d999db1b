/** Sequence vocabulary used to state what a flattening adaptor yields:
    the concatenation of a sequence of sequences, the total of their
    lengths, and the reverse of a sequence. */
module Sequences {

  /** The inner sequences of `ss` laid end to end, in order. */
  function Concat<T>(ss: seq<seq<T>>): seq<T>
  {
    if ss == [] then [] else ss[0] + Concat(ss[1..])
  }

  /** The sum of the lengths of the inner sequences of `ss`. */
  function SumLengths<T>(ss: seq<seq<T>>): nat
  {
    if ss == [] then 0 else |ss[0]| + SumLengths(ss[1..])
  }

  /** `s` read from its last element to its first. */
  function Reverse<T>(s: seq<T>): (r: seq<T>)
    ensures |r| == |s|
  {
    if s == [] then [] else [s[|s| - 1]] + Reverse(s[..|s| - 1])
  }

  /** Appending one more inner sequence at the back appends its elements
      at the back of the concatenation: this is what lets the outer
      sequence be consumed from its back end. */
  lemma {:induction false} ConcatSnoc<T>(ss: seq<seq<T>>, s: seq<T>)
    ensures Concat(ss + [s]) == Concat(ss) + s
  {
    if ss == [] {
      assert ss + [s] == [s];
      assert [s][1..] == [];
    } else {
      calc {
        Concat(ss + [s]);
        (ss + [s])[0] + Concat((ss + [s])[1..]);
        { assert (ss + [s])[1..] == ss[1..] + [s]; }
        ss[0] + Concat(ss[1..] + [s]);
        { ConcatSnoc(ss[1..], s); }
        ss[0] + (Concat(ss[1..]) + s);
      }
    }
  }

  /** Splitting the last inner sequence off a non-empty outer sequence
      splits its last elements off the concatenation. */
  lemma ConcatLast<T>(ss: seq<seq<T>>)
    requires ss != []
    ensures Concat(ss) == Concat(ss[..|ss| - 1]) + ss[|ss| - 1]
  {
    assert ss == ss[..|ss| - 1] + [ss[|ss| - 1]];
    ConcatSnoc(ss[..|ss| - 1], ss[|ss| - 1]);
  }

  /** The concatenation holds exactly as many elements as the inner
      sequences hold together. */
  lemma {:induction false} ConcatLength<T>(ss: seq<seq<T>>)
    ensures |Concat(ss)| == SumLengths(ss)
  {
    if ss != [] {
      ConcatLength(ss[1..]);
    }
  }

  /** Reversing a sequence with one more element at its back puts that
      element first. */
  lemma ReverseSnoc<T>(s: seq<T>, x: T)
    ensures Reverse(s + [x]) == [x] + Reverse(s)
  {
    assert (s + [x])[..|s|] == s;
  }

  /** Pulling the front of a concatenation whose first part is non-empty
      pulls the front of that part. */
  lemma PullFront<T>(a: seq<T>, b: seq<T>)
    requires a != []
    ensures (a + b)[0] == a[0] && (a + b)[1..] == a[1..] + b
  {
  }

  /** Pulling the back of a concatenation whose last part is non-empty
      pulls the back of that part. */
  lemma PullBack<T>(a: seq<T>, b: seq<T>)
    requires b != []
    ensures (a + b)[|a + b| - 1] == b[|b| - 1] && (a + b)[..|a + b| - 1] == a + b[..|b| - 1]
  {
  }
}
