/** Callers that drive a flattening adaptor by repeated pulls until it is
    exhausted, forwards, backwards or in any interleaving of the two. */
module Traversals {
  import opened Sequences
  import opened Flattening

  /** Moving the first remaining element to the end of the collected
      ones keeps their concatenation. */
  lemma FrontShift<T>(all: seq<T>, xs: seq<T>, rest: seq<T>, rest': seq<T>, x: T)
    requires all == xs + rest && rest == [x] + rest'
    ensures all == (xs + [x]) + rest'
  {
    assert xs + ([x] + rest') == (xs + [x]) + rest';
  }

  /** Moving the last remaining element to the end of the elements
      collected backwards keeps the reversed whole. */
  lemma BackShift<T>(all: seq<T>, xs: seq<T>, rest: seq<T>, rest': seq<T>, x: T)
    requires all == xs + Reverse(rest) && rest == rest' + [x]
    ensures all == (xs + [x]) + Reverse(rest')
  {
    ReverseSnoc(rest', x);
    assert xs + ([x] + Reverse(rest')) == (xs + [x]) + Reverse(rest');
  }

  /** Forward pulls until the first None, collecting every value:
      the concatenation of the inner sequences in outer order. */
  method Collect<T>(outer: seq<seq<T>>) returns (xs: seq<T>)
    ensures xs == Concat(outer)
  {
    ghost var all := Concat(outer);
    var f := FlattenOf(outer);
    xs := [];
    ghost var rest := all;
    while true
      invariant rest == Remaining(f.State())
      invariant all == xs + rest
      decreases |rest|
    {
      AdvanceRemaining(f.State());
      var r := f.Next();
      ghost var rest' := Remaining(f.State());
      match r
      case None =>
        assert xs + rest == xs;
        return;
      case Some(x) =>
        FrontShift(all, xs, rest, rest', x);
        xs := xs + [x];
        rest := rest';
    }
  }

  /** Forward pulls until the first None, counting the values: the total
      of the inner sequences' lengths. */
  method Count<T>(outer: seq<seq<T>>) returns (n: nat)
    ensures n == SumLengths(outer)
  {
    var f := FlattenOf(outer);
    n := 0;
    ConcatLength(outer);
    ghost var rest := Concat(outer);
    while true
      invariant rest == Remaining(f.State())
      invariant n + |rest| == SumLengths(outer)
      decreases |rest|
    {
      AdvanceRemaining(f.State());
      var r := f.Next();
      if r.None? {
        return;
      }
      n := n + 1;
      rest := Remaining(f.State());
    }
  }

  /** Backward pulls until the first None, collecting every value: the
      concatenation of the inner sequences, reversed. */
  method CollectBack<T>(outer: seq<seq<T>>) returns (xs: seq<T>)
    ensures xs == Reverse(Concat(outer))
  {
    ghost var all := Reverse(Concat(outer));
    var f := FlattenOf(outer);
    xs := [];
    ghost var rest := Concat(outer);
    while true
      invariant rest == Remaining(f.State())
      invariant all == xs + Reverse(rest)
      decreases |rest|
    {
      AdvanceBackRemaining(f.State());
      var r := f.NextBack();
      ghost var rest' := Remaining(f.State());
      match r
      case None =>
        assert xs + Reverse(rest) == xs;
        return;
      case Some(x) =>
        BackShift(all, xs, rest, rest', x);
        xs := xs + [x];
        rest := rest';
    }
  }

  /** The values among `ys` that were pulled in the given direction, in
      the order they were pulled; `dirs[i]` is true when pull `i` was a
      forward one. */
  function Pulled<T>(ys: seq<Option<T>>, dirs: seq<bool>, forward: bool): seq<T>
    requires |ys| <= |dirs|
  {
    if ys == [] then []
    else
      var n := |ys| - 1;
      Pulled(ys[..n], dirs, forward) +
      (if dirs[n] == forward && ys[n].Some? then [ys[n].value] else [])
  }

  /** One pull more appends its value, if any, to the values pulled in
      its direction. */
  lemma PulledSnoc<T>(ys: seq<Option<T>>, dirs: seq<bool>, r: Option<T>, forward: bool)
    requires |ys| < |dirs|
    ensures Pulled(ys + [r], dirs, forward) ==
      Pulled(ys, dirs, forward) + (if dirs[|ys|] == forward && r.Some? then [r.value] else [])
  {
    assert (ys + [r])[..|ys|] == ys;
  }

  /** Exactly the first `n` of the results `ys` hold a value. */
  ghost predicate ValuesUntil<T>(ys: seq<Option<T>>, n: nat)
  {
    forall j :: 0 <= j < |ys| ==> (ys[j].Some? <==> j < n)
  }

  /** One result more keeps the pattern when it holds a value exactly
      while fewer than `n` pulls came before it. */
  lemma ValuesUntilSnoc<T>(ys: seq<Option<T>>, r: Option<T>, n: nat)
    requires ValuesUntil(ys, n) && (r.Some? <==> |ys| < n)
    ensures ValuesUntil(ys + [r], n)
  {
  }

  /** The outer parts of a three-way split are a prefix and a suffix. */
  lemma SplitEnds<T>(all: seq<T>, a: seq<T>, m: seq<T>, c: seq<T>)
    requires all == a + m + c
    ensures |a| + |c| <= |all|
    ensures a == all[..|a|] && c == all[|all| - |c|..]
    ensures m == [] ==> a + c == all
  {
  }

  /** A forward pull moves the first remaining element to the end of the
      forward values. */
  lemma FrontStep<T>(all: seq<T>, fwd: seq<T>, rest: seq<T>, rest': seq<T>, bwd: seq<T>, x: T)
    requires all == fwd + rest + Reverse(bwd) && rest == [x] + rest'
    ensures all == (fwd + [x]) + rest' + Reverse(bwd)
  {
    assert fwd + ([x] + rest') == (fwd + [x]) + rest';
  }

  /** A backward pull moves the last remaining element to the end of the
      backward values. */
  lemma BackStep<T>(all: seq<T>, fwd: seq<T>, rest: seq<T>, rest': seq<T>, bwd: seq<T>, x: T)
    requires all == fwd + rest + Reverse(bwd) && rest == rest' + [x]
    ensures all == fwd + rest' + Reverse(bwd + [x])
  {
    ReverseSnoc(bwd, x);
    assert (rest' + [x]) + Reverse(bwd) == rest' + ([x] + Reverse(bwd));
  }

  /** One pull in the given direction, with what it does to the
      remaining elements. */
  method Pull<T>(f: Flatten<T>, forward: bool) returns (r: Option<T>)
    modifies f
    ensures r.None? <==> Remaining(old(f.State())) == []
    ensures r.None? ==> Remaining(f.State()) == []
    ensures r.Some? && forward ==> Remaining(old(f.State())) == [r.value] + Remaining(f.State())
    ensures r.Some? && !forward ==> Remaining(old(f.State())) == Remaining(f.State()) + [r.value]
  {
    if forward {
      AdvanceRemaining(f.State());
      r := f.Next();
    } else {
      AdvanceBackRemaining(f.State());
      r := f.NextBack();
    }
  }

  /** Pulls in the order `dirs` gives (true: forward, false: backward),
      recording each result. Whatever the interleaving, pull `i` yields a
      value exactly when `i` is below the total number of elements, so
      once either direction yields None both do from then on; the forward
      values are a prefix of the concatenation and the backward values,
      reversed, a suffix, so no element is yielded twice; and once there
      were enough pulls every element was yielded exactly once. */
  method Drive<T>(outer: seq<seq<T>>, dirs: seq<bool>) returns (ys: seq<Option<T>>)
    ensures |ys| == |dirs|
    ensures forall i :: 0 <= i < |ys| ==> (ys[i].Some? <==> i < |Concat(outer)|)
    ensures |Pulled(ys, dirs, true)| + |Pulled(ys, dirs, false)| <= |Concat(outer)|
    ensures Pulled(ys, dirs, true) == Concat(outer)[..|Pulled(ys, dirs, true)|]
    ensures Reverse(Pulled(ys, dirs, false)) ==
      Concat(outer)[|Concat(outer)| - |Pulled(ys, dirs, false)|..]
    ensures |dirs| >= |Concat(outer)| ==>
      Pulled(ys, dirs, true) + Reverse(Pulled(ys, dirs, false)) == Concat(outer)
    ensures |dirs| >= |Concat(outer)| ==>
      |Pulled(ys, dirs, true)| + |Pulled(ys, dirs, false)| == SumLengths(outer)
  {
    ghost var all := Concat(outer);
    var f := FlattenOf(outer);
    ys := [];
    ghost var fwd, rest, bwd := [], all, [];
    while |ys| < |dirs|
      invariant |ys| <= |dirs|
      invariant fwd == Pulled(ys, dirs, true) && bwd == Pulled(ys, dirs, false)
      invariant rest == Remaining(f.State())
      invariant all == fwd + rest + Reverse(bwd)
      invariant |rest| == if |ys| <= |all| then |all| - |ys| else 0
      invariant ValuesUntil(ys, |all|)
    {
      var r := Pull(f, dirs[|ys|]);
      ghost var rest' := Remaining(f.State());
      PulledSnoc(ys, dirs, r, true);
      PulledSnoc(ys, dirs, r, false);
      if r.Some? {
        if dirs[|ys|] {
          FrontStep(all, fwd, rest, rest', bwd, r.value);
          fwd := fwd + [r.value];
        } else {
          BackStep(all, fwd, rest, rest', bwd, r.value);
          bwd := bwd + [r.value];
        }
      }
      ValuesUntilSnoc(ys, r, |all|);
      rest := rest';
      ys := ys + [r];
    }
    SplitEnds(all, fwd, rest, Reverse(bwd));
    ConcatLength(outer);
  }

  /** Two inner sequences of two, pulled alternately from the front and
      the back: a, d, b, c, and then None in both directions. */
  method BothEnds<T>(a: T, b: T, c: T, d: T) returns (ys: seq<Option<T>>)
    ensures ys == [Some(a), Some(d), Some(b), Some(c), None, None]
  {
    var outer := [[a, b], [c, d]];
    assert Concat(outer[1..]) == [c, d] by {
      assert outer[1..] == [[c, d]] && outer[1..][1..] == [];
    }
    var f := FlattenOf(outer);
    assert Remaining(f.State()) == [a, b, c, d];
    AdvanceRemaining(f.State());
    var r1 := f.Next();
    assert r1 == Some(a) && Remaining(f.State()) == [b, c, d] by {
      assert [a, b, c, d] == [a] + [b, c, d];
    }
    AdvanceBackRemaining(f.State());
    var r2 := f.NextBack();
    assert r2 == Some(d) && Remaining(f.State()) == [b, c] by {
      assert [b, c, d] == [b, c] + [d];
    }
    AdvanceRemaining(f.State());
    var r3 := f.Next();
    assert r3 == Some(b) && Remaining(f.State()) == [c] by {
      assert [b, c] == [b] + [c];
    }
    AdvanceBackRemaining(f.State());
    var r4 := f.NextBack();
    assert r4 == Some(c) && Remaining(f.State()) == [] by {
      assert [c] == [] + [c];
    }
    AdvanceRemaining(f.State());
    var r5 := f.Next();
    AdvanceBackRemaining(f.State());
    var r6 := f.NextBack();
    ys := [r1, r2, r3, r4, r5, r6];
  }
}
