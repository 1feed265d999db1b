/** The double-ended flattening adaptor: an outer sequence of inner
    sequences, consumed from either end, and two optional cursors, one
    drained from its front by forward pulls and one drained from its back
    by backward pulls. An inner sequence stands for the iterator the
    source obtains from it; pulling from its front or back removes that
    element, and both ends share one storage. */
module Flattening {
  import opened Sequences

  datatype Option<T> = None | Some(value: T)

  /** The elements a cursor still holds; an absent cursor holds none. */
  function Cursor<T>(c: Option<seq<T>>): seq<T>
  {
    match c
    case None => []
    case Some(s) => s
  }

  /** What one pull from the front of a cursor yields (`inner.next()`). */
  function FrontOf<T>(c: Option<seq<T>>): Option<T>
  {
    if Cursor(c) == [] then None else Some(Cursor(c)[0])
  }

  /** What one pull from the back of a cursor yields (`inner.next_back()`). */
  function BackOf<T>(c: Option<seq<T>>): Option<T>
  {
    if Cursor(c) == [] then None else Some(Cursor(c)[|Cursor(c)| - 1])
  }

  /** The cursor after one pull from its front: an absent or empty cursor
      is left as it is. */
  function PulledFront<T>(c: Option<seq<T>>): (r: Option<seq<T>>)
    ensures Cursor(r) == if Cursor(c) == [] then [] else Cursor(c)[1..]
    ensures r.None? <==> c.None?
  {
    match c
    case Some(s) => if s == [] then c else Some(s[1..])
    case None => None
  }

  /** The cursor after one pull from its back. */
  function PulledBack<T>(c: Option<seq<T>>): (r: Option<seq<T>>)
    ensures Cursor(r) == if Cursor(c) == [] then [] else Cursor(c)[..|Cursor(c)| - 1]
    ensures r.None? <==> c.None?
  {
    match c
    case Some(s) => if s == [] then c else Some(s[..|s| - 1])
    case None => None
  }

  /** The three fields of the adaptor, as one value. */
  datatype FlattenState<T> = FlattenState(
    outer: seq<seq<T>>,
    nextIter: Option<seq<T>>,
    backIter: Option<seq<T>>)

  /** Everything still to be yielded, in forward order. */
  function Remaining<T>(s: FlattenState<T>): seq<T>
  {
    Cursor(s.nextIter) + Concat(s.outer) + Cursor(s.backIter)
  }

  /** What forward pulls reach before the meeting point. */
  function FrontPart<T>(s: FlattenState<T>): seq<T>
  {
    Cursor(s.nextIter) + Concat(s.outer)
  }

  /** What backward pulls reach before the meeting point. */
  function BackPart<T>(s: FlattenState<T>): seq<T>
  {
    Concat(s.outer) + Cursor(s.backIter)
  }

  /** The forward pull's effect, one case per pass of the source's loop:
      a forward cursor with elements serves the pull; otherwise it is
      cleared and, while the outer sequence has elements, the next inner
      sequence is installed and the loop goes round again; once the outer
      sequence is exhausted (the meeting point) the backward cursor is
      pulled from its front. Yields the new state and the pulled value. */
  function Advance<T>(s: FlattenState<T>): (FlattenState<T>, Option<T>)
    decreases |s.outer|
  {
    if Cursor(s.nextIter) != [] then
      (s.(nextIter := PulledFront(s.nextIter)), FrontOf(s.nextIter))
    else if s.outer != [] then
      Advance(FlattenState(s.outer[1..], Some(s.outer[0]), s.backIter))
    else
      (FlattenState(s.outer, None, PulledFront(s.backIter)), FrontOf(s.backIter))
  }

  /** The backward pull's effect, the mirror image of Advance: the outer
      sequence is consumed from its back, and at the meeting point the
      forward cursor is pulled from its back. */
  function AdvanceBack<T>(s: FlattenState<T>): (FlattenState<T>, Option<T>)
    decreases |s.outer|
  {
    if Cursor(s.backIter) != [] then
      (s.(backIter := PulledBack(s.backIter)), BackOf(s.backIter))
    else if s.outer != [] then
      AdvanceBack(FlattenState(s.outer[..|s.outer| - 1], s.nextIter, Some(s.outer[|s.outer| - 1])))
    else
      (FlattenState(s.outer, PulledBack(s.nextIter), None), BackOf(s.nextIter))
  }

  /** A forward cursor with elements left serves the pull on its own and
      nothing else changes. */
  lemma AdvanceFromCursor<T>(s: FlattenState<T>)
    requires Cursor(s.nextIter) != []
    ensures Advance(s).1 == Some(Cursor(s.nextIter)[0])
    ensures Advance(s).0 == s.(nextIter := Some(Cursor(s.nextIter)[1..]))
  {
  }

  /** Before the meeting point a forward pull yields the first element
      forward pulls can reach, removes just that element from them, and
      leaves the backward cursor alone; exhausted and empty inner
      sequences are skipped without yielding None. */
  lemma {:induction false} AdvanceBeforeMeeting<T>(s: FlattenState<T>)
    requires FrontPart(s) != []
    ensures Advance(s).1 == Some(FrontPart(s)[0])
    ensures FrontPart(Advance(s).0) == FrontPart(s)[1..]
    ensures Advance(s).0.backIter == s.backIter
    decreases |s.outer|
  {
    if Cursor(s.nextIter) != [] {
      PullFront(Cursor(s.nextIter), Concat(s.outer));
    } else {
      var t := FlattenState(s.outer[1..], Some(s.outer[0]), s.backIter);
      assert FrontPart(t) == FrontPart(s);
      AdvanceBeforeMeeting(t);
    }
  }

  /** At the meeting point a forward pull finds the outer sequence and the
      forward cursor used up, and pulls the backward cursor from its
      front: None exactly when that cursor is absent or empty. */
  lemma {:induction false} AdvanceAtMeeting<T>(s: FlattenState<T>)
    requires FrontPart(s) == []
    ensures Advance(s).1 == FrontOf(s.backIter)
    ensures Advance(s).0 == FlattenState([], None, PulledFront(s.backIter))
    decreases |s.outer|
  {
    if s.outer != [] {
      var t := FlattenState(s.outer[1..], Some(s.outer[0]), s.backIter);
      assert FrontPart(t) == FrontPart(s);
      AdvanceAtMeeting(t);
    }
  }

  /** A forward pull consumes the outer sequence only from its front. */
  lemma {:induction false} AdvanceOuterSuffix<T>(s: FlattenState<T>)
    ensures |Advance(s).0.outer| <= |s.outer|
    ensures Advance(s).0.outer == s.outer[|s.outer| - |Advance(s).0.outer|..]
    decreases |s.outer|
  {
    if Cursor(s.nextIter) == [] && s.outer != [] {
      var t := FlattenState(s.outer[1..], Some(s.outer[0]), s.backIter);
      AdvanceOuterSuffix(t);
    }
  }

  /** The central law of the forward pull: it yields the first remaining
      element and removes exactly that one, or yields None exactly when
      nothing remains. */
  lemma AdvanceRemaining<T>(s: FlattenState<T>)
    ensures Advance(s).1.None? <==> Remaining(s) == []
    ensures Advance(s).1.Some? ==> Remaining(s) == [Advance(s).1.value] + Remaining(Advance(s).0)
    ensures Advance(s).1.None? ==> Remaining(Advance(s).0) == []
  {
    var back := Cursor(s.backIter);
    if FrontPart(s) != [] {
      AdvanceBeforeMeeting(s);
      PullFront(FrontPart(s), back);
    } else {
      AdvanceAtMeeting(s);
    }
  }

  /** A backward cursor with elements left serves the pull on its own and
      nothing else changes. */
  lemma AdvanceBackFromCursor<T>(s: FlattenState<T>)
    requires Cursor(s.backIter) != []
    ensures AdvanceBack(s).1 == Some(Cursor(s.backIter)[|Cursor(s.backIter)| - 1])
    ensures AdvanceBack(s).0 == s.(backIter := Some(Cursor(s.backIter)[..|Cursor(s.backIter)| - 1]))
  {
  }

  /** Before the meeting point a backward pull yields the last element
      backward pulls can reach, removes just that element from them, and
      leaves the forward cursor alone. */
  lemma {:induction false} AdvanceBackBeforeMeeting<T>(s: FlattenState<T>)
    requires BackPart(s) != []
    ensures AdvanceBack(s).1 == Some(BackPart(s)[|BackPart(s)| - 1])
    ensures BackPart(AdvanceBack(s).0) == BackPart(s)[..|BackPart(s)| - 1]
    ensures AdvanceBack(s).0.nextIter == s.nextIter
    decreases |s.outer|
  {
    if Cursor(s.backIter) != [] {
      PullBack(Concat(s.outer), Cursor(s.backIter));
    } else {
      var n := |s.outer| - 1;
      var t := FlattenState(s.outer[..n], s.nextIter, Some(s.outer[n]));
      ConcatLast(s.outer);
      assert BackPart(t) == BackPart(s);
      AdvanceBackBeforeMeeting(t);
    }
  }

  /** At the meeting point a backward pull finds the outer sequence and the
      backward cursor used up, and pulls the forward cursor from its back:
      None exactly when that cursor is absent or empty. */
  lemma {:induction false} AdvanceBackAtMeeting<T>(s: FlattenState<T>)
    requires BackPart(s) == []
    ensures AdvanceBack(s).1 == BackOf(s.nextIter)
    ensures AdvanceBack(s).0 == FlattenState([], PulledBack(s.nextIter), None)
    decreases |s.outer|
  {
    if s.outer != [] {
      var n := |s.outer| - 1;
      var t := FlattenState(s.outer[..n], s.nextIter, Some(s.outer[n]));
      ConcatLast(s.outer);
      assert BackPart(t) == BackPart(s);
      AdvanceBackAtMeeting(t);
    }
  }

  /** A backward pull consumes the outer sequence only from its back. */
  lemma {:induction false} AdvanceBackOuterPrefix<T>(s: FlattenState<T>)
    ensures |AdvanceBack(s).0.outer| <= |s.outer|
    ensures AdvanceBack(s).0.outer == s.outer[..|AdvanceBack(s).0.outer|]
    decreases |s.outer|
  {
    if Cursor(s.backIter) == [] && s.outer != [] {
      var n := |s.outer| - 1;
      var t := FlattenState(s.outer[..n], s.nextIter, Some(s.outer[n]));
      AdvanceBackOuterPrefix(t);
    }
  }

  /** The remaining elements are also the forward cursor followed by what
      backward pulls reach. */
  lemma RemainingSplits<T>(s: FlattenState<T>)
    ensures Remaining(s) == Cursor(s.nextIter) + BackPart(s)
  {
    assert Cursor(s.nextIter) + Concat(s.outer) + Cursor(s.backIter)
        == Cursor(s.nextIter) + (Concat(s.outer) + Cursor(s.backIter));
  }

  /** The central law of the backward pull: it yields the last remaining
      element and removes exactly that one, or yields None exactly when
      nothing remains. */
  lemma AdvanceBackRemaining<T>(s: FlattenState<T>)
    ensures AdvanceBack(s).1.None? <==> Remaining(s) == []
    ensures AdvanceBack(s).1.Some? ==>
      Remaining(s) == Remaining(AdvanceBack(s).0) + [AdvanceBack(s).1.value]
    ensures AdvanceBack(s).1.None? ==> Remaining(AdvanceBack(s).0) == []
  {
    RemainingSplits(s);
    RemainingSplits(AdvanceBack(s).0);
    var front := Cursor(s.nextIter);
    if BackPart(s) != [] {
      AdvanceBackBeforeMeeting(s);
      PullBack(front, BackPart(s));
    } else {
      AdvanceBackAtMeeting(s);
    }
  }

  /** Exhaustion is terminal: once nothing remains, every further pull in
      either direction yields None and leaves nothing remaining. */
  lemma ExhaustedStaysExhausted<T>(s: FlattenState<T>)
    requires Remaining(s) == []
    ensures Advance(s).1 == None && Remaining(Advance(s).0) == []
    ensures AdvanceBack(s).1 == None && Remaining(AdvanceBack(s).0) == []
  {
    AdvanceRemaining(s);
    AdvanceBackRemaining(s);
  }

  class Flatten<T> {
    /** The part of the outer producer consumed by neither end yet. */
    var outer: seq<seq<T>>
    /** The inner sequence being drained from its front, if any. */
    var nextIter: Option<seq<T>>
    /** The inner sequence being drained from its back, if any. */
    var backIter: Option<seq<T>>

    /** The adaptor's fields as one value. */
    function State(): FlattenState<T>
      reads this
    {
      FlattenState(outer, nextIter, backIter)
    }

    /** A new adaptor holds the whole outer sequence and no cursor. */
    constructor (outer: seq<seq<T>>)
      ensures State() == FlattenState(outer, None, None)
      ensures Remaining(State()) == Concat(outer)
    {
      this.outer := outer;
      nextIter := None;
      backIter := None;
    }

    /** Forward pull: the source's `next`, with its loop. */
    method Next() returns (r: Option<T>)
      modifies this
      ensures (State(), r) == Advance(old(State()))
    {
      ghost var s0 := State();
      while true
        invariant Advance(FlattenState(outer, nextIter, backIter)) == Advance(s0)
        decreases |outer|
      {
        if nextIter.Some? {
          var inner := nextIter.value;
          if inner != [] {
            nextIter := Some(inner[1..]);
            return Some(inner[0]);
          }
          nextIter := None;
        }
        if outer != [] {
          var nextInner := outer[0];
          outer := outer[1..];
          nextIter := Some(nextInner);
        } else {
          // The meeting point: drain the backward cursor from its front.
          match backIter
          case None =>
            return None;
          case Some(back) =>
            if back == [] {
              return None;
            }
            backIter := Some(back[1..]);
            return Some(back[0]);
        }
      }
    }

    /** Backward pull: the source's `next_back`, with its loop. */
    method NextBack() returns (r: Option<T>)
      modifies this
      ensures (State(), r) == AdvanceBack(old(State()))
    {
      ghost var s0 := State();
      while true
        invariant AdvanceBack(FlattenState(outer, nextIter, backIter)) == AdvanceBack(s0)
        decreases |outer|
      {
        if backIter.Some? {
          var inner := backIter.value;
          if inner != [] {
            backIter := Some(inner[..|inner| - 1]);
            return Some(inner[|inner| - 1]);
          }
          backIter := None;
        }
        if outer != [] {
          var nextBackInner := outer[|outer| - 1];
          outer := outer[..|outer| - 1];
          backIter := Some(nextBackInner);
        } else {
          // The meeting point: drain the forward cursor from its back.
          match nextIter
          case None =>
            return None;
          case Some(front) =>
            if front == [] {
              return None;
            }
            nextIter := Some(front[..|front| - 1]);
            return Some(front[|front| - 1]);
        }
      }
    }
  }

  /** The source's `flatten`: an adaptor over the whole outer sequence. */
  method FlattenOf<T>(outer: seq<seq<T>>) returns (f: Flatten<T>)
    ensures fresh(f)
    ensures f.State() == FlattenState(outer, None, None)
    ensures Remaining(f.State()) == Concat(outer)
  {
    f := new Flatten(outer);
  }
}
