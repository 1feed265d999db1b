# Flatten: a double-ended flattening adaptor

This project models the `Flatten` adaptor of `src/lib.rs`. It turns an outer
producer of inner sequences into the single stream of their elements, and it
can be pulled from both ends. It holds three pieces of state:

- `outer`: the part of the outer producer that neither end has consumed yet;
- `next_iter`: the inner sequence being drained from its front by `next`;
- `back_iter`: the inner sequence being drained from its back by `next_back`.

The model has three modules:

- `Sequences`: the vocabulary used to state the results — concatenation of
  inner sequences (`Concat`), the total of their lengths (`SumLengths`), and
  reversal (`Reverse`) — with the lemmas about them.
- `Flattening`: the adaptor itself. The class `Flatten` has the source's
  three fields. `Next` and `NextBack` keep the source's `loop`: each pass
  returns, or clears the drained cursor and takes one inner sequence off the
  matching end of `outer`. Each method is proved equal to a recursive
  specification function on the state value `FlattenState`: `Advance` for
  `Next`, `AdvanceBack` for `NextBack`. The lemmas on those functions state
  what a pull does. The central one is about the remaining elements,
  `Remaining = next cursor ++ Concat(outer) ++ back cursor`. A forward pull
  yields and removes exactly its first element; a backward pull yields and
  removes exactly its last; either pull yields `None` exactly when nothing
  remains; and once nothing remains, every later pull yields `None`.
- `Traversals`: callers that pull repeatedly, modelling what the unit tests
  at `src/lib.rs:104-150` rely on. They pull forward to the end, backward to
  the end, in any interleaving given as a list of directions, and in the
  alternating `both_ends` scenario.

Two details of the source are kept exactly:

- At the meeting point (once `outer` is exhausted), `next` pulls the
  backward cursor from its front. When that cursor is present but empty, it
  is left in place rather than cleared. `next_back` mirrors this on the
  forward cursor.
- The cursor a pull drains itself is cleared to `None` once it is
  exhausted, before the next inner sequence is installed. Empty inner
  sequences are therefore skipped without yielding `None`.

## Model

| member | source | states |
|---|---|---|
| Flattening.Flatten.constructor | src/lib.rs:26-32 | a new adaptor holds the whole outer sequence with both cursors absent, so its remaining elements are the concatenation of the inner sequences |
| Flattening.FlattenOf | src/lib.rs:1-7 | `flatten` builds a fresh adaptor over the whole outer sequence, whose remaining elements are its concatenation |
| Flattening.Flatten.Next | src/lib.rs:43-65 | the looping forward pull leaves exactly the state and yields exactly the value that the specification function `Advance` gives for the old state |
| Flattening.Flatten.NextBack | src/lib.rs:76-97 | the looping backward pull leaves exactly the state and yields exactly the value that `AdvanceBack` gives for the old state |
| Flattening.AdvanceFromCursor | src/lib.rs:46-48 | a forward cursor with elements yields its front element and loses it, while `outer` and the backward cursor are unchanged |
| Flattening.AdvanceBeforeMeeting | src/lib.rs:45-58 | while the forward cursor and `outer` still hold elements, a forward pull yields the first of them and removes only it, skipping exhausted and empty inner sequences without a `None`, and it does not touch the backward cursor |
| Flattening.AdvanceAtMeeting | src/lib.rs:59-62 | once the forward cursor and `outer` are used up, a forward pull yields the front of the backward cursor, or `None` exactly when that cursor is absent or empty; the forward cursor ends cleared and the backward cursor loses its front |
| Flattening.AdvanceOuterSuffix | src/lib.rs:56-58 | a forward pull takes inner sequences only from the front of `outer`, leaving a suffix of it |
| Flattening.AdvanceRemaining | src/lib.rs:43-65 | a forward pull yields `None` exactly when nothing remains, and then nothing remains afterwards; otherwise it yields the first remaining element, and afterwards exactly the rest remains |
| Flattening.AdvanceBackFromCursor | src/lib.rs:78-80 | a backward cursor with elements yields its back element and loses it, while `outer` and the forward cursor are unchanged |
| Flattening.AdvanceBackBeforeMeeting | src/lib.rs:77-90 | while `outer` and the backward cursor still hold elements, a backward pull yields the last of them and removes only it, and it does not touch the forward cursor |
| Flattening.AdvanceBackAtMeeting | src/lib.rs:91-94 | once `outer` and the backward cursor are used up, a backward pull yields the back of the forward cursor, or `None` exactly when that cursor is absent or empty; the backward cursor ends cleared |
| Flattening.AdvanceBackOuterPrefix | src/lib.rs:88-90 | a backward pull takes inner sequences only from the back of `outer`, leaving a prefix of it |
| Flattening.RemainingSplits | src/lib.rs:9-19 | the remaining elements are equally the forward cursor followed by what backward pulls can reach |
| Flattening.AdvanceBackRemaining | src/lib.rs:76-97 | a backward pull yields `None` exactly when nothing remains, and then nothing remains afterwards; otherwise it yields the last remaining element, and afterwards exactly the elements before it remain |
| Flattening.ExhaustedStaysExhausted | src/lib.rs:142-150 | once nothing remains, forward and backward pulls both yield `None` and nothing remains afterwards |
| Sequences.ConcatSnoc | src/lib.rs:88-90 | appending an inner sequence at the back of the outer sequence appends its elements at the back of the concatenation, which is what consuming `outer` from its back relies on |
| Sequences.ConcatLast | src/lib.rs:88-90 | taking the last inner sequence off a non-empty outer sequence takes its elements off the back of the concatenation |
| Sequences.ConcatLength | src/lib.rs:104-122 | the concatenation has as many elements as the inner sequences have together |
| Sequences.ReverseSnoc | src/lib.rs:124-140 | reversing a sequence with one more element at its back puts that element first |
| Traversals.Collect | src/lib.rs:104-122 | pulling forward until the first `None` yields exactly the concatenation of the inner sequences, in outer order |
| Traversals.Count | src/lib.rs:104-122 | the number of values that forward pulls yield before the first `None` is the sum of the inner sequences' lengths |
| Traversals.CollectBack | src/lib.rs:124-140 | pulling backward until the first `None` yields exactly the reverse of the concatenation |
| Traversals.Pull | src/lib.rs:43-97 | one pull in either direction yields `None` exactly when nothing remained, and then nothing remains; otherwise it yields the first (forward) or last (backward) remaining element and removes exactly it |
| Traversals.Drive | src/lib.rs:142-150 | for any interleaving of forward and backward pulls: pull `i` yields a value exactly when `i` is below the total number of elements; the forward values are a prefix of the concatenation and the backward values, reversed, a suffix; no element is yielded twice; and with enough pulls the two together make up the whole concatenation |
| Traversals.BothEnds | src/lib.rs:142-150 | over `[[a, b], [c, d]]`, alternating forward and backward pulls yield `a`, `d`, `b`, `c`, then `None` in both directions |

## Left out

- Rust's trait machinery is not modelled: the `IntoIterator` and `DoubleEndedIterator` bounds, and the `into_iter()` conversions at `src/lib.rs:6`, `58` and `90`. Outer elements are sequences, and converting one into an iterator is the identity.
- General user iterators are not modelled. The model covers finite, sequence-backed producers whose front and back pulls share one storage. Non-fused iterators, which can yield again after `None`, and iterators with side effects are outside it.
- The `?` operator and the `as_mut()` borrows at `src/lib.rs:62` and `94` appear only as a case split on `Option`.
- The standard-library helpers the tests use (`std::iter::empty`, `once`, `count`, `rev`, `collect`) are modelled only as callers that pull until `None` (`Collect`, `Count`, `CollectBack`). The concrete test inputs follow from those methods' contracts.
- Flattening.Flatten.Next: its contract ties the method to the specification function `Advance`. The laws a forward pull obeys are stated as lemmas about `Advance`, not as further `ensures` clauses of the method. `Traversals.Pull` restates them for a live adaptor.
- Flattening.Flatten.NextBack: the same holds for `AdvanceBack`.
