/**
 * Folds of a step function over a byte sequence, independent of what the
 * step computes. Both loops of nc_crc32.c are such folds; the facts here are
 * about the order of the steps only.
 */
module Folds {

  /** Feeds `key` to `step` one byte at a time, first byte first; written from the end, as a loop that has consumed a prefix sees it. */
  function FoldLeft<S>(step: (S, bv8) -> S, start: S, key: seq<bv8>): S
  {
    if |key| == 0 then start else step(FoldLeft(step, start, key[..|key| - 1]), key[|key| - 1])
  }

  /** The same fold written from the front: the first byte is applied, and the rest is fed to the result. */
  function FoldFromFront<S>(step: (S, bv8) -> S, start: S, key: seq<bv8>): S
  {
    if |key| == 0 then start else FoldFromFront(step, step(start, key[0]), key[1..])
  }

  /** Feeding `a + b` is feeding `a`, then feeding `b` from where `a` left off. */
  lemma {:induction false} FoldLeftAppend<S>(step: (S, bv8) -> S, start: S, a: seq<bv8>, b: seq<bv8>)
    ensures FoldLeft(step, start, a + b) == FoldLeft(step, FoldLeft(step, start, a), b)
  {
    if |b| != 0 {
      var front := b[..|b| - 1];
      assert (a + b)[..|a + b| - 1] == a + front;
      assert (a + b)[|a + b| - 1] == b[|b| - 1];
      FoldLeftAppend(step, start, a, front);
    } else {
      assert a + b == a;
    }
  }

  /** Appending one byte to the front-written fold applies one more step at the end. */
  lemma {:induction false} FoldFromFrontSnoc<S>(step: (S, bv8) -> S, start: S, key: seq<bv8>, b: bv8)
    ensures FoldFromFront(step, start, key + [b]) == step(FoldFromFront(step, start, key), b)
  {
    if |key| != 0 {
      assert (key + [b])[1..] == key[1..] + [b];
      FoldFromFrontSnoc(step, step(start, key[0]), key[1..], b);
    } else {
      assert (key + [b])[1..] == [];
    }
  }

  /** Two step functions that agree everywhere give the same register, however the fold is written. */
  lemma {:induction false} FoldsAgree<S>(step: (S, bv8) -> S, other: (S, bv8) -> S, start: S, key: seq<bv8>)
    requires forall s, b :: step(s, b) == other(s, b)
    ensures FoldLeft(step, start, key) == FoldFromFront(other, start, key)
  {
    if |key| != 0 {
      var front := key[..|key| - 1];
      FoldsAgree(step, other, start, front);
      FoldFromFrontSnoc(other, start, front, key[|key| - 1]);
      assert front + [key[|key| - 1]] == key;
    }
  }

  /** A nine-element key, unrolled: the fold is nine steps, one per element, in order. */
  lemma FoldLeftNine<S>(step: (S, bv8) -> S, start: S, key: seq<bv8>)
    requires |key| == 9
    ensures FoldLeft(step, start, key)
      == step(step(step(step(step(step(step(step(step(start, key[0]), key[1]), key[2]), key[3]), key[4]), key[5]), key[6]), key[7]), key[8])
  {
    FoldLeftGrows(step, start, key, 0);
    FoldLeftGrows(step, start, key, 1);
    FoldLeftGrows(step, start, key, 2);
    FoldLeftGrows(step, start, key, 3);
    FoldLeftGrows(step, start, key, 4);
    FoldLeftGrows(step, start, key, 5);
    FoldLeftGrows(step, start, key, 6);
    FoldLeftGrows(step, start, key, 7);
    FoldLeftGrows(step, start, key, 8);
    assert key[..9] == key;
  }

  /** One more element of the key is one more step. */
  lemma FoldLeftGrows<S>(step: (S, bv8) -> S, start: S, key: seq<bv8>, i: nat)
    requires i < |key|
    ensures FoldLeft(step, start, key[..i + 1]) == step(FoldLeft(step, start, key[..i]), key[i])
  {
    assert key[..i + 1][..i] == key[..i];
  }
}
