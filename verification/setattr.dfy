/**
 * The partial-update loop shared by every `update_*` function of backend/crud/crud.py:
 * `for field, value in update_data.items(): setattr(row, field, value)`, where
 * `update_data` holds exactly the fields the caller sent.
 */
module Partial {

  /** The row after assigning each item in turn. */
  function Fold<F, A>(setattr: (F, A) -> F, row: F, items: seq<A>): F
    decreases |items|
  {
    if items == [] then row else Fold(setattr, setattr(row, items[0]), items[1..])
  }

  /** Assigning two runs of items is assigning the first run and then the second. */
  lemma {:induction false} FoldConcat<F, A>(setattr: (F, A) -> F, row: F, xs: seq<A>, ys: seq<A>)
    ensures Fold(setattr, row, xs + ys) == Fold(setattr, Fold(setattr, row, xs), ys)
    decreases |xs|
  {
    if xs != [] {
      assert (xs + ys)[0] == xs[0];
      assert (xs + ys)[1..] == xs[1..] + ys;
      FoldConcat(setattr, setattr(row, xs[0]), xs[1..], ys);
    } else {
      assert xs + ys == ys;
    }
  }

  /**
   * A field contributes at most one item to `update_data`: assigning it and then the rest
   * is assigning the rest to `next`, the row with that one field set (or the row itself
   * when the field was not sent).
   */
  lemma FoldField<F, A>(setattr: (F, A) -> F, row: F, field: seq<A>, rest: seq<A>, next: F)
    requires |field| <= 1
    requires next == if field == [] then row else setattr(row, field[0])
    ensures Fold(setattr, row, field + rest) == Fold(setattr, next, rest)
  {
    FoldConcat(setattr, row, field, rest);
    if field != [] {
      assert field[1..] == [];
    }
  }

  /** The loop itself: assigns every item of `update_data` to the row, in order. */
  method SetAttrs<F, A>(setattr: (F, A) -> F, row: F, items: seq<A>) returns (r: F)
    ensures r == Fold(setattr, row, items)
  {
    r := row;
    var i := 0;
    while i < |items|
      invariant 0 <= i <= |items|
      invariant Fold(setattr, r, items[i..]) == Fold(setattr, row, items)
    {
      assert items[i..][1..] == items[i + 1..];
      r := setattr(r, items[i]);
      i := i + 1;
    }
  }
}
