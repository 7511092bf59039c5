/**
 * The card carousel of the home screen: an index into the list of card ids,
 * moved one step back or forward with wrap-around.
 */
module Home {
  import opened Wrappers

  /** The "previous" button: from the first card to the last, otherwise one back. */
  function PrevIndex(i: nat, len: nat): (r: nat)
    requires len > 0
    ensures i < len ==> r < len
  {
    if i == 0 then len - 1 else i - 1
  }

  /** The "next" button: one forward, from the last card to the first. */
  function NextIndex(i: nat, len: nat): (r: nat)
    requires len > 0
    ensures r < len
  {
    (i + 1) % len
  }

  lemma MulMono(a: int, b: int)
    requires b > 0
    ensures a >= 1 ==> a * b >= b
    ensures a <= -1 ==> a * b <= -b
  {
    if a >= 1 {
      assert a * b == (a - 1) * b + b;
      assert (a - 1) * b >= 0;
    } else if a <= -1 {
      assert a * b == (a + 1) * b - b;
      assert (a + 1) * b <= 0;
    }
  }

  lemma DivModSplit(x: int, len: int)
    requires len > 0
    ensures x == (x / len) * len + x % len && 0 <= x % len < len
  {
  }

  /** Euclidean division is determined by its quotient and remainder. */
  lemma DivModUnique(x: int, len: int, q: int, r: int)
    requires len > 0 && 0 <= r < len && x == q * len + r
    ensures x % len == r && x / len == q
  {
    var q0, r0 := x / len, x % len;
    DivModSplit(x, len);
    assert (q - q0) * len == q * len - q0 * len;
    MulMono(q - q0, len);
  }

  /** Within the list, "next" moves to the following card, from the last back to the first. */
  lemma NextIndexWithin(i: nat, len: nat)
    requires i < len
    ensures NextIndex(i, len) == if i + 1 < len then i + 1 else 0
  {
    if i + 1 < len {
      DivModUnique(i + 1, len, 0, i + 1);
    } else {
      DivModUnique(i + 1, len, 1, 0);
    }
  }

  /** Within the list, "previous" and "next" undo each other. */
  lemma PrevNextInverse(i: nat, len: nat)
    requires i < len
    ensures NextIndex(PrevIndex(i, len), len) == i
    ensures PrevIndex(NextIndex(i, len), len) == i
  {
    NextIndexWithin(i, len);
    NextIndexWithin(PrevIndex(i, len), len);
  }

  /** `k` presses of "next". */
  function Forward(i: nat, len: nat, k: nat): nat
    requires len > 0
  {
    if k == 0 then i else NextIndex(Forward(i, len, k - 1), len)
  }

  /** `k` presses of "next" advance `k` places around the circle, so `len` presses come back. */
  lemma {:induction false} ForwardAround(i: nat, len: nat, k: nat)
    requires i < len
    ensures Forward(i, len, k) == (i + k) % len
    ensures k == len ==> Forward(i, len, k) == i
  {
    if k > 0 {
      ForwardAround(i, len, k - 1);
      NextOfRemainder(i + k - 1, len);
    }
    if k == len {
      DivModUnique(i + len, len, 1, i);
    }
  }

  /** "next" from the remainder of `x` is the remainder of `x + 1`. */
  lemma NextOfRemainder(x: nat, len: nat)
    requires len > 0
    ensures NextIndex(x % len, len) == (x + 1) % len
  {
    var q, r := x / len, x % len;
    DivModSplit(x, len);
    NextIndexWithin(r, len);
    if r + 1 < len {
      DivModUnique(x + 1, len, q, r + 1);
    } else {
      DivModUnique(x + 1, len, q + 1, 0);
    }
  }

  /** The position label "i+1 / len": a 1-based position within the list. */
  function Position(i: nat, len: nat): (shown: (nat, nat))
    ensures shown.1 == len
    ensures i < len ==> 1 <= shown.0 <= shown.1
  {
    (i + 1, len)
  }

  /** The home screen's carousel state, changed in place by its effect and buttons. */
  class Carousel {
    var keys: seq<int>
    var index: Option<nat>

    predicate InBounds()
      reads this
    {
      index.Some? ==> index.value < |keys|
    }

    constructor ()
      ensures keys == [] && index == None && InBounds()
    {
      keys := [];
      index := None;
    }

    /**
     * The effect on a new set of cards: the ids are taken in the order given,
     * and the index goes to the first card when there is one. An index is
     * never cleared, so it may fall outside a shorter list.
     */
    method Load(ids: seq<int>)
      modifies this
      ensures keys == ids
      ensures index == if |ids| > 0 then Some(0) else old(index)
      ensures |ids| > 0 ==> InBounds()
    {
      keys := ids;
      if |ids| > 0 {
        index := Some(0);
      }
    }

    /** The "previous" button, rendered only when there are at least two cards. */
    method PressPrev()
      modifies this
      ensures keys == old(keys)
      ensures index == if |keys| > 1 && old(index).Some? then Some(PrevIndex(old(index).value, |keys|)) else old(index)
      ensures old(InBounds()) ==> InBounds()
    {
      if |keys| > 1 {
        if index.Some? {
          if index.value == 0 {
            index := Some(|keys| - 1);
          } else {
            index := Some(index.value - 1);
          }
        }
      }
    }

    /** The "next" button, rendered only when there are at least two cards. */
    method PressNext()
      modifies this
      ensures keys == old(keys)
      ensures index == if |keys| > 1 && old(index).Some? then Some(NextIndex(old(index).value, |keys|)) else old(index)
      ensures old(InBounds()) || (|keys| > 1 && old(index).Some?) ==> InBounds()
    {
      if |keys| > 1 && index.Some? {
        index := Some((index.value + 1) % |keys|);
      }
    }
  }
}
