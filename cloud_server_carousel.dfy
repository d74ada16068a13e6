/**
 * `app/articles/cloud-server/page.tsx`: the article's slide carousel. The
 * slides themselves are not modelled, only how many there are; `current`
 * is the React state the arrow and dot buttons set.
 */
module CloudServerCarousel {

  /** JavaScript's `a % b`: the remainder takes the sign of `a`. */
  function JsRem(a: int, b: int): (r: int)
    requires b != 0
    ensures a >= 0 ==> 0 <= r < (if b > 0 then b else -b)
    ensures a >= 0 && b > 0 ==> r == a % b
    ensures a < 0 ==> r <= 0
  {
    var m := if b > 0 then b else -b;
    if a >= 0 then a % m else -((-a) % m)
  }

  /** `(current + 1) % items.length`. */
  function NextIndex(current: int, count: nat): int
    requires count > 0
  {
    JsRem(current + 1, count)
  }

  /** `(current - 1 + items.length) % items.length`. */
  function PrevIndex(current: int, count: nat): int
    requires count > 0
  {
    JsRem(current - 1 + count, count)
  }

  /** Both buttons keep an index in range. */
  lemma {:induction false} StepsStayInRange(current: int, count: nat)
    requires 0 <= current < count
    ensures 0 <= NextIndex(current, count) < count
    ensures 0 <= PrevIndex(current, count) < count
  {
  }

  /** Each button undoes the other. */
  lemma {:induction false} PrevUndoesNext(current: int, count: nat)
    requires 0 <= current < count
    ensures PrevIndex(NextIndex(current, count), count) == current
    ensures NextIndex(PrevIndex(current, count), count) == current
  {
    NextStep(current, count);
    PrevStep(current, count);
    NextStep(PrevIndex(current, count), count);
    PrevStep(NextIndex(current, count), count);
  }

  /** The next button moves one slide forward, wrapping from the last to the first. */
  lemma {:induction false} NextStep(current: int, count: nat)
    requires 0 <= current < count
    ensures NextIndex(current, count) == if current + 1 == count then 0 else current + 1
  {
    if current + 1 == count {
      ModUnique(current + 1, count, 1, 0);
    } else {
      ModUnique(current + 1, count, 0, current + 1);
    }
  }

  /** The previous button moves one slide back, wrapping from the first to the last. */
  lemma {:induction false} PrevStep(current: int, count: nat)
    requires 0 <= current < count
    ensures PrevIndex(current, count) == if current == 0 then count - 1 else current - 1
  {
    if current == 0 {
      ModUnique(count - 1, count, 0, count - 1);
    } else {
      ModUnique(current - 1 + count, count, 1, current - 1);
    }
  }

  /** Euclidean division is unique. */
  lemma {:induction false} ModUnique(a: int, n: int, q: int, r: int)
    requires n > 0 && 0 <= r < n && a == q * n + r
    ensures a % n == r && a / n == q
  {
    var q', r' := a / n, a % n;
    assert a == q' * n + r';
    assert (q - q') * n == r' - r;
    if q > q' {
      MulAtLeast(q - q', n);
    } else if q < q' {
      MulAtLeast(q' - q, n);
    }
  }

  lemma {:induction false} MulAtLeast(x: int, n: int)
    requires x >= 1 && n > 0
    ensures x * n >= n
  {
    assert x * n == (x - 1) * n + n;
    assert (x - 1) * n >= 0;
  }

  /** `k` presses of the next button. */
  function Nexts(current: int, count: nat, k: nat): int
    requires count > 0
  {
    if k == 0 then current else NextIndex(Nexts(current, count, k - 1), count)
  }

  /** `k` presses move forward by `k`, wrapping around. */
  lemma {:induction false} NextsAdvance(current: int, count: nat, k: nat)
    requires 0 <= current < count
    ensures Nexts(current, count, k) == (current + k) % count
  {
    if k > 0 {
      NextsAdvance(current, count, k - 1);
      AdvanceStep(current + k - 1, count);
    }
  }

  /** One more press after a wrapped advance of `a` is a wrapped advance of `a + 1`. */
  lemma {:induction false} AdvanceStep(a: nat, count: nat)
    requires count > 0
    ensures NextIndex(a % count, count) == (a + 1) % count
  {
    var q, r := DivMod(a, count);
    NextStep(r, count);
    if r + 1 == count {
      ModUnique(a + 1, count, q + 1, 0);
    } else {
      ModUnique(a + 1, count, q, r + 1);
    }
  }

  /** The quotient and remainder of `a` by `n`. */
  lemma {:induction false} DivMod(a: int, n: int) returns (q: int, r: int)
    requires n > 0
    ensures q == a / n && r == a % n
    ensures a == q * n + r && 0 <= r < n
  {
    q, r := a / n, a % n;
  }

  /** A full round of next presses comes back to the starting slide. */
  lemma {:induction false} FullRound(current: int, count: nat)
    requires 0 <= current < count
    ensures Nexts(current, count, count) == current
  {
    NextsAdvance(current, count, count);
    ModUnique(current + count, count, 1, current);
  }

  class Carousel {
    const count: nat
    var current: int

    /** The shown slide exists. */
    ghost predicate Valid()
      reads this
    {
      0 <= current < count
    }

    /** `useState(0)`; rendering `items[current]` needs at least one slide. */
    constructor (count: nat)
      requires count > 0
      ensures Valid() && this.count == count && current == 0
    {
      this.count := count;
      current := 0;
    }

    /** The right arrow. */
    method Next()
      requires Valid()
      modifies this
      ensures Valid()
      ensures current == NextIndex(old(current), count)
    {
      current := JsRem(current + 1, count);
    }

    /** The left arrow. */
    method Prev()
      requires Valid()
      modifies this
      ensures Valid()
      ensures current == PrevIndex(old(current), count)
    {
      current := JsRem(current - 1 + count, count);
    }

    /** Dot `i`. */
    method Dot(i: int)
      requires Valid() && 0 <= i < count
      modifies this
      ensures Valid() && current == i
    {
      current := i;
    }

    /** Which dots are drawn wide and bright: `i === current`. */
    function ActiveDots(): (dots: seq<bool>)
      reads this
      requires Valid()
      ensures |dots| == count
      ensures forall i :: 0 <= i < count ==> (dots[i] <==> i == current)
    {
      var c := current;
      seq(count, i => i == c)
    }
  }
}
