/** The feed's active-card tracking: the scroll handler recomputes
    `Math.round(scrollTop / clientHeight)` and stores it when it differs, and
    a card is active exactly when its position equals the stored index. The
    index is never clamped to the feed length. */
module VideoFeed {

  /** The JavaScript number `Math.round(scrollTop / clientHeight)` can produce
      from non-negative integer offsets: a whole number, or, with a zero-height
      container, `NaN` (0 / 0) or `Infinity` (positive / 0). */
  datatype Index = At(n: nat) | NaN | Infinity

  /** JavaScript `a !== b` on these numbers: `NaN` differs even from itself. */
  predicate StrictNotEqual(a: Index, b: Index): (differ: bool)
    ensures !differ <==> a == b && !a.NaN?
    ensures a.NaN? ==> differ
  {
    a.NaN? || b.NaN? || a != b
  }

  /** `Math.round(scrollTop / clientHeight)`. For a positive height the result
      is the whole number nearest to the quotient, halves rounding up: it lies
      within half a card of the offset. */
  function ScrollIndex(scrollTop: nat, clientHeight: nat): (r: Index)
    ensures clientHeight == 0 ==> r == (if scrollTop == 0 then NaN else Infinity)
    ensures clientHeight > 0 ==>
      && r.At?
      && 2 * r.n * clientHeight <= 2 * scrollTop + clientHeight
      && 2 * scrollTop + clientHeight < 2 * r.n * clientHeight + 2 * clientHeight
  {
    if clientHeight == 0 then
      if scrollTop == 0 then NaN else Infinity
    else
      var q := (2 * scrollTop + clientHeight) / (2 * clientHeight);
      DivBounds(2 * scrollTop + clientHeight, 2 * clientHeight);
      At(q)
  }

  /** Euclidean division puts `a` between two consecutive multiples of `b`. */
  lemma DivBounds(a: nat, b: nat)
    requires b > 0
    ensures (a / b) * b <= a < (a / b) * b + b
  {
  }

  /** The bounds of `ScrollIndex` leave room for one whole number only. */
  lemma RoundingUnique(scrollTop: nat, clientHeight: nat, k: nat)
    requires clientHeight > 0
    requires 2 * k * clientHeight <= 2 * scrollTop + clientHeight
    requires 2 * scrollTop + clientHeight < 2 * k * clientHeight + 2 * clientHeight
    ensures ScrollIndex(scrollTop, clientHeight) == At(k)
  {
    SameQuotient(2 * scrollTop + clientHeight, 2 * clientHeight, ScrollIndex(scrollTop, clientHeight).n, k);
  }

  /** Two numbers whose multiples of `c` both bracket `a` are equal. */
  lemma SameQuotient(a: nat, c: nat, n: nat, k: nat)
    requires n * c <= a < n * c + c
    requires k * c <= a < k * c + c
    ensures n == k
  {
    MultiplyStep(n, k, c);
    MultiplyStep(k, n, c);
  }

  lemma MultiplyStep(x: nat, y: nat, c: nat)
    ensures x < y ==> x * c + c <= y * c
  {
    if x < y {
      var d := y - x - 1;
      calc {
        y * c;
        (x + 1 + d) * c;
        x * c + c + d * c;
      >=
        x * c + c;
      }
    }
  }

  /** Scrolled exactly `k` cards down, the index is `k`. */
  lemma ScrollIndexExact(k: nat, clientHeight: nat)
    requires clientHeight > 0
    ensures ScrollIndex(k * clientHeight, clientHeight) == At(k)
  {
    RoundingUnique(k * clientHeight, clientHeight, k);
  }

  /** The active card is never more than half a card away from the offset. */
  lemma ScrollIndexNearest(scrollTop: nat, clientHeight: nat)
    requires clientHeight > 0
    ensures var d: int := ScrollIndex(scrollTop, clientHeight).n * clientHeight - scrollTop;
      -(clientHeight as int) <= 2 * d <= clientHeight
  {
  }

  /** `isActive={index === activeIndex}` for the card at `position`. */
  predicate IsActive(position: nat, activeIndex: Index): (active: bool)
    ensures active <==> activeIndex.At? && activeIndex.n == position
  {
    activeIndex == At(position)
  }

  /** At most one card is active, and it is the one at the stored index. */
  lemma AtMostOneActive(activeIndex: Index, i: nat, j: nat)
    requires IsActive(i, activeIndex) && IsActive(j, activeIndex)
    ensures i == j && activeIndex == At(i)
  {
  }

  /** An index at or past the end of the feed (never clamped) makes no card of
      the feed active, and neither do `NaN` and `Infinity`. */
  lemma NoCardActiveOutOfRange(activeIndex: Index, count: nat)
    requires !(activeIndex.At? && activeIndex.n < count)
    ensures forall p: nat :: p < count ==> !IsActive(p, activeIndex)
  {
  }

  /** Three 600-pixel cards: offsets 0, 610 and 1205 select cards 0, 1 and 2,
      and offset 2000 gives index 3, past the last card, so no card is active. */
  lemma ThreeCardExample()
    ensures ScrollIndex(0, 600) == At(0)
    ensures ScrollIndex(610, 600) == At(1)
    ensures ScrollIndex(1205, 600) == At(2)
    ensures ScrollIndex(2000, 600) == At(3)
    ensures forall p: nat :: p < 3 ==> !IsActive(p, ScrollIndex(2000, 600))
  {
  }

  /** The state of one mounted feed: `const [activeIndex, setActiveIndex] = useState(0)`. */
  class FeedState {
    var activeIndex: Index

    /** A fresh feed with the first card active. */
    constructor ()
      ensures activeIndex == At(0)
      ensures forall p: nat :: IsActive(p, activeIndex) <==> p == 0
    {
      activeIndex := At(0);
    }

    /** `handleScroll`: recompute the rounded index and store it when it differs
        (`changed` tells whether `setActiveIndex` was called). Afterwards the
        stored index is the computed one either way. */
    method HandleScroll(scrollTop: nat, clientHeight: nat) returns (changed: bool)
      modifies this
      ensures changed == StrictNotEqual(ScrollIndex(scrollTop, clientHeight), old(activeIndex))
      ensures activeIndex == ScrollIndex(scrollTop, clientHeight)
    {
      var index := ScrollIndex(scrollTop, clientHeight);
      changed := StrictNotEqual(index, activeIndex);
      if changed {
        activeIndex := index;
      }
    }
  }

  /** A second scroll event at the same offset stores nothing new: it either
      skips the update or, for `NaN`, stores the value that is already there. */
  method RepeatedScroll(feed: FeedState, scrollTop: nat, clientHeight: nat) returns (second: bool)
    modifies feed
    ensures second <==> clientHeight == 0 && scrollTop == 0
    ensures feed.activeIndex == ScrollIndex(scrollTop, clientHeight)
  {
    var _ := feed.HandleScroll(scrollTop, clientHeight);
    var before := feed.activeIndex;
    second := feed.HandleScroll(scrollTop, clientHeight);
    assert feed.activeIndex == before;
  }
}
