/** The image carousel: which slide is shown, and the direction of the last move. */
module Carousel {
  import opened Wrappers

  /** `prev === n - 1 ? 0 : prev + 1`, the updater `goToNext` and the timer pass to `setCurrentIndex`. */
  function NextIndex(prev: int, n: int): (r: int)
    ensures prev == n - 1 ==> r == 0
    ensures prev != n - 1 ==> r == prev + 1 && r > prev
    ensures 0 <= prev < n ==> 0 <= r < n
  {
    if prev == n - 1 then 0 else prev + 1
  }

  /** `prev === 0 ? n - 1 : prev - 1`, the updater `goToPrevious` passes to `setCurrentIndex`. */
  function PrevIndex(prev: int, n: int): (r: int)
    ensures prev == 0 ==> r == n - 1
    ensures prev != 0 ==> r == prev - 1 && r < prev
    ensures 0 <= prev < n ==> 0 <= r < n
  {
    if prev == 0 then n - 1 else prev - 1
  }

  /** `items.length`, with a missing `items` counted as none. */
  function ItemCount<T>(items: Option<seq<T>>): (n: nat)
    ensures items.Some? ==> n == |items.value|
    ensures items.None? ==> n == 0
  {
    if items.Some? then |items.value| else 0
  }

  /** The negation of `!items || items.length === 0`: the component renders something. */
  function Renders<T>(items: Option<seq<T>>): (b: bool)
    ensures b <==> ItemCount(items) > 0
    ensures b ==> items.Some? && items.value != []
  {
    items.Some? && |items.value| != 0
  }

  /** `AutoAdvance` schedules its interval only for more than one item. */
  function AutoAdvances(itemCount: nat): (b: bool)
    ensures b ==> itemCount >= 2
    ensures itemCount >= 2 ==> b
  {
    itemCount > 1
  }

  /**
   * What the mounted carousel does over `ticks` firings of the interval,
   * from its initial state: with `items` missing or empty, it renders
   * nothing and nothing moves; otherwise the index is always one of the
   * slides, the one `ticks` steps ahead modulo their number.
   */
  method RunTicks<T>(items: Option<seq<T>>, ticks: nat) returns (index: int, direction: int)
    ensures !Renders(items) ==> index == 0 && direction == 1
    ensures Renders(items) ==> 0 <= index < ItemCount(items)
    ensures Renders(items) ==> index == ticks % ItemCount(items)
  {
    var n := ItemCount(items);
    var state := new CarouselState(n);
    var k := 0;
    while k < ticks
      invariant 0 <= k <= ticks
      invariant state.itemCount == n
      invariant !AutoAdvances(n) ==> state.currentIndex == 0 && state.direction == 1
      invariant AutoAdvances(n) ==> state.currentIndex == Advance(0, n, k)
    {
      state.Tick();
      k := k + 1;
    }
    index, direction := state.currentIndex, state.direction;
    if AutoAdvances(n) {
      AdvanceIsModular(0, n, ticks);
    } else if n == 1 {
      ModUnique(ticks, 1, ticks, 0);
    }
  }

  /** Both updaters keep the index among the slides. */
  lemma UpdatersStayInRange(i: int, n: int)
    requires 0 <= i < n
    ensures 0 <= NextIndex(i, n) < n
    ensures 0 <= PrevIndex(i, n) < n
  {
  }

  /** Euclidean division is determined by quotient and remainder. */
  lemma ModUnique(m: int, n: int, q: int, r: int)
    requires n > 0 && 0 <= r < n && m == q * n + r
    ensures m % n == r
  {
    var q0, r0 := m / n, m % n;
    assert m == q0 * n + r0;
    assert (q - q0) * n == r0 - r;
    if q > q0 {
      MulAtLeast(q - q0, n);
    } else if q < q0 {
      MulAtLeast(q0 - q, n);
    }
  }

  lemma MulAtLeast(a: int, n: int)
    requires a >= 1 && n > 0
    ensures a * n >= n
  {
  }

  /** Against a reference definition: the updaters are addition and subtraction modulo `n`. */
  lemma UpdatersAreModular(i: int, n: int)
    requires 0 <= i < n
    ensures NextIndex(i, n) == (i + 1) % n
    ensures PrevIndex(i, n) == (i - 1 + n) % n
  {
    if i < n - 1 {
      ModUnique(i + 1, n, 0, i + 1);
    } else {
      ModUnique(i + 1, n, 1, 0);
    }
    if i > 0 {
      ModUnique(i - 1 + n, n, 1, i - 1);
    } else {
      ModUnique(i - 1 + n, n, 0, n - 1);
    }
  }

  /** Next then previous, or previous then next, comes back to the same slide. */
  lemma NextPrevRoundTrip(i: int, n: int)
    requires 0 <= i < n
    ensures PrevIndex(NextIndex(i, n), n) == i
    ensures NextIndex(PrevIndex(i, n), n) == i
  {
  }

  /** `k` moves forward. */
  function Advance(i: int, n: int, k: nat): int
    decreases k
  {
    if k == 0 then i else NextIndex(Advance(i, n, k - 1), n)
  }

  /** `k` moves forward land `k` slides further, modulo the number of slides. */
  lemma {:induction false} AdvanceIsModular(i: int, n: int, k: nat)
    requires 0 <= i < n
    ensures Advance(i, n, k) == (i + k) % n
    decreases k
  {
    if k > 0 {
      AdvanceIsModular(i, n, k - 1);
      var j := Advance(i, n, k - 1);
      assert 0 <= j < n;
      UpdatersAreModular(j, n);
      ModularStep(i + k - 1, n);
    }
  }

  lemma ModularStep(m: int, n: int)
    requires n > 0
    ensures (m % n + 1) % n == (m + 1) % n
  {
    var q, r := m / n, m % n;
    assert m == q * n + r;
    if r + 1 < n {
      ModUnique(r + 1, n, 0, r + 1);
      ModUnique(m + 1, n, q, r + 1);
    } else {
      ModUnique(r + 1, n, 1, 0);
      assert m + 1 == (q + 1) * n;
      ModUnique(m + 1, n, q + 1, 0);
    }
  }

  /** After `n` ticks the carousel is back on the slide it started from. */
  lemma FullCycle(i: int, n: int)
    requires 0 <= i < n
    ensures Advance(i, n, n) == i
  {
    AdvanceIsModular(i, n, n);
    ModUnique(i + n, n, 1, i);
  }

  /**
   * The index is not reset when `items` shrinks: from an index past the new
   * end, `goToNext` keeps counting up and never wraps.
   */
  lemma NextPastEndNeverWraps(i: int, n: int)
    requires 0 < n <= i
    ensures NextIndex(i, n) == i + 1
  {
  }

  class CarouselState {
    /** `items.length` as last rendered. */
    var itemCount: nat
    var currentIndex: int
    var direction: int

    /** The slide shown is one of the items. */
    predicate Valid()
      reads this
    {
      0 <= currentIndex < itemCount
    }

    /** `useState(0)` and `useState(1)`. */
    constructor (itemCount: nat)
      ensures this.itemCount == itemCount && currentIndex == 0 && direction == 1
      ensures itemCount > 0 ==> Valid()
    {
      this.itemCount := itemCount;
      currentIndex := 0;
      direction := 1;
    }

    method GoToPrevious()
      modifies this
      ensures direction == -1
      ensures currentIndex == PrevIndex(old(currentIndex), itemCount)
      ensures itemCount == old(itemCount)
      ensures old(Valid()) ==> Valid()
    {
      direction := -1;
      currentIndex := PrevIndex(currentIndex, itemCount);
    }

    method GoToNext()
      modifies this
      ensures direction == 1
      ensures currentIndex == NextIndex(old(currentIndex), itemCount)
      ensures itemCount == old(itemCount)
      ensures old(Valid()) ==> Valid()
    {
      direction := 1;
      currentIndex := NextIndex(currentIndex, itemCount);
    }

    /** A click on the dot of slide `index`. */
    method GoToIndex(index: int)
      modifies this
      ensures index == old(currentIndex) ==> currentIndex == old(currentIndex) && direction == old(direction)
      ensures index != old(currentIndex) ==> currentIndex == index
      ensures index != old(currentIndex) ==> direction == if index > old(currentIndex) then 1 else -1
      ensures itemCount == old(itemCount)
      ensures 0 <= index < itemCount ==> Valid()
    {
      if index == currentIndex {
        return;
      }
      direction := if index > currentIndex then 1 else -1;
      currentIndex := index;
    }

    /** One firing of `AutoAdvance`'s interval; no interval exists for one item or none. */
    method Tick()
      modifies this
      ensures AutoAdvances(itemCount) ==> direction == 1 && currentIndex == NextIndex(old(currentIndex), itemCount)
      ensures !AutoAdvances(itemCount) ==> currentIndex == old(currentIndex) && direction == old(direction)
      ensures itemCount == old(itemCount)
      ensures old(Valid()) ==> Valid()
    {
      if !AutoAdvances(itemCount) {
        return;
      }
      direction := 1;
      currentIndex := NextIndex(currentIndex, itemCount);
    }

    /** A re-render with a different `items` array: the index is kept as it is. */
    method ItemsChanged(newCount: nat)
      modifies this
      ensures itemCount == newCount
      ensures currentIndex == old(currentIndex) && direction == old(direction)
    {
      itemCount := newCount;
    }
  }
}
