/** The font-size search of fitText (client/src/components/AutoSizeText/AutoSizeText.tsx)
    as functions. render(s) stands for the element's scrollWidth when its font
    size is s px; w is the container's clientWidth. */
module AutoFit {

  /** The rendered width never decreases as the font size grows within [1, w]. */
  ghost predicate MonotoneOn(render: int -> int, w: int)
  {
    forall a, b :: 1 <= a <= b <= w ==> render(a) <= render(b)
  }

  /** No size above r, up to the container width, fits. */
  ghost predicate NoneFitAbove(render: int -> int, w: int, r: int)
  {
    forall s :: r < s <= w ==> render(s) > w
  }

  /** The search over [lo, hi] with the best size found so far: probe the
      middle, keep it and go up when the text fits there, go down when it does
      not; when the interval is empty the best size found is the answer. */
  function BinarySearch(render: int -> int, w: int, lo: int, hi: int, best: int): int
    decreases hi - lo + 1
  {
    if lo > hi then best
    else
      var mid := (lo + hi) / 2;
      if render(mid) <= w then BinarySearch(render, w, mid + 1, hi, mid)
      else BinarySearch(render, w, lo, mid - 1, best)
  }

  /** Whatever render does, the search ends with a size in [1, w] that was
      measured to fit, or with the floor 1. */
  lemma {:induction false} SearchFitsOrFloor(render: int -> int, w: int, lo: int, hi: int, best: int)
    requires 1 <= lo && hi <= w
    requires best == 1 || (1 <= best <= w && render(best) <= w)
    requires 1 <= w
    ensures var r := BinarySearch(render, w, lo, hi, best);
      1 <= r <= w && (r == 1 || render(r) <= w)
    decreases hi - lo + 1
  {
    if lo <= hi {
      var mid := (lo + hi) / 2;
      if render(mid) <= w {
        SearchFitsOrFloor(render, w, mid + 1, hi, mid);
      } else {
        SearchFitsOrFloor(render, w, lo, mid - 1, best);
      }
    }
  }

  /** The size fitText applies for a container of width w >= 1: in [1, w],
      and a size that fits unless it is the floor 1. */
  function FitSize(render: int -> int, w: int): (r: int)
    requires w >= 1
    ensures 1 <= r <= w
    ensures r == 1 || render(r) <= w
  {
    SearchFitsOrFloor(render, w, 1, w, 1);
    BinarySearch(render, w, 1, w, 1)
  }

  /** Reference definition: the largest size in [1, k] whose text fits within
      w, or 1 when none does. */
  function LargestFit(render: int -> int, w: int, k: int): (r: int)
    ensures 1 <= r && (r <= k || r == 1)
    ensures r == 1 || render(r) <= w
    ensures forall s :: r < s <= k ==> render(s) > w
    ensures render(r) > w ==> r == 1 && forall s :: 1 <= s <= k ==> render(s) > w
    decreases k
  {
    if k < 1 then 1
    else if render(k) <= w then k
    else LargestFit(render, w, k - 1)
  }

  /** The reference is pinned down by its contract: a fitting size with nothing
      fitting above it is the largest fit. */
  lemma LargestFitIs(render: int -> int, w: int, r: int)
    requires 1 <= r <= w && render(r) <= w
    requires forall s :: r < s <= w ==> render(s) > w
    ensures LargestFit(render, w, w) == r
  {
  }

  /** With monotone widths, a size that overflows makes every larger one overflow. */
  lemma OverflowPropagates(render: int -> int, w: int, mid: int, hi: int)
    requires MonotoneOn(render, w)
    requires 1 <= mid <= hi <= w && render(mid) > w
    requires NoneFitAbove(render, w, hi)
    ensures NoneFitAbove(render, w, mid - 1)
  {
  }

  /** For a monotone render nothing above the search's result fits. The
      requires are the loop's state: best is the last size that fitted, or 1
      when nothing has fitted yet, and no size above hi fits. */
  lemma {:induction false} NothingFitsAboveSearch(render: int -> int, w: int, lo: int, hi: int, best: int)
    requires MonotoneOn(render, w)
    requires 1 <= lo <= hi + 1 <= w + 1
    requires (lo == 1 && best == 1) || (2 <= lo && best == lo - 1 && render(best) <= w)
    requires NoneFitAbove(render, w, hi)
    ensures NoneFitAbove(render, w, BinarySearch(render, w, lo, hi, best))
    decreases hi - lo + 1, 1
  {
    if lo <= hi {
      if render((lo + hi) / 2) <= w {
        FitProbe(render, w, lo, hi, best);
      } else {
        OverflowProbe(render, w, lo, hi, best);
      }
    }
  }

  /** A probe that fits becomes best, and the search goes on above it. */
  lemma {:induction false} FitProbe(render: int -> int, w: int, lo: int, hi: int, best: int)
    requires MonotoneOn(render, w)
    requires 1 <= lo <= hi <= w
    requires NoneFitAbove(render, w, hi)
    requires render((lo + hi) / 2) <= w
    ensures NoneFitAbove(render, w, BinarySearch(render, w, lo, hi, best))
    decreases hi - lo + 1, 0
  {
    var mid := (lo + hi) / 2;
    NothingFitsAboveSearch(render, w, mid + 1, hi, mid);
  }

  /** A probe that overflows rules out every size from it upwards, and the
      search goes on below it. */
  lemma {:induction false} OverflowProbe(render: int -> int, w: int, lo: int, hi: int, best: int)
    requires MonotoneOn(render, w)
    requires 1 <= lo <= hi <= w
    requires (lo == 1 && best == 1) || (2 <= lo && best == lo - 1 && render(best) <= w)
    requires NoneFitAbove(render, w, hi)
    requires render((lo + hi) / 2) > w
    ensures NoneFitAbove(render, w, BinarySearch(render, w, lo, hi, best))
    decreases hi - lo + 1, 0
  {
    var mid := (lo + hi) / 2;
    OverflowPropagates(render, w, mid, hi);
    NothingFitsAboveSearch(render, w, lo, mid - 1, best);
  }

  /** fitText's result for a monotone render is the largest fitting size, and
      1 when even size 1 overflows. */
  lemma FitSizeIsLargest(render: int -> int, w: int)
    requires w >= 1 && MonotoneOn(render, w)
    ensures FitSize(render, w) == LargestFit(render, w, w)
  {
    var r := FitSize(render, w);
    NothingFitsAboveSearch(render, w, 1, w, 1);
    if render(r) <= w {
      LargestFitIs(render, w, r);
    } else {
      var largest := LargestFit(render, w, w);
      assert largest == 1 || render(largest) <= w;
    }
  }

  /** Ten pixels of width per pixel of font size in a 105 px container gives 10 px. */
  lemma TenPerPixelIn105(render: int -> int)
    requires forall s :: render(s) == 10 * s
    ensures FitSize(render, 105) == 10
  {
    FitSizeIsLargest(render, 105);
    assert render(10) <= 105;
    assert render(11) > 105;
  }
}
