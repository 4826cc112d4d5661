/** The renderer's arithmetic: the height policy, the waveform width and
    scrollability, the visible slice of a channel and its expansion into
    tiles, the scroll target that keeps the cursor in view, and the
    fractions reported for clicks and drags. Browser measurements (client
    and scroll widths, bounding rectangles) are parameters. */
module RenderGeometry {
  import opened JsNumber
  import opened Wrappers

  const DEFAULT_HEIGHT := 128.0
  /** `Renderer.MAX_CANVAS_WIDTH`. */
  const MAX_CANVAS_WIDTH := 4000
  /** The gap to an edge within which a drag scrolls, and the step it scrolls by. */
  const MIN_GAP := 30.0
  /** The largest step by which playback re-centres the view. */
  const CENTER_STEP := 10.0

  /** The `height` option: absent (null or undefined), a number, or a string
      together with its `Number(...)` conversion. */
  datatype HeightOption = Absent | NumberValue(n: Num) | TextValue(text: string, asNumber: Num)

  /** `getHeight(optionsHeight)`: 128 when absent; the value when it reads as
      a number; the parent's height for "auto", 128 when that is 0; else 128. */
  function GetHeight(h: HeightOption, parentClientHeight: nat): (r: Num)
    ensures !r.NaN?
    ensures h.Absent? ==> r == Finite(DEFAULT_HEIGHT)
    ensures h.NumberValue? ==> r == if h.n.NaN? then Finite(DEFAULT_HEIGHT) else h.n
    ensures h.TextValue? && !h.asNumber.NaN? ==> r == h.asNumber
    ensures h.TextValue? && h.asNumber.NaN? && h.text == "auto" ==>
      r == Finite(if parentClientHeight > 0 then parentClientHeight as real else DEFAULT_HEIGHT)
    ensures h.TextValue? && h.asNumber.NaN? && h.text != "auto" ==> r == Finite(DEFAULT_HEIGHT)
  {
    match h
    case Absent => Finite(DEFAULT_HEIGHT)
    case NumberValue(n) => if !n.NaN? then n else Finite(DEFAULT_HEIGHT)
    case TextValue(text, asNumber) =>
      if !asNumber.NaN? then asNumber
      else if text == "auto" then Finite(if parentClientHeight > 0 then parentClientHeight as real else DEFAULT_HEIGHT)
      else Finite(DEFAULT_HEIGHT)
  }

  /** "auto" never yields a zero height, whatever the parent measures. */
  lemma AutoHeightPositive(parentClientHeight: nat)
    ensures GetHeight(TextValue("auto", NaN), parentClientHeight).value > 0.0
  {
    assert "auto" == "auto";
  }

  /** What `render` derives from the duration and the container. */
  datatype Layout = Layout(scrollWidth: int, isScrollable: bool, useParentWidth: bool, width: real)

  /** The layout of `render`: scroll width ceil(duration * minPxPerSec);
      scrollable exactly when that exceeds the parent's width; the canvas
      width is the parent's width when filling a non-scrollable parent, else
      the scroll width, times the pixel ratio (`devicePixelRatio || 1`). */
  function ComputeLayout(duration: real, minPxPerSec: real, parentWidth: nat, fillParent: bool, devicePixelRatio: real): (l: Layout)
    ensures duration * minPxPerSec <= l.scrollWidth as real < duration * minPxPerSec + 1.0
    ensures l.isScrollable <==> l.scrollWidth > parentWidth
    ensures l.useParentWidth <==> fillParent && !l.isScrollable
    ensures l.width == (if l.useParentWidth then parentWidth as real else l.scrollWidth as real)
      * (if devicePixelRatio != 0.0 then devicePixelRatio else 1.0)
  {
    var pixelRatio := if devicePixelRatio != 0.0 then devicePixelRatio else 1.0;
    var scrollWidth := Ceil(duration * minPxPerSec);
    var isScrollable := scrollWidth > parentWidth;
    var useParentWidth := fillParent && !isScrollable;
    Layout(scrollWidth, isScrollable, useParentWidth,
      (if useParentWidth then parentWidth as real else scrollWidth as real) * pixelRatio)
  }

  /** With the default zoom (0 px per second) nothing scrolls, and a filling
      waveform takes exactly the parent's width. */
  lemma DefaultZoomFillsParent(duration: real, parentWidth: nat, devicePixelRatio: real)
    requires devicePixelRatio > 0.0
    ensures var l := ComputeLayout(duration, 0.0, parentWidth, true, devicePixelRatio);
      l.scrollWidth == 0 && !l.isScrollable && l.width == parentWidth as real * devicePixelRatio
  {
    var l := ComputeLayout(duration, 0.0, parentWidth, true, devicePixelRatio);
    assert duration * 0.0 == 0.0;
    assert l.scrollWidth == 0;
  }

  /** A filled waveform is never narrower than its natural scroll width. */
  lemma FilledWidthAtLeastScrollWidth(duration: real, minPxPerSec: real, parentWidth: nat, devicePixelRatio: real)
    requires devicePixelRatio > 0.0
    ensures var l := ComputeLayout(duration, minPxPerSec, parentWidth, true, devicePixelRatio);
      l.width >= l.scrollWidth as real * devicePixelRatio
  {
    var l := ComputeLayout(duration, minPxPerSec, parentWidth, true, devicePixelRatio);
    if l.useParentWidth {
      assert parentWidth as real >= l.scrollWidth as real;
      MultiplyMonotone(l.scrollWidth as real, parentWidth as real, devicePixelRatio);
    }
  }

  lemma MultiplyMonotone(a: real, b: real, k: real)
    requires a <= b && k > 0.0
    ensures a * k <= b * k
  {
    assert b * k - a * k == (b - a) * k;
  }

  /** The viewport width of `renderChannel`, narrowed to a whole number of
      bars when bars are drawn (a zero `barWidth` or `barGap` is unset). With
      a zero total bar width the result is NaN. */
  function ViewportWidth(clientWidth: nat, barWidth: real, barGap: real): (w: Num)
    ensures barWidth == 0.0 && barGap == 0.0 ==> w == Finite(Min(MAX_CANVAS_WIDTH, clientWidth) as real)
    ensures w.Finite? ==> 0.0 <= w.value
  {
    var vw := Min(MAX_CANVAS_WIDTH, clientWidth) as real;
    if barWidth == 0.0 && barGap == 0.0 then Finite(vw)
    else
      var total := BarTotal(barWidth, barGap);
      if total == 0.0 then NaN
      else if IsMultiple(vw, total) then Finite(vw)
      else
        FloorTimesNonNegative(vw, total);
        Finite(Floor(vw / total) as real * total)
  }

  /** floor(x / d) * d is never negative for x >= 0. */
  lemma FloorTimesNonNegative(x: real, d: real)
    requires x >= 0.0 && d != 0.0
    ensures Floor(x / d) as real * d >= 0.0
  {
    var n := Floor(x / d) as real;
    if d > 0.0 {
      assert x / d >= 0.0 by { assert x / d * d == x; }
      assert n >= 0.0;
    } else {
      assert x / d <= 0.0 by { assert x / d * d == x; }
      assert n <= 0.0;
      assert n * d == (-n) * (-d);
    }
  }

  /** A whole multiple of `d` passes the `% d === 0` test. */
  lemma MultipleIsMultiple(n: int, d: real)
    requires d != 0.0
    ensures IsMultiple(n as real * d, d)
  {
    var m := n as real * d;
    assert m / d == n as real by { assert m / d * d == m; }
  }

  /** `barWidth || 0.5` plus `barGap || barWidth / 2`. */
  function BarTotal(barWidth: real, barGap: real): real {
    var w := if barWidth != 0.0 then barWidth else 0.5;
    var g := if barGap != 0.0 then barGap else w / 2.0;
    w + g
  }

  /** `x % d === 0` for a non-zero divisor. */
  predicate IsMultiple(x: real, d: real)
    requires d != 0.0
  {
    (x / d).Floor as real == x / d
  }

  /** A whole number of bars fits into the narrowed viewport. */
  lemma ViewportHoldsWholeBars(clientWidth: nat, barWidth: real, barGap: real)
    requires barWidth != 0.0 || barGap != 0.0
    requires BarTotal(barWidth, barGap) > 0.0
    ensures var w := ViewportWidth(clientWidth, barWidth, barGap);
      w.Finite? && IsMultiple(w.value, BarTotal(barWidth, barGap))
      && 0.0 <= w.value <= Min(MAX_CANVAS_WIDTH, clientWidth) as real
  {
    var vw := Min(MAX_CANVAS_WIDTH, clientWidth) as real;
    var total := BarTotal(barWidth, barGap);
    if !IsMultiple(vw, total) {
      var n := Floor(vw / total);
      assert n as real <= vw / total;
      MultiplyMonotone(n as real, vw / total, total);
      assert vw / total * total == vw;
      MultipleIsMultiple(n, total);
      FloorTimesNonNegative(vw, total);
      assert ViewportWidth(clientWidth, barWidth, barGap) == Finite(n as real * total);
    }
  }

  /** The first and one-past-last sample of the visible slice:
      start = floor(|scrollLeft| * scale), end = floor(start + width * scale),
      scale = len / scrollWidth. `None` when the scroll container has no width
      or the viewport width is NaN: the indices are then not numbers. */
  function VisibleSlice(scrollLeft: real, scrollWidth: nat, clientWidth: nat, len: nat, barWidth: real, barGap: real): (r: Option<(int, int)>)
    ensures r.Some? ==> 0 <= r.value.0 <= r.value.1
    ensures r.Some? <==> scrollWidth > 0 && ViewportWidth(clientWidth, barWidth, barGap).Finite?
  {
    var w := ViewportWidth(clientWidth, barWidth, barGap);
    if scrollWidth == 0 || !w.Finite? then None
    else
      var scale := len as real / scrollWidth as real;
      var start := Floor(Abs(scrollLeft) * scale);
      var end := Floor(start as real + w.value * scale);
      NonNegativeProduct(len as real, 1.0 / scrollWidth as real);
      assert scale >= 0.0;
      NonNegativeProduct(Abs(scrollLeft), scale);
      NonNegativeProduct(w.value, scale);
      Some((start, end))
  }

  lemma NonNegativeProduct(a: real, b: real)
    requires a >= 0.0 && b >= 0.0
    ensures a * b >= 0.0
  {
  }

  /** A half-open range of sample indices. */
  datatype Span = Span(from: int, to: int)

  predicate Contains(s: Span, x: int) {
    s.from <= x < s.to
  }

  /** `draw(from, to)`: the range is clamped to [0, len]. */
  function Clamped(s: Span, len: nat): (c: Span)
    ensures 0 <= c.from && c.to <= len
    ensures forall x :: 0 <= x < len && Contains(s, x) ==> Contains(c, x)
  {
    Span(Max(0, s.from), Min(s.to, len))
  }

  /** The ranges `renderHead` draws: the given one, then (while its start is
      positive) the one a viewport length before it, and so on. */
  function HeadTiles(from: int, to: int, viewportLen: int): (r: seq<Span>)
    requires viewportLen > 0
    ensures |r| > 0 && r[0] == Span(from, to)
    decreases if from > 0 then from else 0
  {
    if from > 0 then [Span(from, to)] + HeadTiles(from - viewportLen, to - viewportLen, viewportLen)
    else [Span(from, to)]
  }

  /** The ranges `renderTail` draws: the given one, then (while its end is
      below `len`) the one a viewport length after it, and so on. */
  function TailTiles(from: int, to: int, viewportLen: int, len: nat): (r: seq<Span>)
    requires viewportLen > 0
    ensures |r| > 0 && r[0] == Span(from, to)
    decreases if to < len then len - to else 0
  {
    if to < len then [Span(from, to)] + TailTiles(from + viewportLen, to + viewportLen, viewportLen, len)
    else [Span(from, to)]
  }

  /** Every range `renderChannel` draws for the visible slice [start, end):
      the head chain, and the tail chain when the slice ends before `len`. */
  function ChannelTiles(start: int, end: int, len: nat): seq<Span>
    requires start < end
  {
    HeadTiles(start, end, end - start)
      + (if end < len then TailTiles(end, end + (end - start), end - start, len) else [])
  }

  /** Ranges of one viewport length, each ending where the previous one
      starts, all but the last starting after 0 and the last at or before 0. */
  predicate HeadShaped(h: seq<Span>, viewportLen: int) {
    && |h| > 0
    && (forall k :: 0 <= k < |h| ==> h[k].to - h[k].from == viewportLen)
    && (forall k :: 0 < k < |h| ==> h[k].to == h[k - 1].from)
    && (forall k :: 0 <= k < |h| - 1 ==> h[k].from > 0)
    && h[|h| - 1].from <= 0
  }

  /** Ranges of one viewport length, each starting where the previous one
      ends, all but the last ending before `len` and the last at or after it. */
  predicate TailShaped(t: seq<Span>, viewportLen: int, len: nat) {
    && |t| > 0
    && (forall k :: 0 <= k < |t| ==> t[k].to - t[k].from == viewportLen)
    && (forall k :: 0 < k < |t| ==> t[k].from == t[k - 1].to)
    && (forall k :: 0 <= k < |t| - 1 ==> t[k].to < len)
    && t[|t| - 1].to >= len
  }

  lemma HeadShapedCons(s: Span, rest: seq<Span>, viewportLen: int)
    requires HeadShaped(rest, viewportLen) && rest[0].to == s.from && s.from > 0
    requires s.to - s.from == viewportLen
    ensures HeadShaped([s] + rest, viewportLen)
  {
    var h := [s] + rest;
    forall k | 0 < k < |h| ensures h[k] == rest[k - 1] {
    }
    forall k | 0 < k < |h| ensures h[k].to == h[k - 1].from {
      if k > 1 {
        assert h[k - 1] == rest[k - 2];
      }
    }
  }

  lemma TailShapedCons(s: Span, rest: seq<Span>, viewportLen: int, len: nat)
    requires TailShaped(rest, viewportLen, len) && rest[0].from == s.to && s.to < len
    requires s.to - s.from == viewportLen
    ensures TailShaped([s] + rest, viewportLen, len)
  {
    var t := [s] + rest;
    forall k | 0 < k < |t| ensures t[k] == rest[k - 1] {
    }
    forall k | 0 < k < |t| ensures t[k].from == t[k - 1].to {
      if k > 1 {
        assert t[k - 1] == rest[k - 2];
      }
    }
  }

  /** The head chain steps back one viewport length at a time, each range
      ending where the previous one starts, and stops at the first range that
      starts at or before 0; every earlier range starts after 0. */
  lemma {:induction false} HeadTilesShape(from: int, to: int, viewportLen: int)
    requires viewportLen > 0 && to - from == viewportLen
    ensures HeadShaped(HeadTiles(from, to, viewportLen), viewportLen)
    decreases if from > 0 then from else 0
  {
    if from > 0 {
      var rest := HeadTiles(from - viewportLen, to - viewportLen, viewportLen);
      HeadTilesShape(from - viewportLen, to - viewportLen, viewportLen);
      HeadShapedCons(Span(from, to), rest, viewportLen);
    }
  }

  /** The tail chain steps forward one viewport length at a time, each range
      starting where the previous one ends, and stops at the first range that
      reaches `len`. */
  lemma {:induction false} TailTilesShape(from: int, to: int, viewportLen: int, len: nat)
    requires viewportLen > 0 && to - from == viewportLen
    ensures TailShaped(TailTiles(from, to, viewportLen, len), viewportLen, len)
    decreases if to < len then len - to else 0
  {
    if to < len {
      var rest := TailTiles(from + viewportLen, to + viewportLen, viewportLen, len);
      TailTilesShape(from + viewportLen, to + viewportLen, viewportLen, len);
      TailShapedCons(Span(from, to), rest, viewportLen, len);
    }
  }

  /** Adjacent ranges that step down from `top` cover every index below it
      down to the last range's start. */
  lemma {:induction false} DescendingCover(h: seq<Span>, x: int)
    requires |h| > 0
    requires forall k :: 0 <= k < |h| ==> h[k].from < h[k].to
    requires forall k :: 0 < k < |h| ==> h[k].to == h[k - 1].from
    requires h[|h| - 1].from <= x < h[0].to
    ensures exists k :: 0 <= k < |h| && h[k].from <= x < h[k].to
    decreases |h|
  {
    if !(h[0].from <= x) {
      var rest := h[1..];
      assert rest[0].to == h[0].from;
      DescendingCover(rest, x);
      var k :| 0 <= k < |rest| && rest[k].from <= x < rest[k].to;
      assert h[k + 1] == rest[k];
    }
  }

  /** Adjacent ranges that step up from the first one cover every index from
      its start up to the last range's end. */
  lemma {:induction false} AscendingCover(t: seq<Span>, x: int)
    requires |t| > 0
    requires forall k :: 0 <= k < |t| ==> t[k].from < t[k].to
    requires forall k :: 0 < k < |t| ==> t[k].from == t[k - 1].to
    requires t[0].from <= x < t[|t| - 1].to
    ensures exists k :: 0 <= k < |t| && t[k].from <= x < t[k].to
    decreases |t|
  {
    if !(x < t[0].to) {
      var rest := t[1..];
      assert rest[0].from == t[0].to;
      AscendingCover(rest, x);
      var k :| 0 <= k < |rest| && rest[k].from <= x < rest[k].to;
      assert t[k + 1] == rest[k];
    }
  }

  /** With a non-empty visible slice, the drawn (clamped) ranges together
      cover every sample index of the channel. */
  lemma TilesCoverChannel(start: int, end: int, len: nat, x: int)
    requires 0 <= start < end && 0 <= x < len
    ensures exists s :: s in ChannelTiles(start, end, len) && Contains(Clamped(s, len), x)
  {
    var s: Span;
    if x < end {
      s := HeadCover(start, end, len, x);
    } else {
      s := TailCover(start, end, len, x);
    }
    assert Contains(Clamped(s, len), x);
  }

  /** An index below the slice's end lies in some range of the head chain. */
  lemma HeadCover(start: int, end: int, len: nat, x: int) returns (s: Span)
    requires 0 <= start < end && 0 <= x < end
    ensures s in ChannelTiles(start, end, len) && Contains(s, x)
  {
    var vl := end - start;
    var h := HeadTiles(start, end, vl);
    HeadTilesShape(start, end, vl);
    DescendingCover(h, x);
    var k :| 0 <= k < |h| && h[k].from <= x < h[k].to;
    var all := ChannelTiles(start, end, len);
    assert all[k] == h[k];
    s := h[k];
  }

  /** An index from the slice's end up to `len` lies in some range of the
      tail chain. */
  lemma TailCover(start: int, end: int, len: nat, x: int) returns (s: Span)
    requires 0 <= start < end <= x < len
    ensures s in ChannelTiles(start, end, len) && Contains(s, x)
  {
    var vl := end - start;
    var h := HeadTiles(start, end, vl);
    var t := TailTiles(end, end + vl, vl, len);
    TailTilesShape(end, end + vl, vl, len);
    AscendingCover(t, x);
    var k :| 0 <= k < |t| && t[k].from <= x < t[k].to;
    var all := ChannelTiles(start, end, len);
    assert all == h + t;
    assert all[|h| + k] == t[k];
    s := t[k];
  }

  /** The drawn ranges never overlap: the head chain lies below the slice's
      end and descends, the tail chain lies above it and ascends. */
  lemma TilesDisjoint(start: int, end: int, len: nat, i: int, j: int)
    requires 0 <= start < end
    requires 0 <= i < j < |ChannelTiles(start, end, len)|
    ensures var all := ChannelTiles(start, end, len);
      all[i].to <= all[j].from || all[j].to <= all[i].from
  {
    var vl := end - start;
    var h := HeadTiles(start, end, vl);
    var all := ChannelTiles(start, end, len);
    if j < |h| {
      assert all[i] == h[i] && all[j] == h[j];
      HeadPair(start, end, i, j);
    } else {
      var t := TailTiles(end, end + vl, vl, len);
      assert all == h + t;
      assert all[j] == t[j - |h|];
      TailPair(end, vl, len, if i < |h| then 0 else i - |h|, j - |h|);
      if i < |h| {
        assert all[i] == h[i];
        HeadPair(start, end, i, i);
      } else {
        assert all[i] == t[i - |h|];
      }
    }
  }

  /** Two ranges of the head chain: the later one lies below the earlier
      one, and every range ends at or before the slice's end. */
  lemma HeadPair(start: int, end: int, i: int, j: int)
    requires 0 <= start < end
    requires 0 <= i <= j < |HeadTiles(start, end, end - start)|
    ensures var h := HeadTiles(start, end, end - start);
      (i < j ==> h[j].to <= h[i].from) && h[i].to <= end
  {
    var h := HeadTiles(start, end, end - start);
    HeadTilesShape(start, end, end - start);
    HeadDescends(h, end - start);
  }

  /** Two ranges of the tail chain: the later one lies above the earlier
      one, and every range starts at or after the first one. */
  lemma TailPair(from: int, vl: int, len: nat, i: int, j: int)
    requires vl > 0
    requires 0 <= i <= j < |TailTiles(from, from + vl, vl, len)|
    ensures var t := TailTiles(from, from + vl, vl, len);
      (i < j ==> t[i].to <= t[j].from) && from <= t[j].from
  {
    var t := TailTiles(from, from + vl, vl, len);
    TailTilesShape(from, from + vl, vl, len);
    TailAscends(t, vl);
  }

  lemma {:induction false} HeadDescends(h: seq<Span>, vl: int)
    requires vl > 0
    requires forall k :: 0 <= k < |h| ==> h[k].to - h[k].from == vl
    requires forall k :: 0 < k < |h| ==> h[k].to == h[k - 1].from
    ensures forall i, j :: 0 <= i < j < |h| ==> h[j].to <= h[i].from
    ensures forall i :: 0 <= i < |h| ==> h[i].to <= h[0].to
    decreases |h|
  {
    if |h| > 1 {
      var rest := h[1..];
      HeadDescends(rest, vl);
      forall i, j | 0 <= i < j < |h| ensures h[j].to <= h[i].from {
        if i > 0 {
          assert h[i] == rest[i - 1] && h[j] == rest[j - 1];
        } else {
          assert h[j] == rest[j - 1];
          assert rest[j - 1].to <= rest[0].to == h[0].from;
        }
      }
      forall i | 0 <= i < |h| ensures h[i].to <= h[0].to {
        if i > 0 {
          assert h[i] == rest[i - 1];
        }
      }
    }
  }

  lemma {:induction false} TailAscends(t: seq<Span>, vl: int)
    requires vl > 0
    requires forall k :: 0 <= k < |t| ==> t[k].to - t[k].from == vl
    requires forall k :: 0 < k < |t| ==> t[k].from == t[k - 1].to
    ensures forall i, j :: 0 <= i < j < |t| ==> t[i].to <= t[j].from
    ensures forall i :: 0 <= i < |t| ==> t[0].from <= t[i].from
    decreases |t|
  {
    if |t| > 1 {
      var rest := t[1..];
      TailAscends(rest, vl);
      forall i, j | 0 <= i < j < |t| ensures t[i].to <= t[j].from {
        if i > 0 {
          assert t[i] == rest[i - 1] && t[j] == rest[j - 1];
        } else {
          assert t[j] == rest[j - 1];
          assert t[0].to == rest[0].from <= rest[j - 1].from;
        }
      }
      forall i | 0 <= i < |t| ensures t[0].from <= t[i].from {
        if i > 0 {
          assert t[i] == rest[i - 1];
        }
      }
    }
  }

  /** One step of the `renderHead` chain. */
  function HeadStep(s: Span, viewportLen: int): (r: Span)
    ensures r.to - r.from == s.to - s.from
    ensures viewportLen == s.to - s.from ==> r.to == s.from
  {
    Span(s.from - viewportLen, s.to - viewportLen)
  }

  /** The range `renderHead` reaches after `n` further steps. */
  function HeadAfter(s: Span, viewportLen: int, n: nat): Span
    decreases n
  {
    if n == 0 then s else HeadAfter(HeadStep(s, viewportLen), viewportLen, n - 1)
  }

  /** With an empty visible slice (viewport length 0) and a positive start,
      every step lands on the same range, whose start is still positive, so
      `renderHead` schedules itself again forever. */
  lemma {:induction false} EmptyViewportHeadNeverStops(s: Span, n: nat)
    requires s.from > 0
    ensures HeadAfter(s, 0, n) == s && HeadAfter(s, 0, n).from > 0
  {
    if n > 0 {
      assert HeadStep(s, 0) == s;
      EmptyViewportHeadNeverStops(s, n - 1);
    }
  }

  /** One step of the `renderTail` chain. */
  function TailStep(s: Span, viewportLen: int): (r: Span)
    ensures r.to - r.from == s.to - s.from
    ensures viewportLen == s.to - s.from ==> r.from == s.to
  {
    Span(s.from + viewportLen, s.to + viewportLen)
  }

  /** The range `renderTail` reaches after `n` further steps. */
  function TailAfter(s: Span, viewportLen: int, n: nat): Span
    decreases n
  {
    if n == 0 then s else TailAfter(TailStep(s, viewportLen), viewportLen, n - 1)
  }

  /** With an empty visible slice and a range ending before `len`, every
      step lands on the same range, which still ends before `len`, so
      `renderTail` schedules itself again forever. */
  lemma {:induction false} EmptyViewportTailNeverStops(s: Span, len: nat, n: nat)
    requires s.to < len
    ensures TailAfter(s, 0, n) == s && TailAfter(s, 0, n).to < len
  {
    if n > 0 {
      assert TailStep(s, 0) == s;
      EmptyViewportTailNeverStops(s, len, n - 1);
    }
  }

  /** With a positive viewport length the head chain stops: the range it
      reaches after as many steps as `HeadTiles` has further ranges is the
      last of them, and starts at or before 0. */
  lemma {:induction false} HeadChainStops(s: Span, viewportLen: int)
    requires viewportLen > 0
    ensures var h := HeadTiles(s.from, s.to, viewportLen);
      HeadAfter(s, viewportLen, |h| - 1) == h[|h| - 1] && h[|h| - 1].from <= 0
    decreases if s.from > 0 then s.from else 0
  {
    if s.from > 0 {
      var next := HeadStep(s, viewportLen);
      HeadChainStops(next, viewportLen);
      var rest := HeadTiles(next.from, next.to, viewportLen);
      assert HeadTiles(s.from, s.to, viewportLen) == [s] + rest;
      assert HeadAfter(s, viewportLen, |rest|) == HeadAfter(next, viewportLen, |rest| - 1);
    }
  }

  /** With a positive viewport length the tail chain stops: the range it
      reaches after as many steps as `TailTiles` has further ranges is the
      last of them, and ends at or after `len`. */
  lemma {:induction false} TailChainStops(s: Span, viewportLen: int, len: nat)
    requires viewportLen > 0
    ensures var t := TailTiles(s.from, s.to, viewportLen, len);
      TailAfter(s, viewportLen, |t| - 1) == t[|t| - 1] && t[|t| - 1].to >= len
    decreases if s.to < len then len - s.to else 0
  {
    if s.to < len {
      var next := TailStep(s, viewportLen);
      TailChainStops(next, viewportLen, len);
      var rest := TailTiles(next.from, next.to, viewportLen, len);
      assert TailTiles(s.from, s.to, viewportLen, len) == [s] + rest;
      assert TailAfter(s, viewportLen, |rest|) == TailAfter(next, viewportLen, |rest| - 1);
    }
  }

  /** The largest `scrollLeft` a scroll container allows. */
  function MaxScroll(scrollWidth: real, clientWidth: real): real {
    if scrollWidth - clientWidth > 0.0 then scrollWidth - clientWidth else 0.0
  }

  /** The DOM's clamp on an assigned `scrollLeft`. */
  function ClampScroll(v: real, scrollWidth: real, clientWidth: real): (r: real)
    ensures 0.0 <= r <= MaxScroll(scrollWidth, clientWidth)
    ensures 0.0 <= v <= MaxScroll(scrollWidth, clientWidth) ==> r == v
    ensures v < 0.0 ==> r == 0.0
    ensures v > MaxScroll(scrollWidth, clientWidth) ==> r == MaxScroll(scrollWidth, clientWidth)
  {
    if v < 0.0 then 0.0
    else if v > MaxScroll(scrollWidth, clientWidth) then MaxScroll(scrollWidth, clientWidth)
    else v
  }

  /** The `scrollLeft` that `scrollIntoView(progress, isPlaying)` leaves.
      Dragging scrolls by 30 when the cursor is within 30 of an edge.
      Otherwise a cursor outside the view brings the view to it (centred
      with `autoCenter`), and while playing with `autoCenter` a cursor right
      of the middle of the old view nudges it by at most 10. */
  function ScrollTarget(progress: real, scrollLeft: real, scrollWidth: real, clientWidth: real,
                        isDragging: bool, autoCenter: bool, isPlaying: bool): (r: real)
    ensures 0.0 <= scrollLeft <= MaxScroll(scrollWidth, clientWidth) ==> 0.0 <= r <= MaxScroll(scrollWidth, clientWidth)
  {
    var progressWidth := progress * scrollWidth;
    var startEdge := scrollLeft;
    var endEdge := scrollLeft + clientWidth;
    var middle := clientWidth / 2.0;
    if isDragging then
      if progressWidth + MIN_GAP > endEdge then ClampScroll(scrollLeft + MIN_GAP, scrollWidth, clientWidth)
      else if progressWidth - MIN_GAP < startEdge then ClampScroll(scrollLeft - MIN_GAP, scrollWidth, clientWidth)
      else scrollLeft
    else
      var s1 := if progressWidth < startEdge || progressWidth > endEdge
        then ClampScroll(progressWidth - (if autoCenter then middle else 0.0), scrollWidth, clientWidth)
        else scrollLeft;
      var center := progressWidth - scrollLeft - middle;
      if isPlaying && autoCenter && center > 0.0
      then ClampScroll(s1 + (if center < CENTER_STEP then center else CENTER_STEP), scrollWidth, clientWidth)
      else s1
  }

  /** While dragging the view moves by at most 30 pixels. */
  lemma DragScrollStep(progress: real, scrollLeft: real, scrollWidth: real, clientWidth: real, autoCenter: bool, isPlaying: bool)
    requires 0.0 <= scrollLeft <= scrollWidth - clientWidth
    ensures var r := ScrollTarget(progress, scrollLeft, scrollWidth, clientWidth, true, autoCenter, isPlaying);
      -MIN_GAP <= r - scrollLeft <= MIN_GAP
  {
  }

  /** A cursor outside the view, when not dragging or playing, ends up in
      view (in its middle with `autoCenter`) unless the target is past the
      scrollable range. */
  lemma JumpBringsCursorIntoView(progress: real, scrollLeft: real, scrollWidth: real, clientWidth: real, autoCenter: bool)
    requires clientWidth >= 0.0
    requires 0.0 <= scrollLeft <= scrollWidth - clientWidth
    requires var p := progress * scrollWidth; p < scrollLeft || p > scrollLeft + clientWidth
    requires var t := progress * scrollWidth - (if autoCenter then clientWidth / 2.0 else 0.0);
      0.0 <= t <= scrollWidth - clientWidth
    ensures var r := ScrollTarget(progress, scrollLeft, scrollWidth, clientWidth, false, autoCenter, false);
      r <= progress * scrollWidth <= r + clientWidth
      && (autoCenter ==> progress * scrollWidth == r + clientWidth / 2.0)
  {
  }

  /** The fractions a click reports: x over the width, and (as written) the
      same horizontal offset over the height. */
  function ClickPosition(clientX: real, clientY: real, rectLeft: real, rectWidth: real, rectHeight: real): (r: (Num, Num))
    ensures r.0 == Div(clientX - rectLeft, rectWidth)
    ensures rectWidth > 0.0 && rectLeft <= clientX <= rectLeft + rectWidth ==>
      r.0.Finite? && 0.0 <= r.0.value <= 1.0
  {
    var x := clientX - rectLeft;
    var y := clientX - rectLeft;
    assert rectWidth > 0.0 && 0.0 <= x <= rectWidth ==> x / rectWidth <= 1.0 by {
      if rectWidth > 0.0 && 0.0 <= x <= rectWidth {
        QuotientAtMostOne(x, rectWidth);
      }
    }
    (Div(x, rectWidth), Div(y, rectHeight))
  }

  /** The vertical fraction ignores the pointer's vertical position. */
  lemma ClickRelativeYIgnoresClientY(clientX: real, y1: real, y2: real, rectLeft: real, rectWidth: real, rectHeight: real)
    ensures ClickPosition(clientX, y1, rectLeft, rectWidth, rectHeight).1
         == ClickPosition(clientX, y2, rectLeft, rectWidth, rectHeight).1
    ensures ClickPosition(clientX, y1, rectLeft, rectWidth, rectHeight).1 == Div(clientX - rectLeft, rectHeight)
  {
  }

  /** A click at the centre of a wrapper 100 wide and 10 high reports a
      vertical fraction of 5, although the pointer is inside. */
  lemma ClickInsideReportsYAboveOne()
    ensures ClickPosition(50.0, 5.0, 0.0, 100.0, 10.0).1 == Finite(5.0)
  {
  }

  /** The click fractions as evidently intended: the horizontal one as
      before, the vertical one measured from the wrapper's top edge. */
  function ClickFractions(clientX: real, clientY: real, rectLeft: real, rectTop: real, rectWidth: real, rectHeight: real): (r: (Num, Num))
    ensures r.0 == ClickPosition(clientX, clientY, rectLeft, rectWidth, rectHeight).0
    ensures rectHeight > 0.0 && rectTop <= clientY <= rectTop + rectHeight ==>
      r.1.Finite? && 0.0 <= r.1.value <= 1.0
  {
    var y := clientY - rectTop;
    assert rectHeight > 0.0 && 0.0 <= y <= rectHeight ==> y / rectHeight <= 1.0 by {
      if rectHeight > 0.0 && 0.0 <= y <= rectHeight {
        QuotientAtMostOne(y, rectHeight);
      }
    }
    (ClickPosition(clientX, clientY, rectLeft, rectWidth, rectHeight).0, Div(y, rectHeight))
  }

  /** With the correction, a lower click reports a larger vertical fraction,
      and the click of `ClickInsideReportsYAboveOne` reports the centre. */
  lemma ClickFractionsFollowPointer(clientX: real, y1: real, y2: real, rectLeft: real, rectTop: real, rectWidth: real, rectHeight: real)
    requires rectHeight > 0.0 && y1 < y2
    ensures ClickFractions(clientX, y1, rectLeft, rectTop, rectWidth, rectHeight).1.value
          < ClickFractions(clientX, y2, rectLeft, rectTop, rectWidth, rectHeight).1.value
    ensures ClickFractions(50.0, 5.0, 0.0, 0.0, 100.0, 10.0) == (Finite(0.5), Finite(0.5))
  {
    var a, b := y1 - rectTop, y2 - rectTop;
    assert b / rectHeight - a / rectHeight == (b - a) / rectHeight;
  }

  /** The drag handler's `Math.max(0, Math.min(1, x / width))`. */
  function DragFraction(x: real, width: real): (r: Num)
    ensures !r.NaN? ==> r.Finite? && 0.0 <= r.value <= 1.0
    ensures r.NaN? <==> x == 0.0 && width == 0.0
    ensures width > 0.0 && 0.0 <= x <= width ==> r == Finite(x / width)
  {
    match Div(x, width)
    case NaN => NaN
    case PosInfinity => Finite(1.0)
    case NegInfinity => Finite(0.0)
    case Finite(q) =>
      assert width > 0.0 && 0.0 <= x <= width ==> q <= 1.0 by {
        if width > 0.0 && 0.0 <= x <= width {
          QuotientAtMostOne(x, width);
        }
      }
      Finite(if q < 0.0 then 0.0 else if q > 1.0 then 1.0 else q)
  }

  /** A part of a positive whole is at most one whole. */
  lemma QuotientAtMostOne(x: real, w: real)
    requires w > 0.0 && 0.0 <= x <= w
    ensures x / w <= 1.0
  {
    var q := x / w;
    assert q * w == x;
    assert (1.0 - q) * w == w - x;
  }

  /** The fractions of the scroll width the view spans, as the "scroll"
      event reports them. */
  function ScrollFractions(scrollLeft: real, scrollWidth: real, clientWidth: real): (r: (Num, Num))
    ensures scrollWidth > 0.0 ==> r.0.Finite? && r.1.Finite? && r.1.value - r.0.value == clientWidth / scrollWidth
  {
    (Div(scrollLeft, scrollWidth), Div(scrollLeft + clientWidth, scrollWidth))
  }

  /** `Math.round(percents) === 100`: the cursor is pulled back by its width
      exactly when the progress is within half a percent of the end. */
  function CursorAtEnd(percents: real): (b: bool)
    ensures b <==> 99.5 <= percents < 100.5
  {
    Round(percents) == 100
  }
}
