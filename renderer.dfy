/** The stateful part of `Renderer`: the delay contexts of `createDelay` and
    the host's pending timeouts, the tile chains of `renderChannel`, the
    layout that `render` stores, the scroll compensation of `reRender`,
    `scrollIntoView` and the autoscroll decision of `renderProgress`.
    `setTimeout` and `clearTimeout` are modelled by a set of pending timeout
    ids and a counter for the next id; the scroll container's measurements
    are fields. Canvas drawing is recorded as the list of clamped ranges
    passed to `draw`. */
module Render {
  import opened JsNumber
  import opened Wrappers
  import opened RenderGeometry

  /** What a scheduled callback will do: a tile callback draws `range`,
      then goes on in the same direction while the head's start is positive
      or the tail's end is below `len`; the resize observer's callback
      re-renders. */
  datatype Continuation =
    | HeadNext(range: Span, viewportLen: int, len: nat)
    | TailNext(range: Span, viewportLen: int, len: nat)
    | ReRenderLater

  /** The events the renderer emits that this model follows. */
  datatype RenderEvent = Rendered | Scroll(startX: Num, endX: Num)

  /** The decoded audio `render` stores: its duration and, for each
      `renderChannel` call, the length of the channel data it draws (one
      entry per channel with `splitChannels`, else the first channel's). */
  datatype AudioShape = AudioShape(duration: real, channelLengths: seq<nat>)

  /** The object `createDelay` pushes to `timeouts`; its closure keeps the
      last timeout it set. */
  class DelayContext {
    var timeout: Option<nat>
    var callback: Option<Continuation>

    constructor()
      ensures timeout.None? && callback.None?
    {
      timeout := None;
      callback := None;
    }
  }

  /** The timeout ids held by a list of delay contexts. */
  ghost function TimeoutIds(cs: seq<DelayContext>): set<nat>
    reads set c | c in cs
  {
    if cs == [] then {}
    else TimeoutIds(cs[..|cs| - 1]) + (if cs[|cs| - 1].timeout.Some? then {cs[|cs| - 1].timeout.value} else {})
  }

  /** Every timeout a listed context holds is among its ids. */
  lemma {:induction false} TimeoutIdsContain(cs: seq<DelayContext>, c: DelayContext)
    requires c in cs && c.timeout.Some?
    ensures c.timeout.value in TimeoutIds(cs)
    decreases |cs|
  {
    if c != cs[|cs| - 1] {
      assert c in cs[..|cs| - 1] by {
        var k :| 0 <= k < |cs| && cs[k] == c;
        assert cs[..|cs| - 1][k] == c;
      }
      TimeoutIdsContain(cs[..|cs| - 1], c);
    }
  }

  /** The ranges one `renderChannel` call draws at once: the visible slice
      and, when the slice ends before `len`, the first tail range. */
  function Opening(len: nat, scrollLeft: real, scrollWidth: nat, clientWidth: nat, barWidth: real, barGap: real): (r: seq<Span>)
    ensures VisibleSlice(scrollLeft, scrollWidth, clientWidth, len, barWidth, barGap).None? ==> r == []
    ensures VisibleSlice(scrollLeft, scrollWidth, clientWidth, len, barWidth, barGap).Some? ==> 1 <= |r| <= 2
    ensures forall k :: 0 <= k < |r| ==> 0 <= r[k].from && r[k].to <= len
  {
    match VisibleSlice(scrollLeft, scrollWidth, clientWidth, len, barWidth, barGap)
    case None => []
    case Some((start, end)) =>
      [Clamped(Span(start, end), len)]
        + (if end < len then [Clamped(Span(end, end + (end - start)), len)] else [])
  }

  /** The ranges all `renderChannel` calls of one `render` draw at once. */
  function Openings(lens: seq<nat>, scrollLeft: real, scrollWidth: nat, clientWidth: nat, barWidth: real, barGap: real): (r: seq<Span>)
    ensures |r| <= 2 * |lens|
    ensures forall k :: 0 <= k < |r| ==> 0 <= r[k].from
  {
    if lens == [] then []
    else
      Openings(lens[..|lens| - 1], scrollLeft, scrollWidth, clientWidth, barWidth, barGap)
        + Opening(lens[|lens| - 1], scrollLeft, scrollWidth, clientWidth, barWidth, barGap)
  }

  /** What one more `renderChannel` call adds to the ranges drawn. */
  lemma OpeningsStep(d0: seq<Span>, d1: seq<Span>, d2: seq<Span>, lens: seq<nat>, c: nat,
                     scrollLeft: real, scrollWidth: nat, clientWidth: nat, barWidth: real, barGap: real)
    requires c < |lens|
    requires d1 == d0 + Openings(lens[..c], scrollLeft, scrollWidth, clientWidth, barWidth, barGap)
    requires d2 == d1 + Opening(lens[c], scrollLeft, scrollWidth, clientWidth, barWidth, barGap)
    ensures d2 == d0 + Openings(lens[..c + 1], scrollLeft, scrollWidth, clientWidth, barWidth, barGap)
  {
    assert lens[..c + 1][..c] == lens[..c];
    var x := Openings(lens[..c], scrollLeft, scrollWidth, clientWidth, barWidth, barGap);
    var y := Opening(lens[c], scrollLeft, scrollWidth, clientWidth, barWidth, barGap);
    assert Openings(lens[..c + 1], scrollLeft, scrollWidth, clientWidth, barWidth, barGap) == x + y;
    assert (d0 + x) + y == d0 + (x + y);
  }

  /** The first range drawn is the visible slice, and the head continuation
      scheduled after it is the second range of the head chain. */
  lemma OpeningStartsHeadChain(len: nat, scrollLeft: real, scrollWidth: nat, clientWidth: nat, barWidth: real, barGap: real)
    requires VisibleSlice(scrollLeft, scrollWidth, clientWidth, len, barWidth, barGap).Some?
    ensures var (start, end) := VisibleSlice(scrollLeft, scrollWidth, clientWidth, len, barWidth, barGap).value;
      start < end ==>
        && Opening(len, scrollLeft, scrollWidth, clientWidth, barWidth, barGap)[0] == Clamped(HeadTiles(start, end, end - start)[0], len)
        && (start > 0 ==> HeadTiles(start, end, end - start)[1] == HeadStep(Span(start, end), end - start))
  {
  }

  /** `reRender`'s correction: the scroll position moves by as much as the
      cursor moved, then the DOM clamps it. Unless clamped, the cursor keeps
      its place in the view. */
  function CompensatedScroll(scrollLeft: real, oldCursor: real, newCursor: real, scrollWidth: real, clientWidth: real): (r: real)
    ensures 0.0 <= r <= MaxScroll(scrollWidth, clientWidth)
    ensures 0.0 <= scrollLeft + (newCursor - oldCursor) <= MaxScroll(scrollWidth, clientWidth) ==>
      newCursor - r == oldCursor - scrollLeft
  {
    ClampScroll(scrollLeft + (newCursor - oldCursor), scrollWidth, clientWidth)
  }

  class Renderer {
    const fillParent: bool
    const autoCenter: bool
    const autoScroll: bool
    const barWidth: real
    const barGap: real
    var minPxPerSec: real

    /** `this.timeouts`: the contexts made by `createDelay` since the last
        `render`. */
    var timeouts: seq<DelayContext>
    /** The host's pending timeouts, and the id the next one gets. */
    var pending: set<nat>
    var nextTimer: nat
    /** Ranges passed to `draw` since the canvases were last cleared. */
    var drawn: seq<Span>

    var audio: Option<AudioShape>
    var isScrollable: bool
    var isDragging: bool
    /** The canvas width `render` computed, in device pixels. */
    var width: real
    /** The wrapper's width in CSS pixels: the parent's when filling it, else
        the scroll width. */
    var wrapperWidth: real
    /** The last progress `renderProgress` drew, and whether the cursor was
        pulled back from the end. */
    var progress: real
    var cursorAtEnd: bool

    /** The context `initEvents` creates for the resize observer's delayed
        `reRender`; the closure keeps it after `render` empties `timeouts`. */
    const resizeDelay: DelayContext

    /** The scroll container. */
    var scrollLeft: real
    var scrollWidth: nat
    var clientWidth: nat

    var events: seq<RenderEvent>

    /** Timeout ids are positive and only handed out once; the scroll
        position stays within what the container allows. */
    ghost predicate Valid()
      reads this`nextTimer, this`pending, this`scrollLeft, this`scrollWidth, this`clientWidth, resizeDelay`timeout
    {
      && nextTimer > 0
      && (forall t :: t in pending ==> 0 < t < nextTimer)
      && (resizeDelay.timeout.Some? ==> resizeDelay.timeout.value < nextTimer)
      && 0.0 <= scrollLeft <= MaxScroll(scrollWidth as real, clientWidth as real)
    }

    /** The fields `render` sets from the layout of audio of the given
        duration, the scroll position clamped from `oldScrollLeft`. */
    ghost predicate LaidOut(duration: real, parentWidth: nat, devicePixelRatio: real, oldScrollLeft: real)
      reads this`minPxPerSec, this`isScrollable, this`width, this`wrapperWidth
      reads this`clientWidth, this`scrollWidth, this`scrollLeft
    {
      var l := ComputeLayout(duration, minPxPerSec, parentWidth, fillParent, devicePixelRatio);
      && isScrollable == l.isScrollable && width == l.width
      && wrapperWidth == (if l.useParentWidth then parentWidth as real else l.scrollWidth as real)
      && clientWidth == parentWidth
      && scrollWidth == Max(Max(l.scrollWidth, 0), parentWidth)
      && scrollLeft == ClampScroll(oldScrollLeft, scrollWidth as real, clientWidth as real)
    }

    /** The cursor's offset within the wrapper. */
    function Cursor(): real
      reads this`progress, this`wrapperWidth
    {
      progress * wrapperWidth
    }

    constructor(minPxPerSec: real, fillParent: bool, autoCenter: bool, autoScroll: bool,
                barWidth: real, barGap: real, clientWidth: nat)
      ensures Valid() && fresh(resizeDelay) && resizeDelay.timeout.None?
      ensures timeouts == [resizeDelay] && pending == {} && drawn == [] && audio.None?
      ensures !isScrollable && !isDragging && scrollLeft == 0.0 && events == []
      ensures this.minPxPerSec == minPxPerSec && this.clientWidth == clientWidth
      ensures this.fillParent == fillParent && this.autoCenter == autoCenter && this.autoScroll == autoScroll
      ensures this.barWidth == barWidth && this.barGap == barGap
    {
      this.fillParent := fillParent;
      this.autoCenter := autoCenter;
      this.autoScroll := autoScroll;
      this.barWidth := barWidth;
      this.barGap := barGap;
      this.minPxPerSec := minPxPerSec;
      var resize := new DelayContext();
      resizeDelay := resize;
      timeouts := [resize];
      pending := {};
      nextTimer := 1;
      drawn := [];
      audio := None;
      isScrollable := false;
      isDragging := false;
      width := 0.0;
      wrapperWidth := 0.0;
      progress := 0.0;
      cursorAtEnd := false;
      scrollLeft := 0.0;
      scrollWidth := clientWidth;
      this.clientWidth := clientWidth;
      events := [];
    }

    /** `createDelay()`: a new context, remembered in `timeouts`. */
    method CreateDelay() returns (ctx: DelayContext)
      modifies this`timeouts
      ensures fresh(ctx) && ctx.timeout.None? && ctx.callback.None?
      ensures timeouts == old(timeouts) + [ctx]
    {
      ctx := new DelayContext();
      timeouts := timeouts + [ctx];
    }

    /** The closure `createDelay` returns, called with a callback: clears the
        context's previous timeout and sets a new one. At most one timeout
        per context is pending afterwards. */
    method Delay(ctx: DelayContext, k: Continuation)
      requires Valid()
      modifies this`pending, this`nextTimer, ctx
      ensures Valid()
      ensures ctx.timeout == Some(old(nextTimer)) && ctx.callback == Some(k)
      ensures nextTimer == old(nextTimer) + 1
      ensures old(nextTimer) !in old(pending)
      ensures pending == (if old(ctx.timeout).Some? then old(pending) - {old(ctx.timeout).value} else old(pending)) + {old(nextTimer)}
    {
      if ctx.timeout.Some? {
        pending := pending - {ctx.timeout.value};
      }
      ctx.timeout := Some(nextTimer);
      ctx.callback := Some(k);
      pending := pending + {nextTimer};
      nextTimer := nextTimer + 1;
    }

    /** A pending tile timeout fires: its range is drawn and the chain goes
        on with the next range while the head's start is positive or the
        tail's end is below the channel length. */
    method Fire(ctx: DelayContext)
      requires Valid()
      requires ctx.timeout.Some? && ctx.timeout.value in pending && ctx.callback.Some?
      requires !ctx.callback.value.ReRenderLater?
      modifies this`pending, this`nextTimer, this`drawn, ctx
      ensures Valid()
      ensures old(ctx.timeout.value) !in pending
      ensures drawn == old(drawn) + [Clamped(old(ctx.callback.value.range), old(ctx.callback.value.len))]
      ensures var k := old(ctx.callback.value);
        k.HeadNext? ==>
          (k.range.from > 0 <==> ctx.timeout.Some? && ctx.timeout.value in pending) &&
          (k.range.from > 0 ==> ctx.callback == Some(HeadNext(HeadStep(k.range, k.viewportLen), k.viewportLen, k.len)))
      ensures var k := old(ctx.callback.value);
        k.TailNext? ==>
          (k.range.to < k.len <==> ctx.timeout.Some? && ctx.timeout.value in pending) &&
          (k.range.to < k.len ==> ctx.callback == Some(TailNext(TailStep(k.range, k.viewportLen), k.viewportLen, k.len)))
    {
      pending := pending - {ctx.timeout.value};
      var k := ctx.callback.value;
      drawn := drawn + [Clamped(k.range, k.len)];
      match k
      case HeadNext(range, vl, len) =>
        if range.from > 0 {
          Delay(ctx, HeadNext(HeadStep(range, vl), vl, len));
        }
      case TailNext(range, vl, len) =>
        if range.to < len {
          Delay(ctx, TailNext(TailStep(range, vl), vl, len));
        }
    }

    /** The resize observer's callback: the resize context's previous
        timeout, if any, is cleared and a `reRender` is scheduled, so a
        burst of resizes leaves one re-render pending. */
    method Resize()
      requires Valid()
      modifies this`pending, this`nextTimer, resizeDelay
      ensures Valid()
      ensures resizeDelay.timeout == Some(old(nextTimer)) && old(nextTimer) in pending
      ensures resizeDelay.callback == Some(ReRenderLater)
      ensures old(resizeDelay.timeout).Some? ==> old(resizeDelay.timeout.value) !in pending
    {
      Delay(resizeDelay, ReRenderLater);
    }

    /** The resize context's timeout fires: the stored audio is rendered
        again, when there is one. */
    method FireResize(parentWidth: nat, devicePixelRatio: real)
      requires Valid()
      requires resizeDelay.timeout.Some? && resizeDelay.timeout.value in pending
      modifies this
      ensures Valid() && old(resizeDelay.timeout.value) !in pending
      ensures old(audio).None? ==> pending == old(pending) - {old(resizeDelay.timeout.value)} && drawn == old(drawn)
      ensures old(audio).Some? ==> audio == old(audio) && |events| == |old(events)| + 1
    {
      var id := resizeDelay.timeout.value;
      pending := pending - {id};
      ReRender(parentWidth, devicePixelRatio);
    }

    /** `renderChannel` for channel data of length `len`: two new delay
        contexts; the visible slice is drawn, and the first tail range when
        the slice ends before `len`; each chain that goes on schedules its
        next range. */
    method RenderChannel(len: nat) returns (head: DelayContext, tail: DelayContext)
      requires Valid()
      modifies this`timeouts, this`pending, this`nextTimer, this`drawn
      ensures Valid()
      ensures fresh(head) && fresh(tail) && timeouts == old(timeouts) + [head, tail]
      ensures drawn == old(drawn) + Opening(len, scrollLeft, scrollWidth, clientWidth, barWidth, barGap)
      ensures nextTimer >= old(nextTimer)
      ensures forall t :: t < old(nextTimer) ==> (t in pending <==> t in old(pending))
    {
      head := CreateDelay();
      tail := CreateDelay();
      var slice := VisibleSlice(scrollLeft, scrollWidth, clientWidth, len, barWidth, barGap);
      if slice.Some? {
        StartChains(head, tail, slice.value.0, slice.value.1, len);
      }
    }

    /** The body of `renderChannel` after its two delays are made, for the
        visible slice [start, end): draws it and the first tail range, and
        schedules the next range of each chain that goes on. */
    method StartChains(head: DelayContext, tail: DelayContext, start: int, end: int, len: nat)
      requires Valid()
      requires head != tail && head.timeout.None? && tail.timeout.None?
      modifies this`pending, this`nextTimer, this`drawn, head, tail
      ensures Valid()
      ensures drawn == old(drawn) + [Clamped(Span(start, end), len)]
        + (if end < len then [Clamped(Span(end, end + (end - start)), len)] else [])
      ensures nextTimer >= old(nextTimer)
      ensures forall t :: t < old(nextTimer) ==> (t in pending <==> t in old(pending))
    {
      var vl := end - start;
      drawn := drawn + [Clamped(Span(start, end), len)];
      if start > 0 {
        Delay(head, HeadNext(HeadStep(Span(start, end), vl), vl, len));
      }
      if end < len {
        drawn := drawn + [Clamped(Span(end, end + vl), len)];
        if end + vl < len {
          Delay(tail, TailNext(Span(end + vl, end + vl + vl), vl, len));
        }
      }
    }

    /** The first step of `render`: clears the pending timeout of every
        listed context and empties the list. */
    method ClearTimeouts()
      requires Valid()
      modifies this`pending, this`timeouts
      ensures Valid()
      ensures pending == old(pending) - old(TimeoutIds(timeouts)) && timeouts == []
    {
      var i := 0;
      while i < |timeouts|
        invariant 0 <= i <= |timeouts|
        invariant timeouts == old(timeouts)
        invariant pending == old(pending) - TimeoutIds(timeouts[..i])
      {
        assert timeouts[..i + 1][..i] == timeouts[..i];
        var ctx := timeouts[i];
        if ctx.timeout.Some? {
          pending := pending - {ctx.timeout.value};
        }
        i := i + 1;
      }
      assert timeouts[..i] == timeouts;
      timeouts := [];
    }

    /** The layout part of `render`. */
    method ApplyLayout(duration: real, parentWidth: nat, devicePixelRatio: real)
      requires Valid()
      modifies this`isScrollable, this`width, this`wrapperWidth, this`clientWidth, this`scrollWidth, this`scrollLeft
      ensures Valid()
      ensures LaidOut(duration, parentWidth, devicePixelRatio, old(scrollLeft))
    {
      var l := ComputeLayout(duration, minPxPerSec, parentWidth, fillParent, devicePixelRatio);
      isScrollable := l.isScrollable;
      width := l.width;
      wrapperWidth := if l.useParentWidth then parentWidth as real else l.scrollWidth as real;
      clientWidth := parentWidth;
      scrollWidth := Max(Max(l.scrollWidth, 0), parentWidth);
      scrollLeft := ClampScroll(scrollLeft, scrollWidth as real, clientWidth as real);
    }

    /** The `renderChannel` calls of `render`, one per entry of `lens`. */
    method RenderChannels(lens: seq<nat>)
      requires Valid()
      modifies this`timeouts, this`pending, this`nextTimer, this`drawn
      ensures Valid()
      ensures |timeouts| == |old(timeouts)| + 2 * |lens|
      ensures forall k :: |old(timeouts)| <= k < |timeouts| ==> fresh(timeouts[k])
      ensures timeouts[..|old(timeouts)|] == old(timeouts)
      ensures drawn == old(drawn) + Openings(lens, scrollLeft, scrollWidth, clientWidth, barWidth, barGap)
      ensures nextTimer >= old(nextTimer)
      ensures forall t :: t < old(nextTimer) ==> (t in pending <==> t in old(pending))
    {
      var c := 0;
      ghost var made: seq<DelayContext> := [];
      assert old(timeouts) + made == old(timeouts);
      while c < |lens|
        invariant 0 <= c <= |lens|
        invariant Valid()
        invariant timeouts == old(timeouts) + made && |made| == 2 * c
        invariant forall k :: 0 <= k < |made| ==> fresh(made[k])
        invariant drawn == old(drawn) + Openings(lens[..c], scrollLeft, scrollWidth, clientWidth, barWidth, barGap)
        invariant nextTimer >= old(nextTimer)
        invariant forall t :: t < old(nextTimer) ==> (t in pending <==> t in old(pending))
      {
        ghost var drawnBefore := drawn;
        var head, tail := RenderChannel(lens[c]);
        assert old(timeouts) + made + [head, tail] == old(timeouts) + (made + [head, tail]);
        made := made + [head, tail];
        OpeningsStep(old(drawn), drawnBefore, drawn, lens, c, scrollLeft, scrollWidth, clientWidth, barWidth, barGap);
        c := c + 1;
      }
      assert lens[..c] == lens;
      forall k | |old(timeouts)| <= k < |timeouts| ensures fresh(timeouts[k]) {
        assert timeouts[k] == made[k - |old(timeouts)|];
      }
    }

    /** `render(audioData)`: every pending timeout of the listed contexts is
        cleared and the list emptied; the canvases are cleared; the layout is
        computed (the container's scroll width becomes the wrapper's width or
        its own, whichever is larger, and `scrollLeft` is clamped to it); then
        each channel is rendered, the audio stored and "render" emitted. */
    method Render(a: AudioShape, parentWidth: nat, devicePixelRatio: real)
      requires Valid()
      modifies this`timeouts, this`pending, this`nextTimer, this`drawn, this`audio, this`events
      modifies this`isScrollable, this`width, this`wrapperWidth, this`clientWidth, this`scrollWidth, this`scrollLeft
      ensures Valid()
      ensures forall t :: t < old(nextTimer) ==> (t in pending <==> t in old(pending) - old(TimeoutIds(timeouts)))
      ensures |timeouts| == 2 * |a.channelLengths|
      ensures forall k :: 0 <= k < |timeouts| ==> fresh(timeouts[k])
      ensures LaidOut(a.duration, parentWidth, devicePixelRatio, old(scrollLeft))
      ensures drawn == Openings(a.channelLengths, scrollLeft, scrollWidth, clientWidth, barWidth, barGap)
      ensures audio == Some(a) && events == old(events) + [Rendered]
    {
      Prepare(a.duration, parentWidth, devicePixelRatio);
      RenderChannels(a.channelLengths);
      audio := Some(a);
      events := events + [Rendered];
    }

    /** The steps of `render` before the channels are drawn: the timeouts
        are cleared, the canvases emptied and the layout applied. */
    method Prepare(duration: real, parentWidth: nat, devicePixelRatio: real)
      requires Valid()
      modifies this`timeouts, this`pending, this`drawn
      modifies this`isScrollable, this`width, this`wrapperWidth, this`clientWidth, this`scrollWidth, this`scrollLeft
      ensures Valid()
      ensures pending == old(pending) - old(TimeoutIds(timeouts)) && timeouts == [] && drawn == []
      ensures LaidOut(duration, parentWidth, devicePixelRatio, old(scrollLeft))
    {
      ClearTimeouts();
      drawn := [];
      ApplyLayout(duration, parentWidth, devicePixelRatio);
    }

    /** `reRender()`: nothing before the first render; otherwise renders the
        stored audio again and, when the container scrolls and its scroll
        width changed, shifts the scroll position by the cursor's move. */
    method ReRender(parentWidth: nat, devicePixelRatio: real)
      requires Valid()
      modifies this
      ensures Valid()
      ensures old(audio).None? ==> unchanged(this)
      ensures old(audio).Some? ==> audio == old(audio) && |events| == |old(events)| + 1
      ensures forall t :: t < old(nextTimer) && t in pending ==> t in old(pending)
      ensures old(audio).Some? ==>
        scrollWidth == Max(Max(ComputeLayout(audio.value.duration, minPxPerSec, parentWidth, fillParent, devicePixelRatio).scrollWidth, 0), parentWidth)
      ensures old(audio).Some? && isScrollable && scrollWidth != old(scrollWidth) ==>
        scrollLeft == CompensatedScroll(ClampScroll(old(scrollLeft), scrollWidth as real, clientWidth as real),
                                        old(Cursor()), Cursor(), scrollWidth as real, clientWidth as real)
      ensures old(audio).Some? && !(isScrollable && scrollWidth != old(scrollWidth)) ==>
        scrollLeft == ClampScroll(old(scrollLeft), scrollWidth as real, clientWidth as real)
      ensures minPxPerSec == old(minPxPerSec) && progress == old(progress)
    {
      if audio.None? {
        return;
      }
      var oldScrollWidth := scrollWidth;
      var oldCursor := Cursor();
      Render(audio.value, parentWidth, devicePixelRatio);
      Compensate(oldScrollWidth, oldCursor);
    }

    /** The correction at the end of `reRender`. */
    method Compensate(oldScrollWidth: nat, oldCursor: real)
      requires Valid()
      modifies this`scrollLeft
      ensures Valid()
      ensures isScrollable && scrollWidth != oldScrollWidth ==>
        scrollLeft == CompensatedScroll(old(scrollLeft), oldCursor, Cursor(), scrollWidth as real, clientWidth as real)
      ensures !(isScrollable && scrollWidth != oldScrollWidth) ==> scrollLeft == old(scrollLeft)
    {
      if isScrollable && oldScrollWidth != scrollWidth {
        var newCursor := Cursor();
        scrollLeft := CompensatedScroll(scrollLeft, oldCursor, newCursor, scrollWidth as real, clientWidth as real);
        assert Cursor() == newCursor;
      }
    }

    /** `zoom(minPxPerSec)`: stores the zoom and re-renders. */
    method Zoom(px: real, parentWidth: nat, devicePixelRatio: real)
      requires Valid()
      modifies this
      ensures Valid() && minPxPerSec == px
      ensures old(audio).Some? ==>
        audio == old(audio) && scrollWidth == Max(Max(ComputeLayout(old(audio).value.duration, px, parentWidth, fillParent, devicePixelRatio).scrollWidth, 0), parentWidth)
    {
      minPxPerSec := px;
      ReRender(parentWidth, devicePixelRatio);
    }

    /** `scrollIntoView(progress, isPlaying)`: moves the view as
        `ScrollTarget` says and emits "scroll" with the visible fractions. */
    method ScrollIntoView(p: real, isPlaying: bool)
      requires Valid()
      modifies this`scrollLeft, this`events
      ensures Valid()
      ensures scrollLeft == ScrollTarget(p, old(scrollLeft), scrollWidth as real, clientWidth as real, isDragging, autoCenter, isPlaying)
      ensures events == old(events) + [Scroll(ScrollFractions(scrollLeft, scrollWidth as real, clientWidth as real).0,
                                              ScrollFractions(scrollLeft, scrollWidth as real, clientWidth as real).1)]
    {
      scrollLeft := ScrollTarget(p, scrollLeft, scrollWidth as real, clientWidth as real, isDragging, autoCenter, isPlaying);
      var (startX, endX) := ScrollFractions(scrollLeft, scrollWidth as real, clientWidth as real);
      events := events + [Scroll(startX, endX)];
    }

    /** `renderProgress(progress, isPlaying)`: a NaN progress (`None`) is
        ignored; otherwise the cursor moves, is pulled back at the end, and
        the view follows when the container scrolls and `autoScroll` is on. */
    method RenderProgress(p: Option<real>, isPlaying: bool)
      requires Valid()
      modifies this`progress, this`cursorAtEnd, this`scrollLeft, this`events
      ensures Valid()
      ensures p.None? ==> unchanged(this)
      ensures p.Some? ==> progress == p.value && cursorAtEnd == CursorAtEnd(p.value * 100.0)
      ensures p.Some? && isScrollable && autoScroll ==>
        scrollLeft == ScrollTarget(p.value, old(scrollLeft), scrollWidth as real, clientWidth as real, isDragging, autoCenter, isPlaying)
        && |events| == |old(events)| + 1
      ensures !(p.Some? && isScrollable && autoScroll) ==> scrollLeft == old(scrollLeft) && events == old(events)
    {
      if p.None? {
        return;
      }
      progress := p.value;
      cursorAtEnd := CursorAtEnd(p.value * 100.0);
      if isScrollable && autoScroll {
        ScrollIntoView(p.value, isPlaying);
      }
    }

    /** The drag callbacks of `initDrag`: start and end set `isDragging`. */
    method SetDragging(dragging: bool)
      modifies this`isDragging
      ensures isDragging == dragging
    {
      isDragging := dragging;
    }
  }

  /** After a render, no timeout set before it through a listed context is
      still pending, so no stale tile of the previous render can be drawn. */
  lemma RenderCancelsListed(r: Renderer, oldTimeouts: seq<DelayContext>, oldPending: set<nat>, oldNext: nat, c: DelayContext)
    requires forall t :: t < oldNext ==> (t in r.pending <==> t in oldPending - TimeoutIds(oldTimeouts))
    requires c in oldTimeouts && c.timeout.Some? && c.timeout.value < oldNext
    ensures c.timeout.value !in r.pending
  {
    TimeoutIdsContain(oldTimeouts, c);
  }

  /** A resize before the first render: the render cancels the pending
      re-render and drops the resize context from `timeouts`, so no later
      render clears that context's timeouts. */
  method ResizeThenRender(r: Renderer, a: AudioShape, parentWidth: nat, devicePixelRatio: real)
    requires r.Valid() && r.timeouts == [r.resizeDelay]
    modifies r, r.resizeDelay
    ensures r.Valid() && r.resizeDelay !in r.timeouts
    ensures r.resizeDelay.timeout.Some? && r.resizeDelay.timeout.value !in r.pending
  {
    r.Resize();
    ghost var timeouts0, pending0, next0 := r.timeouts, r.pending, r.nextTimer;
    r.Render(a, parentWidth, devicePixelRatio);
    RenderCancelsListed(r, timeouts0, pending0, next0, r.resizeDelay);
  }
}
