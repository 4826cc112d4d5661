/** The `WaveSurfer` facade: the engine object that owns the media player,
    the animation timer, the decoded audio and the plugin list. Loading,
    decoding and rendering themselves happen elsewhere; `LoadAudio` takes
    their outcomes as parameters. */
module Engine {
  import opened JsNumber
  import opened Wrappers
  import opened MediaPlayer
  import opened Decoder
  import opened Timers
  import opened EventEmitter

  /** `minPxPerSec` when the options give none. */
  const DEFAULT_MIN_PX_PER_SEC := 0.0
  const NOT_LOADED := "No audio loaded"
  const NOT_DECODED := "The audio has not been decoded yet"

  datatype EngineEvent =
    | LoadEvent(url: string)
    | DecodeEvent(duration: Num)
    | ReadyEvent(duration: Num)
    | ZoomEvent(minPxPerSec: real)
    | PlayEvent
    | PauseEvent
    | DestroyEvent

  /** `getDuration()`: the media's duration, with NaN read as 0; a 0 or
      infinite duration falls back to the decoded data's duration when there
      is decoded data. */
  function DurationFallback(media: Num, decoded: Option<real>): (d: Num)
    ensures !d.NaN?
    ensures media.Finite? && media.value != 0.0 ==> d == media
    ensures media.NegInfinity? ==> d == media
    ensures (media.NaN? || media == Finite(0.0) || media.PosInfinity?) && decoded.Some? ==>
      d == Finite(decoded.value)
    ensures (media.NaN? || media == Finite(0.0)) && decoded.None? ==> d == Finite(0.0)
    ensures media.PosInfinity? && decoded.None? ==> d.PosInfinity?
  {
    var duration := if media.Truthy() then media else Finite(0.0);
    if (duration == Finite(0.0) || duration.PosInfinity?) && decoded.Some? then Finite(decoded.value)
    else duration
  }

  /** The signed sample of largest magnitude, scanning left to right from 0
      and replacing only on a strictly larger magnitude. */
  function PeakOf(s: seq<real>): (r: real)
    ensures r == 0.0 || r in s
  {
    if s == [] then 0.0
    else
      var m := PeakOf(s[..|s| - 1]);
      if Abs(s[|s| - 1]) > Abs(m) then s[|s| - 1] else m
  }

  /** The peak's magnitude bounds every sample's; a nonzero peak is a sample
      with no earlier sample of equal magnitude (the earliest wins ties). */
  lemma {:induction false} PeakOfIsEarliestLargest(s: seq<real>)
    ensures forall k :: 0 <= k < |s| ==> Abs(s[k]) <= Abs(PeakOf(s))
    ensures PeakOf(s) != 0.0 ==>
      exists k :: 0 <= k < |s| && s[k] == PeakOf(s) && forall j :: 0 <= j < k ==> Abs(s[j]) < Abs(s[k])
  {
    if s != [] {
      var init := s[..|s| - 1];
      PeakOfIsEarliestLargest(init);
      assert forall k :: 0 <= k < |init| ==> s[k] == init[k];
      var m := PeakOf(init);
      if Abs(s[|s| - 1]) > Abs(m) {
        var k := |s| - 1;
        assert forall j :: 0 <= j < k ==> Abs(s[j]) <= Abs(m) < Abs(s[k]);
      } else if m != 0.0 {
        var k :| 0 <= k < |init| && init[k] == m && forall j :: 0 <= j < k ==> Abs(init[j]) < Abs(init[k]);
        assert s[k] == m;
      }
    }
  }

  /** `Math.round(v * precision) / precision`. */
  function Quantize(v: real, precision: real): (r: Num)
    ensures r.Finite? <==> precision != 0.0
    ensures precision == 0.0 ==> r.NaN?
    ensures precision != 0.0 ==> r.value * precision == Round(v * precision) as real
  {
    Div(Round(v * precision) as real, precision)
  }

  /** With a positive precision, rounding moves a value by at most half a step. */
  lemma QuantizeWithinHalfStep(v: real, precision: real)
    requires precision > 0.0
    ensures Quantize(v, precision).Finite?
    ensures -0.5 / precision < Quantize(v, precision).value - v <= 0.5 / precision
  {
    var r := Round(v * precision) as real;
    assert r - 0.5 <= v * precision < r + 0.5;
    assert r / precision - v == (r - v * precision) / precision;
    assert -0.5 < r - v * precision <= 0.5;
    QuotientBounds(r - v * precision, precision);
  }

  lemma QuotientBounds(x: real, p: real)
    requires p > 0.0 && -0.5 < x <= 0.5
    ensures -0.5 / p < x / p <= 0.5 / p
  {
    assert x / p * p == x;
    assert (-0.5 / p) * p == -0.5;
    assert (0.5 / p) * p == 0.5;
  }

  /** `Math.round(length / maxLength)`: the samples per peak. */
  function SampleSize(length: nat, maxLength: int): (n: nat)
    requires maxLength > 0
    ensures n as real - 0.5 <= length as real / maxLength as real < n as real + 0.5
  {
    var q := length as real / maxLength as real;
    assert q >= 0.0;
    Round(q)
  }

  /** `channel.slice(i * size, (i + 1) * size)`: both ends clamped to the length. */
  function Window(c: seq<real>, i: nat, size: nat): (w: seq<real>)
    ensures |w| <= size
    ensures i * size < |c| ==> w == c[i * size..Min((i + 1) * size, |c|)]
    ensures i * size >= |c| ==> w == []
  {
    var from := Min(i * size, |c|);
    var to := Min((i + 1) * size, |c|);
    c[from..to]
  }

  /** The quantized peaks of the first `n` windows of `size` samples. */
  function PeaksUpTo(c: seq<real>, n: nat, size: nat, precision: real): (r: seq<Num>)
    ensures |r| == n
    ensures forall j :: 0 <= j < n ==> r[j] == Quantize(PeakOf(Window(c, j, size)), precision)
  {
    if n == 0 then []
    else PeaksUpTo(c, n - 1, size, precision) + [Quantize(PeakOf(Window(c, n - 1, size)), precision)]
  }

  /** The samples of each channel. */
  function Samples(chans: seq<array<real>>): (r: seq<seq<real>>)
    reads set a | a in chans
    ensures |r| == |chans|
    ensures forall d :: 0 <= d < |chans| ==> r[d] == chans[d][..]
  {
    if chans == [] then [] else Samples(chans[..|chans| - 1]) + [chans[|chans| - 1][..]]
  }

  /** One more channel's peaks appended to those of the channels before it. */
  lemma PeaksSnoc(peaks: seq<seq<Num>>, data: seq<Num>, contents: seq<seq<real>>, maxLength: int, precision: real)
    requires |peaks| < |contents|
    requires forall d :: 0 <= d < |peaks| ==> peaks[d] == ChannelPeaks(contents[d], maxLength, precision)
    requires data == ChannelPeaks(contents[|peaks|], maxLength, precision)
    ensures forall d :: 0 <= d <= |peaks| ==> (peaks + [data])[d] == ChannelPeaks(contents[d], maxLength, precision)
  {
  }

  /** The `maxLength` peaks of one channel, each quantized to `precision`. */
  function ChannelPeaks(c: seq<real>, maxLength: int, precision: real): (r: seq<Num>)
    ensures |r| == Max(maxLength, 0)
  {
    if maxLength <= 0 then []
    else PeaksUpTo(c, maxLength, SampleSize(|c|, maxLength), precision)
  }

  /** Entry `j` of a channel's peaks is the quantized peak of its `j`-th
      window, the window size being `length / maxLength` rounded. */
  lemma ChannelPeaksEntries(c: seq<real>, maxLength: int, precision: real, j: int)
    requires 0 <= j < maxLength
    ensures ChannelPeaks(c, maxLength, precision)[j]
      == Quantize(PeakOf(Window(c, j, SampleSize(|c|, maxLength))), precision)
  {
  }

  /** The windows of consecutive peaks are adjacent slices of the channel. */
  lemma WindowsAdjacent(c: seq<real>, i: nat, size: nat)
    requires (i + 1) * size <= |c|
    ensures Window(c, i, size) + Window(c, i + 1, size) == c[i * size..Min((i + 2) * size, |c|)]
  {
    assert (i + 1) * size == i * size + size;
    assert (i + 2) * size == (i + 1) * size + size;
    if (i + 1) * size < |c| {
      assert c[i * size..Min((i + 2) * size, |c|)]
        == c[i * size..(i + 1) * size] + c[(i + 1) * size..Min((i + 2) * size, |c|)];
    }
  }

  /** A fraction in [0, 1] of a positive duration is a position inside
      it, so the element seeks there exactly. */
  lemma SeekInsideDuration(d: real, progress: real)
    requires 0.0 < d && 0.0 <= progress <= 1.0
    ensures SeekPosition(d * progress, Finite(d)) == d * progress
  {
    assert d * progress <= d * 1.0;
  }

  class WaveSurfer {
    const player: Player
    const timer: Timer
    var decoded: Option<AudioBuffer>
    /** Registered plugins, by identity, in registration order. */
    var plugins: seq<nat>
    var minPxPerSec: real
    var events: seq<EngineEvent>

    ghost predicate Valid()
      reads this, player, timer, timer.bus
    {
      player.Valid() && timer.Valid()
    }

    /** The constructor: a player over the given media element (or a new
        one), a new timer, and the plugins of the options registered in
        order. A media element already playing starts the timer. */
    constructor(external: Option<MediaElement>, minPxPerSec: Option<real>, initialPlugins: seq<nat>)
      modifies if external.Some? then {external.value} else {}
      ensures Valid() && decoded.None? && plugins == initialPlugins
      ensures this.minPxPerSec == if minPxPerSec.Some? then minPxPerSec.value else DEFAULT_MIN_PX_PER_SEC
      ensures fresh(timer) && fresh(timer.bus)
      ensures events == (if player.IsPlaying() then [PlayEvent] else [])
      ensures timer.Running() <==> player.IsPlaying()
    {
      var p := new Player(external, false, false, None);
      var t := new Timer();
      player := p;
      timer := t;
      decoded := None;
      plugins := [];
      this.minPxPerSec := if minPxPerSec.Some? then minPxPerSec.value else DEFAULT_MIN_PX_PER_SEC;
      events := [];
      new;
      if player.IsPlaying() {
        events := events + [PlayEvent];
        var _ := timer.Start();
      }
      var i := 0;
      while i < |initialPlugins|
        invariant 0 <= i <= |initialPlugins|
        invariant Valid() && plugins == initialPlugins[..i] && decoded.None?
        invariant this.minPxPerSec == if minPxPerSec.Some? then minPxPerSec.value else DEFAULT_MIN_PX_PER_SEC
        invariant events == (if player.IsPlaying() then [PlayEvent] else [])
        invariant timer.Running() <==> player.IsPlaying()
      {
        RegisterPlugin(initialPlugins[i]);
        i := i + 1;
      }
    }

    function GetDuration(): (d: Num)
      reads this, player, player.media`duration
      ensures d == DurationFallback(player.media.duration,
        if decoded.Some? then Some(decoded.value.duration) else None)
    {
      DurationFallback(player.media.duration, if decoded.Some? then Some(decoded.value.duration) else None)
    }

    /** `registerPlugin(plugin)`: appends the plugin. */
    method RegisterPlugin(plugin: nat)
      modifies this`plugins
      ensures plugins == old(plugins) + [plugin]
    {
      plugins := plugins + [plugin];
    }

    /** The plugin fires "destroy": every occurrence of it leaves the list. */
    method PluginDestroyed(plugin: nat)
      modifies this`plugins
      ensures plugins == Removed(old(plugins), plugin)
    {
      plugins := Removed(plugins, plugin);
    }

    /** The part of `loadAudio(url, blob)` up to `setSrc`: emits "load",
        pauses an own playing element, drops the decoded data and sets the
        source; `blobUrl` is the object URL of the blob given or fetched. */
    method BeginLoad(url: string, blobUrl: Option<string>)
      requires Valid()
      modifies this`events, this`decoded, player`revoked, player.media
      ensures Valid() && decoded.None? && events == old(events) + [LoadEvent(url)]
      ensures !player.isExternalMedia ==> !player.IsPlaying()
      ensures old(player.GetSrc()) != url ==>
        && !player.IsPlaying() && player.media.currentTime == Finite(0.0) && GetDuration() == Finite(0.0)
        && player.media.src == (if blobUrl.Some? then blobUrl.value else url)
      ensures old(player.GetSrc()) == url && player.isExternalMedia ==>
        player.IsPlaying() == old(player.IsPlaying()) && player.media.currentTime == old(player.media.currentTime)
    {
      events := events + [LoadEvent(url)];
      if !player.isExternalMedia && player.IsPlaying() {
        player.Pause();
      }
      decoded := None;
      player.SetSrc(url, blobUrl);
    }

    /** The end of `loadAudio`: the decoded buffer, if decoding produced
        one, is kept and announced with "decode"; "ready" follows in every
        case, each with the duration then current. */
    method FinishLoad(b: Option<AudioBuffer>)
      modifies this`decoded, this`events
      ensures decoded == b
      ensures events == old(events) + (if b.Some? then [DecodeEvent(GetDuration())] else []) + [ReadyEvent(GetDuration())]
    {
      decoded := b;
      if b.Some? {
        events := events + [DecodeEvent(GetDuration())];
      }
      events := events + [ReadyEvent(GetDuration())];
    }

    /** `loadAudio(url, blob, channelData, duration)`, with the outcomes of
        the host's work as parameters: `blobUrl` is the object URL of the
        blob, `metadata` the duration the element's "loadedmetadata" would
        report and `b` the buffer decoding or `createBuffer` produces. The
        element is waited for only when neither `duration` nor
        `getDuration()` is truthy. For a new source the events are "load",
        "decode" when there is a buffer, and "ready", with the element's
        duration or, when that is 0 or unknown, the buffer's. */
    method LoadAudio(url: string, blobUrl: Option<string>, duration: Num, metadata: Num, b: Option<AudioBuffer>)
      requires Valid()
      modifies this`events, this`decoded, player`revoked, player.media
      ensures Valid() && decoded == b
      ensures old(player.GetSrc()) != url ==>
        var d := DurationFallback(if duration.Truthy() then NaN else metadata,
          if b.Some? then Some(b.value.duration) else None);
        && events == old(events) + [LoadEvent(url)] + (if b.Some? then [DecodeEvent(d)] else []) + [ReadyEvent(d)]
        && player.media.src == (if blobUrl.Some? then blobUrl.value else url)
        && !player.IsPlaying()
    {
      BeginLoad(url, blobUrl);
      if !duration.Truthy() && !GetDuration().Truthy() {
        player.media.LoadMetadata(metadata);
      }
      FinishLoad(b);
    }

    /** `zoom(minPxPerSec)`: throws before any audio is decoded. */
    method Zoom(px: real) returns (r: Result<(), string>)
      modifies this`minPxPerSec, this`events
      ensures decoded.None? ==>
        r == Failure(NOT_LOADED) && minPxPerSec == old(minPxPerSec) && events == old(events)
      ensures decoded.Some? ==> r.Success? && minPxPerSec == px && events == old(events) + [ZoomEvent(px)]
    {
      if decoded.None? {
        return Failure(NOT_LOADED);
      }
      minPxPerSec := px;
      events := events + [ZoomEvent(px)];
      r := Success(());
    }

    /** `seekTo(progress)`: sets the time to that fraction of the duration.
        The `currentTime` setter throws when the product is not finite, as
        with the infinite duration of a stream before any decoded data. */
    method SeekTo(progress: real) returns (r: Result<(), string>)
      requires Valid()
      modifies player.media`currentTime, player.media`ended
      ensures Valid()
      ensures !GetDuration().Finite? ==> r == Failure(NOT_FINITE) && unchanged(player.media)
      ensures GetDuration().Finite? ==>
        && r.Success?
        && player.media.currentTime == Finite(SeekPosition(GetDuration().value * progress, player.media.duration))
      ensures (GetDuration().Finite? && player.media.duration == GetDuration() && 0.0 < GetDuration().value
        && 0.0 <= progress <= 1.0) ==> player.media.currentTime == Finite(GetDuration().value * progress)
    {
      var d := GetDuration();
      if d.Finite? && 0.0 < d.value && 0.0 <= progress <= 1.0 {
        SeekInsideDuration(d.value, progress);
      }
      r := player.SetTime(Mul(d, progress));
    }

    /** `stop()`: pauses and rewinds to 0. */
    method Stop()
      requires Valid()
      modifies player.media`paused, player.media`currentTime, player.media`ended
      ensures Valid() && !player.IsPlaying() && player.media.currentTime == Finite(0.0)
    {
      player.Pause();
      var _ := player.SetTime(Finite(0.0));
    }

    /** `skip(seconds)`: sets the time to the current time plus `seconds`,
        which the element clamps to [0, duration] once the duration is
        known. */
    method Skip(seconds: real) returns (r: Result<(), string>)
      requires Valid()
      modifies player.media`currentTime, player.media`ended
      ensures Valid()
      ensures old(player.media.currentTime).Finite? ==>
        && r.Success?
        && player.media.currentTime == Finite(SeekPosition(old(player.media.currentTime).value + seconds, player.media.duration))
      ensures !old(player.media.currentTime).Finite? ==> r == Failure(NOT_FINITE) && unchanged(player.media)
    {
      r := player.SetTime(Add(player.media.currentTime, seconds));
    }

    /** The media element fires "play": the engine emits "play" and starts the timer. */
    method OnMediaPlay()
      requires Valid()
      modifies this`events, timer, timer.bus
      ensures Valid() && timer.Running() && events == old(events) + [PlayEvent]
    {
      events := events + [PlayEvent];
      var _ := timer.Start();
    }

    /** The media element fires "pause": the engine emits "pause" and stops the timer. */
    method OnMediaPause()
      requires Valid()
      modifies this`events, timer.bus
      ensures Valid() && events == old(events) + [PauseEvent]
      ensures timer.unsubscribe.Some? ==> timer.Ticking() == Without(old(timer.Ticking()), timer.unsubscribe.value)
    {
      events := events + [PauseEvent];
      timer.Stop();
    }

    /** `exportPeaks({channels, maxLength, precision})`: throws before decode;
        otherwise, for each of the first min(channels, numberOfChannels)
        channels, `maxLength` peaks of windows of round(length / maxLength)
        samples, each rounded to `precision`. */
    method ExportPeaks(channels: int, maxLength: int, precision: real) returns (r: Result<seq<seq<Num>>, string>)
      ensures decoded.None? ==> r == Failure(NOT_DECODED)
      ensures decoded.Some? ==> r.Success?
      ensures decoded.Some? ==> |r.value| == Max(Min(channels, decoded.value.NumberOfChannels()), 0)
      ensures decoded.Some? ==> forall c :: 0 <= c < |r.value| ==>
        r.value[c] == ChannelPeaks(decoded.value.channels[c][..], maxLength, precision)
    {
      if decoded.None? {
        return Failure(NOT_DECODED);
      }
      var chans := decoded.value.channels;
      var peaks := PeaksOf(chans, Max(Min(channels, |chans|), 0), maxLength, precision);
      r := Success(peaks);
    }

    /** `exportPeaks` over the first `count` channels: the outer loop. */
    static method PeaksOf(chans: seq<array<real>>, count: nat, maxLength: int, precision: real) returns (peaks: seq<seq<Num>>)
      requires count <= |chans|
      ensures |peaks| == count
      ensures forall c :: 0 <= c < count ==> peaks[c] == ChannelPeaks(chans[c][..], maxLength, precision)
    {
      ghost var contents := Samples(chans);
      peaks := [];
      var c := 0;
      while c < count
        invariant 0 <= c <= count
        invariant |peaks| == c
        invariant forall d :: 0 <= d < c ==> peaks[d] == ChannelPeaks(contents[d], maxLength, precision)
      {
        var data := ChannelPeaksOf(chans[c][..], maxLength, precision);
        PeaksSnoc(peaks, data, contents, maxLength, precision);
        peaks := peaks + [data];
        c := c + 1;
      }
      assert contents == Samples(chans);
    }

    /** `exportPeaks` on one channel's samples: the two inner loops. */
    static method ChannelPeaksOf(channel: seq<real>, maxLength: int, precision: real) returns (data: seq<Num>)
      ensures data == ChannelPeaks(channel, maxLength, precision)
    {
      data := [];
      if maxLength <= 0 {
        return;
      }
      var size := SampleSize(|channel|, maxLength);
      var i := 0;
      while i < maxLength
        invariant 0 <= i <= maxLength
        invariant data == PeaksUpTo(channel, i, size, precision)
      {
        var sample := Window(channel, i, size);
        var max := 0.0;
        var x := 0;
        while x < |sample|
          invariant 0 <= x <= |sample|
          invariant max == PeakOf(sample[..x])
        {
          assert sample[..x + 1][..x] == sample[..x];
          var n := sample[x];
          if Abs(n) > Abs(max) {
            max := n;
          }
          x := x + 1;
        }
        assert sample[..|sample|] == sample;
        data := data + [Quantize(max, precision)];
        i := i + 1;
      }
    }

    /** `destroy()`: every plugin is destroyed (and so leaves the list), the
        timer is stopped and the player destroyed. */
    method Destroy()
      requires Valid()
      modifies this`plugins, this`events, timer.bus, player`revoked, player.media
      ensures Valid() && plugins == [] && !player.IsPlaying()
      ensures events == old(events) + [DestroyEvent]
    {
      events := events + [DestroyEvent];
      var snapshot := plugins;
      var i := 0;
      while i < |snapshot|
        invariant 0 <= i <= |snapshot|
        invariant forall p :: p in plugins ==> p in snapshot[i..]
        invariant events == old(events) + [DestroyEvent]
        invariant Valid()
      {
        PluginDestroyed(snapshot[i]);
        i := i + 1;
      }
      assert snapshot[i..] == [];
      NothingLeft(plugins);
      timer.Destroy();
      player.Destroy();
    }
  }

  lemma NothingLeft(s: seq<nat>)
    ensures (forall x :: x !in s) ==> s == []
  {
    if s != [] {
      assert s[0] in s;
    }
  }

  /** `plugins.filter(p => p !== plugin)`. */
  function Removed(s: seq<nat>, x: nat): (r: seq<nat>)
    ensures forall y :: y in r <==> y in s && y != x
    ensures |r| <= |s|
    ensures x !in s ==> r == s
  {
    if s == [] then []
    else (if s[0] == x then [] else [s[0]]) + Removed(s[1..], x)
  }
}
