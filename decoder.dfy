/** `Decoder.normalize` and `Decoder.createBuffer`: turn pre-decoded channel
    data into an audio buffer, scaling it in place when the first channel
    leaves [-1, 1]. Channels are typed arrays: a write past the end of one is
    ignored. */
module Decoder {
  import opened JsNumber
  import opened Wrappers

  /** The largest magnitude in `s`, starting from 0 (the running maximum of
      `normalize`'s first loop). */
  function PeakMagnitude(s: seq<real>): (r: real)
    ensures r >= 0.0
    ensures s != [] ==> r >= Abs(s[|s| - 1])
  {
    if s == [] then 0.0
    else var m := PeakMagnitude(s[..|s| - 1]); if Abs(s[|s| - 1]) > m then Abs(s[|s| - 1]) else m
  }

  /** No sample exceeds the peak, and a positive peak is some sample's magnitude. */
  lemma {:induction false} PeakMagnitudeBounds(s: seq<real>)
    ensures PeakMagnitude(s) >= 0.0
    ensures forall k :: 0 <= k < |s| ==> Abs(s[k]) <= PeakMagnitude(s)
    ensures PeakMagnitude(s) > 0.0 ==> exists k :: 0 <= k < |s| && Abs(s[k]) == PeakMagnitude(s)
  {
    if s != [] {
      var init := s[..|s| - 1];
      PeakMagnitudeBounds(init);
      assert forall k :: 0 <= k < |init| ==> s[k] == init[k];
    }
  }

  /** Some sample lies outside [-1, 1]: the trigger of `normalize`. */
  predicate OutOfRange(s: seq<real>) {
    exists k :: 0 <= k < |s| && (s[k] > 1.0 || s[k] < -1.0)
  }

  /** When the first channel is out of range its peak exceeds 1, so dividing
      by it is safe and brings that channel inside [-1, 1]. */
  lemma PeakAboveOne(s: seq<real>)
    requires OutOfRange(s)
    ensures PeakMagnitude(s) > 1.0
    ensures forall k :: 0 <= k < |s| ==> -1.0 <= s[k] / PeakMagnitude(s) <= 1.0
  {
    PeakMagnitudeBounds(s);
    var p := PeakMagnitude(s);
    var k :| 0 <= k < |s| && (s[k] > 1.0 || s[k] < -1.0);
    assert Abs(s[k]) > 1.0;
    forall j | 0 <= j < |s| ensures -1.0 <= s[j] / p <= 1.0 {
      assert -p <= s[j] <= p;
      DivideWithin(s[j], p);
    }
  }

  lemma DivideWithin(x: real, p: real)
    requires p > 0.0 && -p <= x <= p
    ensures -1.0 <= x / p <= 1.0
  {
    assert x / p * p == x;
  }

  /** `s` with its first `n` samples divided by `k`. */
  function Scaled(s: seq<real>, n: int, k: real): (r: seq<real>)
    requires k != 0.0
    ensures |r| == |s|
    ensures forall i :: 0 <= i < |s| && i < n ==> r[i] * k == s[i]
    ensures forall i :: 0 <= i < |s| && n <= i ==> r[i] == s[i]
  {
    seq(|s|, i requires 0 <= i < |s| => if i < n then s[i] / k else s[i])
  }

  /** Pairwise distinct channel arrays. */
  predicate Unaliased(channels: seq<array<real>>) {
    forall i, j :: 0 <= i < j < |channels| ==> channels[i] != channels[j]
  }

  /** `normalize(channelData)`: when some first-channel sample lies outside
      [-1, 1], divides the first `length` samples of every channel by the first
      channel's peak magnitude, `length` being the first channel's length.
      With no channel at all the first channel is `undefined` and the call
      throws (`ok` is false). */
  method Normalize(channels: seq<array<real>>) returns (ok: bool)
    requires Unaliased(channels)
    modifies set c | c in channels
    ensures ok <==> |channels| > 0
    ensures ok ==> !OutOfRange(channels[0][..])
    ensures ok && OutOfRange(old(channels[0][..])) ==>
      var peak := PeakMagnitude(old(channels[0][..]));
      peak > 1.0 && forall c :: 0 <= c < |channels| ==>
        channels[c][..] == Scaled(old(channels[c][..]), channels[0].Length, peak)
    ensures !(ok && OutOfRange(old(channels[0][..]))) ==>
      forall c :: 0 <= c < |channels| ==> channels[c][..] == old(channels[c][..])
  {
    if |channels| == 0 {
      return false;
    }
    ok := true;
    var first := channels[0];
    if !OutOfRange(first[..]) {
      return;
    }
    var length := first.Length;
    var max := 0.0;
    var i := 0;
    while i < length
      invariant 0 <= i <= length
      invariant max == PeakMagnitude(first[..i])
    {
      assert first[..i + 1][..i] == first[..i];
      var absN := Abs(first[i]);
      if absN > max {
        max := absN;
      }
      i := i + 1;
    }
    assert first[..length] == first[..];
    PeakAboveOne(first[..]);
    var c := 0;
    while c < |channels|
      invariant 0 <= c <= |channels|
      invariant max == PeakMagnitude(old(first[..]))
      invariant forall d :: 0 <= d < c ==> channels[d][..] == Scaled(old(channels[d][..]), length, max)
      invariant forall d :: c <= d < |channels| ==> channels[d][..] == old(channels[d][..])
    {
      ScaleChannel(channels[c], length, max);
      c := c + 1;
    }
  }

  /** The inner loop of `normalize` over one channel; indices past the end of
      the channel are skipped, as a typed array ignores those writes. */
  method ScaleChannel(channel: array<real>, length: int, max: real)
    requires max != 0.0
    modifies channel
    ensures channel[..] == Scaled(old(channel[..]), length, max)
  {
    var i := 0;
    var bound := Min(Max(length, 0), channel.Length);
    while i < bound
      invariant 0 <= i <= bound
      invariant forall j :: 0 <= j < i ==> channel[j] == old(channel[j]) / max
      invariant forall j :: i <= j < channel.Length ==> channel[j] == old(channel[j])
    {
      channel[i] := channel[i] / max;
      i := i + 1;
    }
  }

  /** The two shapes `createBuffer` accepts: a flat array of samples, or an
      array of channels. */
  datatype ChannelInput = Flat(samples: array<real>) | Nested(channels: seq<array<real>>)

  /** The buffer object `createBuffer` returns. It shares the channel arrays. */
  datatype AudioBuffer = AudioBuffer(duration: real, length: nat, sampleRate: Num, channels: seq<array<real>>)
  {
    function NumberOfChannels(): nat {
      |channels|
    }
  }

  /** `createBuffer(channelData, duration)`: a flat array of numbers becomes
      one channel (an empty flat array has no number at index 0 and is taken
      as an empty list of channels, on which `normalize` throws); the data is
      normalized; the length is the first channel's length and the sample
      rate is length / duration. When the first channel was out of range,
      every channel's first `length` samples are divided by its peak;
      otherwise no sample changes. */
  method CreateBuffer(input: ChannelInput, duration: real) returns (r: Result<AudioBuffer, string>)
    requires input.Nested? ==> Unaliased(input.channels)
    modifies if input.Flat? then {input.samples} else set c | c in input.channels
    ensures input.Flat? && input.samples.Length > 0 ==> r.Success? && r.value.channels == [input.samples]
    ensures input.Flat? && input.samples.Length == 0 ==> r.Failure?
    ensures input.Nested? ==> (r.Success? <==> |input.channels| > 0)
    ensures input.Nested? && r.Success? ==> r.value.channels == input.channels
    ensures r.Success? ==>
      && r.value.duration == duration
      && |r.value.channels| > 0
      && r.value.length == r.value.channels[0].Length
      && r.value.sampleRate == Div(r.value.length as real, duration)
    ensures r.Success? ==> !OutOfRange(r.value.channels[0][..])
    ensures r.Success? && OutOfRange(old(r.value.channels[0][..])) ==>
      var peak := PeakMagnitude(old(r.value.channels[0][..]));
      peak > 1.0 && forall c :: 0 <= c < |r.value.channels| ==>
        r.value.channels[c][..] == Scaled(old(r.value.channels[c][..]), r.value.length, peak)
    ensures r.Success? && !OutOfRange(old(r.value.channels[0][..])) ==>
      forall c :: 0 <= c < |r.value.channels| ==> r.value.channels[c][..] == old(r.value.channels[c][..])
  {
    var channels: seq<array<real>>;
    if input.Flat? && input.samples.Length > 0 {
      channels := [input.samples];
    } else if input.Flat? {
      channels := [];
    } else {
      channels := input.channels;
    }
    var ok := Normalize(channels);
    if !ok {
      return Failure("TypeError: the first channel is undefined");
    }
    var length := channels[0].Length;
    r := Success(AudioBuffer(duration, length, Div(length as real, duration), channels));
  }

  /** `createBuffer([2, 1], d)` divides by the peak 2, giving `[1, 0.5]`;
      `createBuffer([0.5, 0.2], d)` leaves the samples as they are. */
  method CreateBufferExamples() returns (scaled: seq<real>, kept: seq<real>)
    ensures scaled == [1.0, 0.5] && kept == [0.5, 0.2]
  {
    var loud := new real[2];
    loud[0], loud[1] := 2.0, 1.0;
    assert loud[..] == [2.0, 1.0];
    assert loud[0] > 1.0;
    var r := CreateBuffer(Flat(loud), 1.0);
    assert PeakMagnitude([2.0, 1.0]) == 2.0 by {
      assert [2.0, 1.0][..1] == [2.0];
      assert [2.0][..0] == [];
    }
    scaled := loud[..];
    var quiet := new real[2];
    quiet[0], quiet[1] := 0.5, 0.2;
    assert quiet[..] == [0.5, 0.2];
    var r2 := CreateBuffer(Flat(quiet), 1.0);
    kept := quiet[..];
  }

  /** `getChannelData(i)`: the i-th channel, or `undefined` past the last. */
  function GetChannelData(b: AudioBuffer, i: int): (c: Option<array<real>>)
    ensures 0 <= i < b.NumberOfChannels() ==> c == Some(b.channels[i])
    ensures !(0 <= i < b.NumberOfChannels()) ==> c.None?
  {
    if 0 <= i < |b.channels| then Some(b.channels[i]) else None
  }
}
