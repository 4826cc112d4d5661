/** `WebAudioPlayer`: a Web Audio buffer player that emulates an HTML media
    element. The audio context's clock is the parameter `now` of every
    operation that reads it; the buffer source node is reduced to what the
    player observes of it (its playback rate, start offset and scheduled
    stop). Events the player emits are recorded in order in `events`. */
module WebAudio {
  import opened Wrappers

  datatype MediaEvent = PlayEvent | PauseEvent | Seeking | TimeUpdate | Ended | VolumeChange | LoadedMetadata | CanPlay

  /** A decoded `AudioBuffer`: its duration in seconds and its channel data. */
  datatype AudioData = AudioData(duration: real, channels: seq<seq<real>>)

  /** An `AudioBufferSourceNode`: its playback rate, the offset into the
      buffer it started at, its stop time once `stop` is called, the number
      of one-shot "ended" listeners `stopAt` attached to it, whether it is
      still connected to the gain node, and whether it has fired "ended". */
  datatype SourceNode = SourceNode(rate: real, offset: real, stopTime: Option<real>, listeners: nat, connected: bool, ended: bool)

  /** A node that is connected and has neither ended nor been told to stop:
      it plays on to the end of the buffer. */
  predicate Unstopped(n: SourceNode) {
    n.connected && !n.ended && n.stopTime.None?
  }

  /** The nodes with the one at `i`, if any, stopped at clock time `t`. */
  function WithStop(ns: seq<SourceNode>, i: Option<nat>, t: real): (r: seq<SourceNode>)
    ensures |r| == |ns|
    ensures forall k :: 0 <= k < |ns| ==> r[k] == if i == Some(k) then ns[k].(stopTime := Some(t)) else ns[k]
  {
    if i.Some? && i.value < |ns| then ns[i.value := ns[i.value].(stopTime := Some(t))] else ns
  }

  /** The nodes with the one at `i`, if any, disconnected from the gain node. */
  function Disconnected(ns: seq<SourceNode>, i: Option<nat>): (r: seq<SourceNode>)
    ensures |r| == |ns|
    ensures forall k :: 0 <= k < |ns| ==> r[k] == if i == Some(k) then ns[k].(connected := false) else ns[k]
  {
    if i.Some? && i.value < |ns| then ns[i.value := ns[i.value].(connected := false)] else ns
  }

  /** Node `k` after its "ended" has fired: its listeners are spent. */
  function Marked(ns: seq<SourceNode>, k: nat): (r: seq<SourceNode>)
    requires k < |ns|
    ensures |r| == |ns| && r[k].ended && r[k].listeners == 0
    ensures forall j :: 0 <= j < |ns| && j != k ==> r[j] == ns[j]
    ensures r[k] == ns[k].(listeners := 0, ended := true)
  {
    ns[k := ns[k].(listeners := 0, ended := true)]
  }

  /** `n` "pause" events. */
  function Pauses(n: nat): (r: seq<MediaEvent>)
    ensures |r| == n && forall k :: 0 <= k < n ==> r[k] == PauseEvent
  {
    if n == 0 then [] else Pauses(n - 1) + [PauseEvent]
  }

  class WebAudioPlayer {
    var paused: bool
    var playedDuration: real
    var playStartTime: real
    var muted: bool
    /** Whether the gain node is connected to the context's destination. */
    var gainConnected: bool
    var volume: real
    var buffer: Option<AudioData>
    /** Every source node `_play` has created, oldest first; a replaced node
        is only disconnected, and its "ended" may still arrive. */
    var nodes: seq<SourceNode>
    /** `bufferNode`: the index of the current node in `nodes`, or `null`. */
    var node: Option<nat>
    var autoplay: bool
    var currentSrc: string
    var events: seq<MediaEvent>

    /** The gain node is connected exactly while the player is not muted,
        and `bufferNode` is one of the created nodes. */
    ghost predicate Valid()
      reads this
    {
      gainConnected == !muted && (node.Some? ==> node.value < |nodes|)
    }

    /** The player keeps track of what sounds: a node that plays on is the
        current node, and the player is playing. */
    ghost predicate Quiet()
      reads this
    {
      forall j :: 0 <= j < |nodes| && Unstopped(nodes[j]) ==> node == Some(j) && !paused
    }

    constructor()
      ensures Valid() && Quiet() && paused && playedDuration == 0.0 && playStartTime == 0.0
      ensures !muted && volume == 1.0 && buffer.None? && nodes == [] && node.None?
      ensures !autoplay && currentSrc == "" && events == []
    {
      paused := true;
      playedDuration := 0.0;
      playStartTime := 0.0;
      muted := false;
      gainConnected := true;
      volume := 1.0;
      buffer := None;
      nodes := [];
      node := None;
      autoplay := false;
      currentSrc := "";
      events := [];
    }

    /** `duration`: the buffer's duration, or 0 before a buffer is decoded. */
    function Duration(): (d: real)
      reads this
      ensures buffer.None? ==> d == 0.0
      ensures buffer.Some? ==> d == buffer.value.duration
    {
      if buffer.Some? then buffer.value.duration else 0.0
    }

    /** `currentTime` at clock reading `now`: frozen while paused, advancing
        with the clock while playing. */
    function CurrentTime(now: real): (t: real)
      reads this
      ensures paused ==> t == playedDuration
      ensures !paused ==> t - playedDuration == now - playStartTime
    {
      if paused then playedDuration else playedDuration + now - playStartTime
    }

    /** `playbackRate`: the current node's rate, or 1 without a node. */
    function PlaybackRate(): (r: real)
      requires Valid()
      reads this
      ensures node.None? ==> r == 1.0
      ensures node.Some? ==> r == nodes[node.value].rate
    {
      if node.Some? then nodes[node.value].rate else 1.0
    }

    /** `_play`: a no-op unless paused; otherwise disconnects the current
        node and starts a new one at rate 1, from 0 when at or past the end. */
    method PlayInternal(now: real)
      requires Valid()
      modifies this
      ensures Valid() && !paused
      ensures muted == old(muted) && volume == old(volume) && buffer == old(buffer)
      ensures autoplay == old(autoplay) && currentSrc == old(currentSrc) && events == old(events)
      ensures !old(paused) ==>
        && playedDuration == old(playedDuration) && playStartTime == old(playStartTime)
        && node == old(node) && nodes == old(nodes)
      ensures old(paused) ==>
        && playStartTime == now
        && playedDuration == (if old(playedDuration) >= Duration() then 0.0 else old(playedDuration))
        && nodes == Disconnected(old(nodes), old(node)) + [SourceNode(1.0, playedDuration, None, 0, true, false)]
        && node == Some(|nodes| - 1)
      ensures CurrentTime(now) ==
        if old(paused) && old(playedDuration) >= Duration() then 0.0 else old(CurrentTime(now))
      ensures old(Quiet()) ==> Quiet()
    {
      if !paused {
        return;
      }
      paused := false;
      nodes := Disconnected(nodes, node);
      if playedDuration >= Duration() {
        playedDuration := 0.0;
      }
      nodes := nodes + [SourceNode(1.0, playedDuration, None, 0, true, false)];
      node := Some(|nodes| - 1);
      playStartTime := now;
    }

    /** `_pause`: a no-op when paused; otherwise stops the current node and
        folds the elapsed time into `playedDuration`, so the reading is kept
        and then stays fixed whatever the clock does. */
    method PauseInternal(now: real)
      requires Valid()
      modifies this
      ensures Valid() && paused && node == old(node)
      ensures muted == old(muted) && volume == old(volume) && buffer == old(buffer)
      ensures autoplay == old(autoplay) && currentSrc == old(currentSrc) && events == old(events)
      ensures playStartTime == old(playStartTime)
      ensures old(paused) ==> playedDuration == old(playedDuration) && nodes == old(nodes)
      ensures !old(paused) ==>
        playedDuration == old(playedDuration) + now - old(playStartTime) && nodes == WithStop(old(nodes), old(node), now)
      ensures forall later :: CurrentTime(later) == old(CurrentTime(now))
      ensures old(Quiet()) ==> Quiet()
    {
      if paused {
        return;
      }
      paused := true;
      nodes := WithStop(nodes, node, now);
      playedDuration := playedDuration + now - playStartTime;
    }

    /** `play()`: `_play`, then "play". */
    method Play(now: real)
      requires Valid()
      modifies this
      ensures Valid() && !paused && events == old(events) + [PlayEvent]
      ensures muted == old(muted) && volume == old(volume) && buffer == old(buffer)
      ensures autoplay == old(autoplay) && currentSrc == old(currentSrc)
      ensures CurrentTime(now) ==
        if old(paused) && old(playedDuration) >= Duration() then 0.0 else old(CurrentTime(now))
      ensures old(paused) ==>
        && PlaybackRate() == 1.0 && playStartTime == now
        && nodes == Disconnected(old(nodes), old(node))
             + [SourceNode(1.0, if old(playedDuration) >= Duration() then 0.0 else old(playedDuration), None, 0, true, false)]
        && node == Some(|nodes| - 1)
      ensures !old(paused) ==>
        && playedDuration == old(playedDuration) && playStartTime == old(playStartTime)
        && node == old(node) && nodes == old(nodes)
      ensures old(Quiet()) ==> Quiet()
    {
      PlayInternal(now);
      events := events + [PlayEvent];
    }

    /** `pause()`: `_pause`, then "pause" (emitted even when already paused). */
    method Pause(now: real)
      requires Valid()
      modifies this
      ensures Valid() && paused && events == old(events) + [PauseEvent]
      ensures muted == old(muted) && volume == old(volume) && buffer == old(buffer)
      ensures autoplay == old(autoplay) && currentSrc == old(currentSrc)
      ensures playedDuration == old(CurrentTime(now)) && node == old(node)
      ensures nodes == if old(paused) then old(nodes) else WithStop(old(nodes), old(node), now)
      ensures forall later :: CurrentTime(later) == old(CurrentTime(now))
      ensures old(Quiet()) ==> Quiet()
    {
      PauseInternal(now);
      events := events + [PauseEvent];
    }

    /** The `currentTime` setter: "seeking", then the new position (pausing
        and replaying around it while playing, which stops the current node
        and starts a new one), then "timeupdate". The paused/playing state is
        kept; while playing a position at or past the end restarts from 0. */
    method SetCurrentTime(v: real, now: real)
      requires Valid()
      modifies this
      ensures Valid() && paused == old(paused)
      ensures events == old(events) + [Seeking, TimeUpdate]
      ensures muted == old(muted) && volume == old(volume) && buffer == old(buffer)
      ensures autoplay == old(autoplay) && currentSrc == old(currentSrc)
      ensures CurrentTime(now) == if old(paused) || v < Duration() then v else 0.0
      ensures old(paused) ==> forall later :: CurrentTime(later) == v
      ensures old(paused) ==> nodes == old(nodes) && node == old(node)
      ensures !old(paused) ==>
        && nodes == Disconnected(WithStop(old(nodes), old(node), now), old(node))
             + [SourceNode(1.0, if v < Duration() then v else 0.0, None, 0, true, false)]
        && node == Some(|nodes| - 1)
      ensures old(Quiet()) ==> Quiet()
    {
      events := events + [Seeking];
      if paused {
        playedDuration := v;
      } else {
        PauseInternal(now);
        playedDuration := v;
        PlayInternal(now);
      }
      events := events + [TimeUpdate];
    }

    /** The `volume` setter: sets the gain, unclamped, and emits "volumechange". */
    method SetVolume(v: real)
      requires Valid()
      modifies this`volume, this`events
      ensures Valid() && volume == v && events == old(events) + [VolumeChange]
    {
      volume := v;
      events := events + [VolumeChange];
    }

    /** The `muted` setter: a change disconnects or reconnects the gain node;
        setting the current value does nothing. */
    method SetMuted(m: bool)
      requires Valid()
      modifies this`muted, this`gainConnected
      ensures Valid() && muted == m && gainConnected == !m
      ensures old(muted) == m ==> gainConnected == old(gainConnected)
    {
      if muted == m {
        return;
      }
      muted := m;
      gainConnected := !muted;
    }

    /** The `playbackRate` setter: applies only to an existing current node. */
    method SetPlaybackRate(r: real)
      requires Valid()
      modifies this`nodes
      ensures Valid()
      ensures old(node).None? ==> nodes == old(nodes) && PlaybackRate() == 1.0
      ensures old(node).Some? ==>
        nodes == old(nodes)[old(node).value := old(nodes)[old(node).value].(rate := r)] && PlaybackRate() == r
      ensures old(Quiet()) ==> Quiet()
    {
      if node.Some? {
        nodes := nodes[node.value := nodes[node.value].(rate := r)];
      }
    }

    /** The `src` setter: records the URL; the fetch and decode that follow
        complete later, in `BufferDecoded`. */
    method SetSrc(url: string)
      requires Valid()
      modifies this`currentSrc
      ensures Valid() && currentSrc == url
    {
      currentSrc := url;
    }

    method SetAutoplay(on: bool)
      requires Valid()
      modifies this`autoplay
      ensures Valid() && autoplay == on
    {
      autoplay := on;
    }

    /** The decode of a `src` completes: the buffer is kept, "loadedmetadata"
        and "canplay" are emitted, and playback starts when autoplaying. */
    method BufferDecoded(data: AudioData, now: real)
      requires Valid()
      modifies this
      ensures Valid() && buffer == Some(data) && Duration() == data.duration
      ensures !old(autoplay) ==> events == old(events) + [LoadedMetadata, CanPlay]
      ensures !old(autoplay) ==>
        && paused == old(paused) && playedDuration == old(playedDuration) && playStartTime == old(playStartTime)
        && nodes == old(nodes) && node == old(node)
      ensures old(autoplay) ==> events == old(events) + [LoadedMetadata, CanPlay, PlayEvent] && !paused
      ensures old(Quiet()) ==> Quiet()
    {
      buffer := Some(data);
      events := events + [LoadedMetadata, CanPlay];
      if autoplay {
        Play(now);
      }
    }

    /** `stopAt(t)`: schedules the current node to stop when the position
        reaches `t`, and attaches one more one-shot "ended" listener to that
        node. */
    method StopAt(t: real, now: real)
      requires Valid()
      modifies this`nodes
      ensures Valid()
      ensures old(node).None? ==> nodes == old(nodes)
      ensures old(node).Some? ==>
        var i := old(node).value;
        nodes == old(nodes)[i := old(nodes)[i].(stopTime := Some(now + (t - CurrentTime(now))), listeners := old(nodes)[i].listeners + 1)]
      ensures !paused && node.Some? ==> nodes[node.value].stopTime.value - playStartTime == t - playedDuration
      ensures old(Quiet()) ==> Quiet()
    {
      var delay := t - CurrentTime(now);
      if node.Some? {
        var i := node.value;
        nodes := nodes[i := nodes[i].(stopTime := Some(now + delay), listeners := nodes[i].listeners + 1)];
      }
    }

    /** The `onended` handler `_play` sets on each node: when the player's
        position is at or past the end it pauses and emits "ended". */
    method OnEnded(now: real)
      requires Valid()
      modifies this
      ensures Valid() && node == old(node)
      ensures muted == old(muted) && volume == old(volume) && buffer == old(buffer)
      ensures autoplay == old(autoplay) && currentSrc == old(currentSrc)
      ensures var atEnd := old(CurrentTime(now)) >= Duration();
        && paused == (old(paused) || atEnd)
        && events == old(events) + (if atEnd then [PauseEvent, Ended] else [])
        && nodes == (if atEnd && !old(paused) then WithStop(old(nodes), old(node), now) else old(nodes))
      ensures old(Quiet()) ==> Quiet()
    {
      if CurrentTime(now) >= Duration() {
        Pause(now);
        events := events + [Ended];
      }
    }

    /** Node `k` fires "ended", once: `OnEnded` runs first, then each
        listener `stopAt` attached to the node sets `bufferNode` to `null`
        and pauses, whichever node is current by then. */
    method NodeEnded(k: nat, now: real)
      requires Valid() && k < |nodes| && !nodes[k].ended
      modifies this
      ensures Valid()
      ensures muted == old(muted) && volume == old(volume) && buffer == old(buffer)
      ensures autoplay == old(autoplay) && currentSrc == old(currentSrc)
      ensures var n := old(nodes[k].listeners);
        var atEnd := old(CurrentTime(now)) >= Duration();
        && paused == (old(paused) || atEnd || n > 0)
        && node == (if n > 0 then None else old(node))
        && events == old(events) + (if atEnd then [PauseEvent, Ended] else []) + Pauses(n)
        && nodes == (if atEnd && !old(paused) then WithStop(Marked(old(nodes), k), old(node), now)
                     else Marked(old(nodes), k))
    {
      var n := nodes[k].listeners;
      nodes := Marked(nodes, k);
      OnEnded(now);
      ghost var nodesBefore, nodeBefore, pausedBefore, eventsBefore := nodes, node, paused, events;
      var i := 0;
      while i < n
        invariant 0 <= i <= n && Valid()
        invariant muted == old(muted) && volume == old(volume) && buffer == old(buffer)
        invariant autoplay == old(autoplay) && currentSrc == old(currentSrc)
        invariant nodes == nodesBefore && events == eventsBefore + Pauses(i)
        invariant i == 0 ==> node == nodeBefore && paused == pausedBefore
        invariant i > 0 ==> node.None? && paused
      {
        node := None;
        Pause(now);
        i := i + 1;
      }
    }

    /** `NodeEnded` with each `stopAt` listener acting only while its node is
        still `bufferNode`: an "ended" from a node that `_play` has replaced
        leaves the current node and the playing state alone. */
    method NodeEndedGuarded(k: nat, now: real)
      requires Valid() && k < |nodes| && !nodes[k].ended
      modifies this
      ensures Valid()
      ensures muted == old(muted) && volume == old(volume) && buffer == old(buffer)
      ensures autoplay == old(autoplay) && currentSrc == old(currentSrc)
      ensures var n := old(nodes[k].listeners);
        var atEnd := old(CurrentTime(now)) >= Duration();
        var own := n > 0 && old(node) == Some(k);
        && paused == (old(paused) || atEnd || own)
        && node == (if own then None else old(node))
        && events == old(events) + (if atEnd then [PauseEvent, Ended] else []) + (if own then [PauseEvent] else [])
        && nodes == (if atEnd && !old(paused) then WithStop(Marked(old(nodes), k), old(node), now)
                     else Marked(old(nodes), k))
      ensures old(Quiet()) ==> Quiet()
    {
      var n := nodes[k].listeners;
      nodes := Marked(nodes, k);
      OnEnded(now);
      ghost var nodesBefore, nodeBefore, pausedBefore, eventsBefore := nodes, node, paused, events;
      var i := 0;
      while i < n
        invariant 0 <= i <= n && Valid()
        invariant muted == old(muted) && volume == old(volume) && buffer == old(buffer)
        invariant autoplay == old(autoplay) && currentSrc == old(currentSrc)
        invariant nodes == nodesBefore
        invariant i == 0 ==> node == nodeBefore && paused == pausedBefore && events == eventsBefore
        invariant i > 0 ==>
          && node == (if nodeBefore == Some(k) then None else nodeBefore)
          && paused == (pausedBefore || nodeBefore == Some(k))
          && events == eventsBefore + (if nodeBefore == Some(k) then [PauseEvent] else [])
      {
        if node == Some(k) {
          node := None;
          Pause(now);
        }
        i := i + 1;
      }
    }

    /** `getChannelData()`: every channel of the decoded buffer, or none. */
    method GetChannelData() returns (channels: seq<seq<real>>)
      ensures buffer.None? ==> channels == []
      ensures buffer.Some? ==> channels == buffer.value.channels
    {
      channels := [];
      if buffer.None? {
        return;
      }
      var data := buffer.value.channels;
      var i := 0;
      while i < |data|
        invariant 0 <= i <= |data|
        invariant channels == data[..i]
      {
        channels := channels + [data[i]];
        i := i + 1;
      }
    }
  }

  /** Pausing right after playing, at the same clock reading, keeps the
      position, unless playback had to restart from the end. */
  method PlayPauseKeepsPosition(p: WebAudioPlayer, now: real)
    requires p.Valid() && p.paused && p.playedDuration < p.Duration()
    modifies p
    ensures p.Valid() && p.paused && p.CurrentTime(now) == old(p.CurrentTime(now))
  {
    p.PlayInternal(now);
    p.PauseInternal(now);
  }

  /** As written: a 10 s buffer plays from 0, `stopAt(5)` is called at
      clock 1 and the position is set to 2 at once, which replaces the node.
      When the first node's "ended" arrives, its `stopAt` listener drops the
      new node and pauses: the player reports paused while that node plays
      on, and no longer holds it to stop it. */
  method StaleStopAtListener() returns (p: WebAudioPlayer)
    ensures p.Valid() && p.paused && p.node.None? && |p.nodes| == 2
    ensures Unstopped(p.nodes[1]) && !p.Quiet()
  {
    p := new WebAudioPlayer();
    p.BufferDecoded(AudioData(10.0, []), 0.0);
    p.Play(0.0);
    p.StopAt(5.0, 1.0);
    p.SetCurrentTime(2.0, 1.0);
    p.NodeEnded(0, 1.0);
  }

  /** The same steps with the guarded listener: the player keeps playing
      the new node and still tracks everything that sounds. */
  method GuardedStopAtListener() returns (p: WebAudioPlayer)
    ensures p.Valid() && p.Quiet() && !p.paused && p.node == Some(1) && Unstopped(p.nodes[1])
  {
    p := new WebAudioPlayer();
    p.BufferDecoded(AudioData(10.0, []), 0.0);
    p.Play(0.0);
    p.StopAt(5.0, 1.0);
    p.SetCurrentTime(2.0, 1.0);
    p.NodeEndedGuarded(0, 1.0);
  }
}
