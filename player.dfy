/** `Player`: the engine's bookkeeping around an HTML media element. The
    element is a separate object with the attributes the player reads and
    writes; object URLs are made by the host, and the player's calls to
    `URL.revokeObjectURL` are recorded in `revoked`. */
module MediaPlayer {
  import opened JsNumber
  import opened Wrappers

  const BLOB_SCHEME := "blob:"
  /** The element's `defaultPlaybackRate`, which the player never changes. */
  const DEFAULT_PLAYBACK_RATE := 1.0
  /** The `TypeError` of assigning a non-finite number to `currentTime`. */
  const NOT_FINITE := "TypeError: The provided double value is non-finite."

  predicate StartsWith(s: string, prefix: string) {
    |prefix| <= |s| && s[..|prefix|] == prefix
  }

  /** The attributes of an `HTMLMediaElement` that the player touches. */
  class MediaElement {
    var src: string
    var currentSrc: string
    var paused: bool
    var ended: bool
    var currentTime: Num
    var duration: Num
    var volume: real
    var muted: bool
    var playbackRate: real
    var preservesPitch: Option<bool>
    var controls: bool
    var autoplay: bool
    /** Whether the element has been removed from the document. */
    var removed: bool
    /** Runs of the load algorithm: calls of `load()` and assignments of
        `src`. */
    var loads: nat

    /** A new `<audio>` element: no source, paused, duration unknown. */
    constructor()
      ensures src == "" && currentSrc == "" && paused && !ended
      ensures currentTime == Finite(0.0) && duration.NaN?
      ensures volume == 1.0 && !muted && playbackRate == 1.0 && preservesPitch.None?
      ensures !controls && !autoplay && !removed && loads == 0
    {
      src := "";
      currentSrc := "";
      paused := true;
      ended := false;
      currentTime := Finite(0.0);
      duration := NaN;
      volume := 1.0;
      muted := false;
      playbackRate := 1.0;
      preservesPitch := None;
      controls := false;
      autoplay := false;
      removed := false;
      loads := 0;
    }

    /** The media element load algorithm, run by `load()` and by every
        assignment of `src`: playback stops, the position returns to 0, the
        duration becomes unknown and the rate returns to the default rate.
        The new resource is selected later (`SelectResource`), so
        `currentSrc` is not changed here. */
    method Load()
      modifies this`paused, this`ended, this`currentTime, this`duration, this`playbackRate, this`loads
      ensures paused && !ended && currentTime == Finite(0.0) && duration.NaN?
      ensures playbackRate == DEFAULT_PLAYBACK_RATE && loads == old(loads) + 1
    {
      paused := true;
      ended := false;
      currentTime := Finite(0.0);
      duration := NaN;
      playbackRate := DEFAULT_PLAYBACK_RATE;
      loads := loads + 1;
    }

    /** Assigning `src`: the attribute changes and the load algorithm runs. */
    method AssignSrc(url: string)
      modifies this`src, this`paused, this`ended, this`currentTime, this`duration, this`playbackRate, this`loads
      ensures src == url && paused && !ended && currentTime == Finite(0.0) && duration.NaN?
      ensures playbackRate == DEFAULT_PLAYBACK_RATE && loads == old(loads) + 1
    {
      src := url;
      Load();
    }

    /** Assigning a finite `currentTime`: the element seeks to
        `SeekPosition`, and is ended exactly when that is the end. */
    method Seek(t: real)
      modifies this`currentTime, this`ended
      ensures currentTime == Finite(SeekPosition(t, duration))
      ensures ended <==> duration.Finite? && SeekPosition(t, duration) == duration.value
    {
      var p := SeekPosition(t, duration);
      currentTime := Finite(p);
      ended := duration.Finite? && p == duration.value;
    }

    /** The element's resource selection picks the assigned `src`. */
    method SelectResource()
      modifies this`currentSrc
      ensures currentSrc == src
    {
      currentSrc := src;
    }

    /** Metadata arrives with the duration. */
    method LoadMetadata(d: Num)
      modifies this`duration
      ensures duration == d
    {
      duration := d;
    }

    /** Playback reaches the end: the element is ended and paused. */
    method ReachEnd()
      modifies this`ended, this`paused
      ensures ended && paused
    {
      ended := true;
      paused := true;
    }
  }

  /** Where an assignment of the finite time `t` to `currentTime` lands.
      Before the metadata is known (duration NaN) the element keeps `t` as
      its default playback start position and reports it; afterwards the
      seek clamps `t` to the earliest position 0 and, for a finite duration,
      to the end. */
  function SeekPosition(t: real, duration: Num): (p: real)
    ensures duration.NaN? ==> p == t
    ensures !duration.NaN? ==> 0.0 <= p && (0.0 <= t ==> p <= t)
    ensures duration.Finite? && 0.0 <= duration.value ==> p <= duration.value
    ensures !duration.NaN? && 0.0 <= t && (duration.Finite? ==> t <= duration.value) ==> p == t
  {
    if duration.NaN? then t
    else
      var capped := if duration.Finite? && duration.value < t then duration.value else t;
      if capped < 0.0 then 0.0 else capped
  }

  class Player {
    const media: MediaElement
    const isExternalMedia: bool
    /** Object URLs passed to `URL.revokeObjectURL`, in order. */
    var revoked: seq<string>
    /** The playback rate to apply at the next "canplay", once. */
    var pendingRate: Option<real>

    /** Only `blob:` URLs are ever revoked. */
    ghost predicate Valid()
      reads this
    {
      forall u :: u in revoked ==> StartsWith(u, BLOB_SCHEME)
    }

    /** `new Player(options)`: adopts the given media element, or creates an
        `<audio>` element; sets controls and autoplay when asked; a given
        playback rate waits for "canplay". */
    constructor(external: Option<MediaElement>, mediaControls: bool, autoplay: bool, playbackRate: Option<real>)
      modifies if external.Some? then {external.value} else {}
      ensures Valid() && revoked == [] && pendingRate == playbackRate
      ensures isExternalMedia == external.Some?
      ensures external.Some? ==> media == external.value
      ensures external.None? ==> fresh(media) && media.src == "" && media.paused
      ensures mediaControls ==> media.controls
      ensures autoplay ==> media.autoplay
    {
      var m: MediaElement;
      if external.Some? {
        m := external.value;
      } else {
        m := new MediaElement();
      }
      if mediaControls {
        m.controls := true;
      }
      if autoplay {
        m.autoplay := true;
      }
      media := m;
      isExternalMedia := external.Some?;
      revoked := [];
      pendingRate := playbackRate;
    }

    /** `getSrc()`: the element's current source, else its `src`, else "". */
    function GetSrc(): (s: string)
      reads this, media
      ensures media.currentSrc != "" ==> s == media.currentSrc
      ensures media.currentSrc == "" ==> s == media.src
    {
      if media.currentSrc != "" then media.currentSrc else media.src
    }

    /** `isPlaying()`: neither paused nor at the end. */
    predicate IsPlaying(): (b: bool)
      reads this, media
      ensures media.paused || media.ended ==> !b
      ensures !media.paused && !media.ended ==> b
    {
      !media.paused && !media.ended
    }

    /** `revokeSrc()`: revokes the current source when it is a `blob:` URL. */
    method RevokeSrc()
      requires Valid()
      modifies this`revoked
      ensures Valid()
      ensures StartsWith(GetSrc(), BLOB_SCHEME) ==> revoked == old(revoked) + [GetSrc()]
      ensures !StartsWith(GetSrc(), BLOB_SCHEME) ==> revoked == old(revoked)
    {
      var s := GetSrc();
      if StartsWith(s, BLOB_SCHEME) {
        revoked := revoked + [s];
      }
    }

    /** `setSrc(url, blob)`: nothing when the source is already `url`;
        otherwise revokes a `blob:` source and assigns the blob's object
        URL, or else `url`; the assignment runs the element's load
        algorithm. */
    method SetSrc(url: string, blobUrl: Option<string>)
      requires Valid()
      modifies this`revoked, media
      ensures Valid()
      ensures old(GetSrc()) == url ==> revoked == old(revoked) && unchanged(media)
      ensures old(GetSrc()) != url ==>
        && media.src == (if blobUrl.Some? then blobUrl.value else url)
        && revoked == old(revoked) + (if StartsWith(old(GetSrc()), BLOB_SCHEME) then [old(GetSrc())] else [])
        && media.paused && !media.ended && media.currentTime == Finite(0.0) && media.duration.NaN?
        && media.playbackRate == DEFAULT_PLAYBACK_RATE && media.loads == old(media.loads) + 1
      ensures media.currentSrc == old(media.currentSrc) && media.removed == old(media.removed)
      ensures media.volume == old(media.volume) && media.muted == old(media.muted)
    {
      if GetSrc() == url {
        return;
      }
      RevokeSrc();
      media.AssignSrc(if blobUrl.Some? then blobUrl.value else url);
    }

    /** `destroy()`: pauses; an external element is left as it is otherwise,
        an own element is removed, its `blob:` source revoked, and its `src`
        cleared, which runs the load algorithm, and then `load()` runs it
        again. */
    method Destroy()
      requires Valid()
      modifies this`revoked, media
      ensures Valid() && media.paused && !IsPlaying()
      ensures isExternalMedia ==>
        && revoked == old(revoked) && media.src == old(media.src) && media.removed == old(media.removed)
        && media.loads == old(media.loads) && media.currentTime == old(media.currentTime)
      ensures !isExternalMedia ==>
        && media.removed && media.src == "" && media.loads == old(media.loads) + 2
        && revoked == old(revoked) + (if StartsWith(old(GetSrc()), BLOB_SCHEME) then [old(GetSrc())] else [])
        && media.currentTime == Finite(0.0) && media.duration.NaN? && media.playbackRate == DEFAULT_PLAYBACK_RATE
      ensures media.currentSrc == old(media.currentSrc)
      ensures media.volume == old(media.volume) && media.muted == old(media.muted)
    {
      media.paused := true;
      if isExternalMedia {
        return;
      }
      media.removed := true;
      RevokeSrc();
      media.AssignSrc("");
      media.Load();
    }

    /** `play()`: the element plays; an ended element starts over from 0. */
    method Play()
      requires Valid()
      modifies media`paused, media`ended, media`currentTime
      ensures Valid() && IsPlaying()
      ensures old(media.ended) ==> media.currentTime == Finite(0.0)
      ensures !old(media.ended) ==> media.currentTime == old(media.currentTime)
    {
      if media.ended {
        media.ended := false;
        media.currentTime := Finite(0.0);
      }
      media.paused := false;
    }

    /** `pause()`. */
    method Pause()
      requires Valid()
      modifies media`paused
      ensures Valid() && media.paused && !IsPlaying()
    {
      media.paused := true;
    }

    /** `setTime(t)`: assigns the element's `currentTime`, whose setter
        takes a finite number only; a finite time seeks to `SeekPosition`. */
    method SetTime(t: Num) returns (r: Result<(), string>)
      modifies media`currentTime, media`ended
      ensures !t.Finite? ==> r == Failure(NOT_FINITE) && unchanged(media)
      ensures t.Finite? ==> r.Success? && media.currentTime == Finite(SeekPosition(t.value, media.duration))
      ensures t.Finite? ==> (media.ended <==> media.duration.Finite? && media.currentTime.value == media.duration.value)
    {
      if !t.Finite? {
        return Failure(NOT_FINITE);
      }
      media.Seek(t.value);
      r := Success(());
    }

    /** `setPlaybackRate(rate, preservePitch)`: the pitch flag is written only
        when given. */
    method SetPlaybackRate(rate: real, preservePitch: Option<bool>)
      modifies media`playbackRate, media`preservesPitch
      ensures media.playbackRate == rate
      ensures preservePitch.Some? ==> media.preservesPitch == preservePitch
      ensures preservePitch.None? ==> media.preservesPitch == old(media.preservesPitch)
    {
      if preservePitch.Some? {
        media.preservesPitch := preservePitch;
      }
      media.playbackRate := rate;
    }

    method SetVolume(v: real)
      modifies media`volume
      ensures media.volume == v
    {
      media.volume := v;
    }

    method SetMuted(m: bool)
      modifies media`muted
      ensures media.muted == m
    {
      media.muted := m;
    }

    /** The element fires "canplay": the rate from the options is applied the
        first time only. */
    method CanPlay()
      modifies this`pendingRate, media`playbackRate
      ensures pendingRate.None?
      ensures old(pendingRate).Some? ==> media.playbackRate == old(pendingRate).value
      ensures old(pendingRate).None? ==> media.playbackRate == old(media.playbackRate)
    {
      if pendingRate.Some? {
        media.playbackRate := pendingRate.value;
        pendingRate := None;
      }
    }
  }

  /** Two `setSrc(url)` calls in a row. The second one is skipped when the
      element had no current source or already had `url`. Otherwise the
      element has not yet selected the new resource, so `getSrc()` still
      returns the stale current source: both calls revoke it when it is a
      `blob:` URL, and both reload the element. */
  method SetSrcTwice(p: Player, url: string)
    requires p.Valid()
    modifies p, p.media
    ensures p.Valid()
    ensures var cs := old(p.media.currentSrc);
      (cs == "" || cs == url) ==>
        && p.GetSrc() == url && |p.revoked| <= |old(p.revoked)| + 1 && p.media.loads <= old(p.media.loads) + 1
    ensures var cs := old(p.media.currentSrc);
      (cs != "" && cs != url) ==>
        && p.GetSrc() == cs && p.media.loads == old(p.media.loads) + 2
        && p.revoked == old(p.revoked) + (if StartsWith(cs, BLOB_SCHEME) then [cs, cs] else [])
  {
    p.SetSrc(url, None);
    p.SetSrc(url, None);
  }
}
