/**
 * The dual-buffer playback sequencer (`useVideoPlayer`).
 *
 * Two `<video>` elements alternate by the parity of the active clip's
 * index: the active one plays the current clip, the other is paused and
 * preloads the next clip of the (looping) timeline. Each element is an
 * abstract record of the five media attributes the hook reads or writes;
 * what the browser does behind `load()` and `play()` is not modelled.
 */
module VideoPlayerHook {
  import opened Wrappers

  /** A timeline clip as the player sees it; optional fields may be `undefined`. */
  datatype Clip = Clip(url: string, duration: real, trimStart: Option<real>,
                       trimDuration: Option<real>, muted: Option<bool>)

  /** One `<video>` element; `src` is its `src` attribute, None when it has none. */
  datatype Video = Video(src: Option<string>, currentTime: real, muted: bool, paused: bool, readyState: int)

  /** The two element refs. */
  datatype Slot = Player1 | Player2 {
    function Other(): Slot {
      match this
      case Player1 => Player2
      case Player2 => Player1
    }
  }

  /** The distance the active element may drift from the trim start before it is seeked. */
  const SeekTolerance: real := 0.5

  /** `HAVE_CURRENT_DATA`: the ready state from which a seek is attempted. */
  const HaveCurrentData: int := 2

  function Abs(x: real): real {
    if x < 0.0 then -x else x
  }

  /**
   * `activePlayerRef`: player1 for even indices, player2 for odd ones.
   * JavaScript's remainder is zero exactly when Dafny's is, for negative
   * indices too.
   */
  function ActiveSlot(activeClipIndex: int): (s: Slot)
    ensures s == Player1 <==> activeClipIndex % 2 == 0
    ensures s == Player1 <==> JsRemainder(activeClipIndex, 2) == 0
  {
    if activeClipIndex % 2 == 0 then Player1 else Player2
  }

  /** `inactivePlayerRef`: always the element that is not active. */
  function InactiveSlot(activeClipIndex: int): (s: Slot)
    ensures s != ActiveSlot(activeClipIndex)
    ensures s == ActiveSlot(activeClipIndex + 1)
  {
    if activeClipIndex % 2 == 0 then Player2 else Player1
  }

  /**
   * JavaScript's `%` on integers: it truncates toward zero, so the
   * remainder takes the dividend's sign (Dafny's `%` never goes negative).
   */
  function JsRemainder(a: int, n: int): (r: int)
    requires n > 0
    ensures -n < r < n
    ensures a >= 0 ==> 0 <= r
    ensures a >= 0 ==> r == a % n
    ensures a < 0 ==> r <= 0
  {
    if a >= 0 then a % n else -((-a) % n)
  }

  /**
   * `nextClipIdx`: the clip after `i`, wrapping from the last clip to the
   * first. For an index below -1 it may be negative, and `clips[next]` is
   * then `undefined`.
   */
  function NextIndex(i: int, clipCount: int): (next: int)
    requires clipCount > 0
    ensures -clipCount < next < clipCount
    ensures -1 <= i ==> 0 <= next
    ensures 0 <= i && i + 1 < clipCount ==> next == i + 1
    ensures i == clipCount - 1 ==> next == 0
  {
    JsRemainder(i + 1, clipCount)
  }

  /**
   * The element preloaded for the next clip is the one that plays it,
   * except on the wrap from the last clip to the first of an odd-length
   * timeline, where both clips have even parity.
   */
  lemma PreloadedSlotPlaysNext(i: int, clipCount: int)
    requires 0 <= i < clipCount
    ensures (InactiveSlot(i) == ActiveSlot(NextIndex(i, clipCount)))
            <==> !(i == clipCount - 1 && clipCount % 2 == 1)
  {
  }

  /** The active element needs nothing more for this clip and play state. */
  predicate Settled(vid: Video, clip: Clip, isPlayingAll: bool) {
    vid.src == Some(clip.url) &&
    vid.muted == clip.muted.GetOr(false) &&
    vid.paused == !isPlayingAll &&
    (vid.readyState >= HaveCurrentData ==> Abs(vid.currentTime - clip.trimStart.GetOr(0.0)) <= SeekTolerance)
  }

  /**
   * Section A of the effect, on the active element: reload when the source
   * differs, apply the clip's mute flag, seek to the trim start when loaded
   * and far off, then play or pause.
   */
  function ConfigureActive(vid: Video, activeClip: Clip, isPlayingAll: bool): (r: Video)
    ensures r.src == Some(activeClip.url)
    ensures r.muted == activeClip.muted.GetOr(false)
    ensures r.paused == !isPlayingAll
    ensures r.readyState == vid.readyState
    ensures var fromTime := if vid.src != Some(activeClip.url) then 0.0 else vid.currentTime;
            var target := activeClip.trimStart.GetOr(0.0);
            (vid.readyState >= HaveCurrentData && Abs(fromTime - target) > SeekTolerance ==> r.currentTime == target) &&
            (r.currentTime != fromTime ==>
               vid.readyState >= HaveCurrentData && Abs(fromTime - target) > SeekTolerance && r.currentTime == target)
    ensures Settled(r, activeClip, isPlayingAll)
    ensures Settled(vid, activeClip, isPlayingAll) ==> r == vid
  {
    var target := activeClip.trimStart.GetOr(0.0);
    var loaded := if vid.src != Some(activeClip.url) then vid.(src := Some(activeClip.url), currentTime := 0.0) else vid;
    var muted := loaded.(muted := activeClip.muted.GetOr(false));
    var seeked := if muted.readyState >= HaveCurrentData && Abs(muted.currentTime - target) > SeekTolerance
                  then muted.(currentTime := target) else muted;
    seeked.(paused := !isPlayingAll)
  }

  /**
   * Section B of the effect, on the inactive element: pause it and, when it
   * holds another source, load the next clip positioned at its trim start.
   */
  function PreloadInactive(vid: Video, nextClip: Clip): (r: Video)
    ensures r.paused
    ensures r.src == Some(nextClip.url)
    ensures r.muted == vid.muted && r.readyState == vid.readyState
    ensures vid.src == Some(nextClip.url) ==> r.currentTime == vid.currentTime
    ensures vid.src != Some(nextClip.url) ==> r.currentTime == nextClip.trimStart.GetOr(0.0)
    ensures vid.paused && vid.src == Some(nextClip.url) ==> r == vid
  {
    var stopped := vid.(paused := true);
    if stopped.src != Some(nextClip.url)
    then stopped.(src := Some(nextClip.url), currentTime := nextClip.trimStart.GetOr(0.0))
    else stopped
  }

  /** The hook's state: the two element refs (None before mount) and `isBuffering`. */
  class PlayerHook {
    var player1: Option<Video>
    var player2: Option<Video>
    var isBuffering: bool

    function Player(slot: Slot): Option<Video>
      reads this
    {
      match slot
      case Player1 => player1
      case Player2 => player2
    }

    constructor (player1: Option<Video>, player2: Option<Video>)
      ensures this.player1 == player1 && this.player2 == player2
      ensures !isBuffering
    {
      this.player1 := player1;
      this.player2 := player2;
      isBuffering := false;
    }

    method SetPlayer(slot: Slot, vid: Video)
      modifies this`player1, this`player2
      ensures Player(slot) == Some(vid)
      ensures Player(slot.Other()) == old(Player(slot.Other()))
    {
      match slot
      case Player1 => player1 := Some(vid);
      case Player2 => player2 := Some(vid);
    }

    /** `setIsBuffering`. */
    method SetBuffering(buffering: bool)
      modifies this`isBuffering
      ensures isBuffering == buffering
    {
      isBuffering := buffering;
    }

    /**
     * The effect run whenever the project, the active index or the play
     * state changes. A null project leaves everything as it was. The clips
     * are read only behind a mounted ref: the active clip when the active
     * ref is mounted, the next clip when the inactive one is. An index
     * outside the list (or an empty list, where the next index is `NaN`)
     * yields `undefined`, whose `url` throws; the two requirements exclude
     * exactly those cases.
     */
    method Effect(project: Option<seq<Clip>>, activeClipIndex: int, isPlayingAll: bool)
      requires project.Some? && Player(ActiveSlot(activeClipIndex)).Some? ==>
                 0 <= activeClipIndex < |project.value|
      requires project.Some? && Player(InactiveSlot(activeClipIndex)).Some? ==>
                 |project.value| > 0 && 0 <= NextIndex(activeClipIndex, |project.value|)
      modifies this
      ensures project.None? ==>
                player1 == old(player1) && player2 == old(player2) && isBuffering == old(isBuffering)
      ensures project.Some? ==>
                var clips := project.value;
                var active := ActiveSlot(activeClipIndex);
                var idle := InactiveSlot(activeClipIndex);
                (old(Player(active)).None? ==> Player(active) == None && isBuffering == old(isBuffering)) &&
                (old(Player(active)).Some? ==>
                   var activeClip := clips[activeClipIndex];
                   Player(active) == Some(ConfigureActive(old(Player(active)).value, activeClip, isPlayingAll)) &&
                   isBuffering == (old(isBuffering) || old(Player(active)).value.src != Some(activeClip.url))) &&
                (old(Player(idle)).None? ==> Player(idle) == None) &&
                (old(Player(idle)).Some? ==>
                   Player(idle) == Some(PreloadInactive(old(Player(idle)).value,
                                                        clips[NextIndex(activeClipIndex, |clips|)])))
    {
      if project == None {
        return;
      }
      var clips := project.value;
      RunActive(ActiveSlot(activeClipIndex), clips, activeClipIndex, isPlayingAll);
      PreloadIdle(InactiveSlot(activeClipIndex), clips, activeClipIndex);
    }

    /** Section A of the effect, when the active ref is mounted. */
    method RunActive(active: Slot, clips: seq<Clip>, activeClipIndex: int, isPlayingAll: bool)
      requires Player(active).Some? ==> 0 <= activeClipIndex < |clips|
      modifies this
      ensures old(Player(active)).None? ==> Player(active) == None && isBuffering == old(isBuffering)
      ensures old(Player(active)).Some? ==>
                var activeClip := clips[activeClipIndex];
                Player(active) == Some(ConfigureActive(old(Player(active)).value, activeClip, isPlayingAll)) &&
                isBuffering == (old(isBuffering) || old(Player(active)).value.src != Some(activeClip.url))
      ensures Player(active.Other()) == old(Player(active.Other()))
    {
      var activeRef := Player(active);
      if activeRef.Some? {
        var activeClip := clips[activeClipIndex];
        var vid := activeRef.value;
        if vid.src != Some(activeClip.url) {
          isBuffering := true;
          vid := vid.(src := Some(activeClip.url));
          vid := vid.(currentTime := 0.0);
        }
        vid := vid.(muted := activeClip.muted.GetOr(false));
        var target := activeClip.trimStart.GetOr(0.0);
        if vid.readyState >= HaveCurrentData && Abs(vid.currentTime - target) > SeekTolerance {
          vid := vid.(currentTime := target);
        }
        if isPlayingAll {
          vid := vid.(paused := false);
        } else {
          vid := vid.(paused := true);
        }
        SetPlayer(active, vid);
      }
    }

    /** Section B of the effect, when the inactive ref is mounted: preload the next clip. */
    method PreloadIdle(idle: Slot, clips: seq<Clip>, activeClipIndex: int)
      requires Player(idle).Some? ==> |clips| > 0 && 0 <= NextIndex(activeClipIndex, |clips|)
      modifies this
      ensures old(Player(idle)).None? ==> Player(idle) == None
      ensures old(Player(idle)).Some? ==>
                Player(idle) == Some(PreloadInactive(old(Player(idle)).value,
                                                     clips[NextIndex(activeClipIndex, |clips|)]))
      ensures Player(idle.Other()) == old(Player(idle.Other()))
      ensures isBuffering == old(isBuffering)
    {
      var idleRef := Player(idle);
      if idleRef.Some? {
        var nextClip := clips[NextIndex(activeClipIndex, |clips|)];
        var vid := idleRef.value;
        vid := vid.(paused := true);
        if vid.src != Some(nextClip.url) {
          vid := vid.(src := Some(nextClip.url));
          vid := vid.(currentTime := nextClip.trimStart.GetOr(0.0));
        }
        SetPlayer(idle, vid);
      }
    }
  }

  /**
   * Running the effect a second time with the same inputs changes nothing:
   * the active element is settled and the idle one already preloaded.
   */
  method EffectTwice(hook: PlayerHook, clips: seq<Clip>, activeClipIndex: int, isPlayingAll: bool)
    returns (player1: Option<Video>, player2: Option<Video>, isBuffering: bool)
    requires hook.Player(ActiveSlot(activeClipIndex)).Some? ==> 0 <= activeClipIndex < |clips|
    requires hook.Player(InactiveSlot(activeClipIndex)).Some? ==>
               |clips| > 0 && 0 <= NextIndex(activeClipIndex, |clips|)
    modifies hook
    ensures hook.player1 == player1 && hook.player2 == player2 && hook.isBuffering == isBuffering
  {
    hook.Effect(Some(clips), activeClipIndex, isPlayingAll);
    player1, player2, isBuffering := hook.player1, hook.player2, hook.isBuffering;
    hook.Effect(Some(clips), activeClipIndex, isPlayingAll);
  }
}
