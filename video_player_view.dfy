/**
 * The parity rules of the `VideoPlayer` component: which element forwards
 * time updates, which one is stacked on top, and when the spinner and the
 * play overlay are shown. The component keeps no state of its own.
 */
module VideoPlayerView {
  import opened VideoPlayerHook

  /** `handlePlayer1TimeUpdate`: whether player1's event reaches `onTimeUpdate`. */
  function HandlePlayer1TimeUpdate(activeClipIndex: int): (forwards: bool)
    ensures forwards <==> ActiveSlot(activeClipIndex) == Player1
  {
    activeClipIndex % 2 == 0
  }

  /** `handlePlayer2TimeUpdate`: whether player2's event reaches `onTimeUpdate`. */
  function HandlePlayer2TimeUpdate(activeClipIndex: int): (forwards: bool)
    ensures forwards <==> ActiveSlot(activeClipIndex) == Player2
  {
    activeClipIndex % 2 != 0
  }

  /** For every index exactly one element forwards its time updates. */
  lemma ExactlyOneForwards(activeClipIndex: int)
    ensures HandlePlayer1TimeUpdate(activeClipIndex) != HandlePlayer2TimeUpdate(activeClipIndex)
  {
  }

  /** The `zIndex` style of each element. */
  function ZIndex(slot: Slot, activeClipIndex: int): (z: int)
    ensures z == 20 || z == 10
    ensures z == 20 <==> slot == ActiveSlot(activeClipIndex)
  {
    match slot
    case Player1 => if activeClipIndex % 2 == 0 then 20 else 10
    case Player2 => if activeClipIndex % 2 != 0 then 20 else 10
  }

  /** The active element is the one on top; the two layers never tie. */
  lemma ActiveOnTop(activeClipIndex: int)
    ensures ZIndex(ActiveSlot(activeClipIndex), activeClipIndex)
          > ZIndex(InactiveSlot(activeClipIndex), activeClipIndex)
    ensures ZIndex(Player1, activeClipIndex) != ZIndex(Player2, activeClipIndex)
  {
  }

  /** The buffering spinner. */
  function ShowSpinner(isBuffering: bool, isPlayingAll: bool): (shown: bool)
    ensures shown ==> isPlayingAll
    ensures isPlayingAll ==> (shown <==> isBuffering)
  {
    isBuffering && isPlayingAll
  }

  /** The play-button overlay. */
  function ShowPlayOverlay(isPlayingAll: bool): (shown: bool)
    ensures shown <==> !isPlayingAll
    ensures shown ==> forall isBuffering :: !ShowSpinner(isBuffering, isPlayingAll)
  {
    !isPlayingAll
  }

  /**
   * The overlay is up exactly while paused; spinner and overlay are never
   * shown together, and while playing without buffering neither is.
   */
  lemma OverlaysExclusive(isBuffering: bool, isPlayingAll: bool)
    ensures ShowPlayOverlay(isPlayingAll) <==> !isPlayingAll
    ensures !(ShowSpinner(isBuffering, isPlayingAll) && ShowPlayOverlay(isPlayingAll))
    ensures isPlayingAll && !isBuffering ==>
              !ShowSpinner(isBuffering, isPlayingAll) && !ShowPlayOverlay(isPlayingAll)
  {
  }

  /** `onWaiting`, bound on both elements: buffering starts. */
  method OnWaiting(hook: PlayerHook)
    modifies hook
    ensures hook.isBuffering
    ensures hook.player1 == old(hook.player1) && hook.player2 == old(hook.player2)
  {
    hook.SetBuffering(true);
  }

  /** `onCanPlay`, bound on both elements: buffering ends. */
  method OnCanPlay(hook: PlayerHook)
    modifies hook
    ensures !hook.isBuffering
    ensures hook.player1 == old(hook.player1) && hook.player2 == old(hook.player2)
  {
    hook.SetBuffering(false);
  }
}
