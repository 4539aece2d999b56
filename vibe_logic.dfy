/**
 * The vibe presets and the timeline generator that gives every raw clip a
 * cut window centred in the clip, as long as the chosen vibe's target
 * length or the whole clip when that is shorter.
 */
module VibeLogic {
  import opened Wrappers
  import TrimSlider

  /** A style preset; `title` is the displayed `label`, `duration` the target cut length in seconds. */
  datatype VibeType = VibeType(id: string, emoji: string, title: string, description: string, duration: real)

  const Hype := VibeType("fast", "⚡", "Hype",
    "Choose Hype if you want fast cuts and high energy. Best for TikTok-style reels.", 0.8)
  const Journey := VibeType("travel", "✈️", "Journey",
    "Choose Journey for a mini vlog or \"day in my life\". Great with voiceovers and storytelling.", 3.0)
  const Cooking := VibeType("food", "🍳", "Cooking",
    "Choose Cooking for a process-focused, step-by-step flow. Perfect for recipes, DIY, and tutorials.", 2.0)
  const Calm := VibeType("vibe", "✨", "Calm",
    "Choose Calm for a slow, aesthetic vibe. Best for peaceful and scenic shots.", 4.0)

  /** The `VIBES` table, in its display order. */
  function Vibes(): (table: seq<VibeType>)
    ensures |table| == 4
    ensures forall i, j :: 0 <= i < j < |table| ==> table[i].id != table[j].id
    ensures forall i :: 0 <= i < |table| ==> table[i].duration > 0.0
    ensures forall i :: 0 <= i < |table| ==> table[i].duration >= TrimSlider.MinDuration
    ensures table[1].id == "travel" && table[1].duration == 3.0
  {
    assert Hype.id[0] == 'f' && Hype.id[1] == 'a';
    assert Journey.id[0] == 't';
    assert Cooking.id[0] == 'f' && Cooking.id[1] == 'o';
    assert Calm.id[0] == 'v';
    [Hype, Journey, Cooking, Calm]
  }

  /** `Array.prototype.find` on the id: the first entry whose id is `id`. */
  function Find(table: seq<VibeType>, id: string): (r: Option<VibeType>)
    ensures r.None? <==> forall i :: 0 <= i < |table| ==> table[i].id != id
    ensures r.Some? ==> exists i :: 0 <= i < |table| && table[i] == r.value &&
                                    forall j :: 0 <= j < i ==> table[j].id != id
    ensures r.Some? ==> r.value.id == id
    decreases |table|
  {
    if table == [] then None
    else if table[0].id == id then Some(table[0])
    else
      var rest := Find(table[1..], id);
      assert forall i :: 1 <= i < |table| ==> table[i] == table[1..][i - 1];
      rest
  }

  /** The preset `processClipsWithVibe` uses: the one named `vibeId`, else `VIBES[1]`. */
  function ResolveVibe(vibeId: string): (v: VibeType)
    ensures v in Vibes()
    ensures (exists i :: 0 <= i < |Vibes()| && Vibes()[i].id == vibeId) ==> v.id == vibeId
    ensures (forall i :: 0 <= i < |Vibes()| ==> Vibes()[i].id != vibeId) ==> v == Vibes()[1]
    ensures v.duration >= TrimSlider.MinDuration > 0.0
  {
    match Find(Vibes(), vibeId)
    case Some(found) => found
    case None => Vibes()[1]
  }

  /** An uploaded clip: its URL, its length in seconds and optional pixel size. */
  datatype RawClip = RawClip(url: string, duration: real, width: Option<int>, height: Option<int>)

  /** A raw clip with the cut window the generator chose for it. */
  datatype ProcessedClip = ProcessedClip(url: string, duration: real, width: Option<int>, height: Option<int>,
                                         trimStart: real, trimDuration: real)

  function Min(a: real, b: real): (m: real)
    ensures m <= a && m <= b && (m == a || m == b)
  {
    if a < b then a else b
  }

  /** The body of the `map` callback: one clip cut to the target length `targetLen`. */
  function CutClip(clip: RawClip, targetLen: real): (p: ProcessedClip)
    ensures p.url == clip.url && p.duration == clip.duration
    ensures p.width == clip.width && p.height == clip.height
    ensures p.trimDuration == Min(clip.duration, targetLen)
    ensures clip.duration <= targetLen ==> p.trimStart == 0.0 && p.trimDuration == clip.duration
    ensures clip.duration > targetLen ==> p.trimStart + p.trimDuration / 2.0 == clip.duration / 2.0
    ensures clip.duration >= 0.0 ==> 0.0 <= p.trimStart && p.trimStart + p.trimDuration <= clip.duration
  {
    var finalLen := if clip.duration < targetLen then clip.duration else targetLen;
    var start := if clip.duration > targetLen then (clip.duration / 2.0) - (finalLen / 2.0) else 0.0;
    ProcessedClip(clip.url, clip.duration, clip.width, clip.height, start, finalLen)
  }

  /** `processClipsWithVibe`: every clip cut with the resolved vibe's target, order kept. */
  function ProcessClipsWithVibe(clips: seq<RawClip>, vibeId: string): (out: seq<ProcessedClip>)
    ensures |out| == |clips|
    ensures forall i :: 0 <= i < |clips| ==> out[i] == CutClip(clips[i], ResolveVibe(vibeId).duration)
  {
    var targetLen := ResolveVibe(vibeId).duration;
    seq(|clips|, i requires 0 <= i < |clips| => CutClip(clips[i], targetLen))
  }

  /**
   * Every generated window of a clip at least half a second long satisfies
   * the trim editor's window invariant; a shorter clip gets a window as
   * short as the clip itself.
   */
  lemma GeneratedWindowsAreEditable(clips: seq<RawClip>, vibeId: string, i: int)
    requires 0 <= i < |clips|
    ensures var p := ProcessClipsWithVibe(clips, vibeId)[i];
            var w := TrimSlider.Window(p.trimStart, p.trimDuration);
            (clips[i].duration >= TrimSlider.MinDuration ==> TrimSlider.ValidWindow(w, clips[i].duration)) &&
            (0.0 <= clips[i].duration < TrimSlider.MinDuration ==> p.trimDuration == clips[i].duration)
  {
  }
}
