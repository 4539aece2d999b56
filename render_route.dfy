/**
 * The render route's request validation and timeline layout: every URL
 * becomes one two-second video clip, laid back to back from time zero on
 * a single track. Sending the payload to the rendering service is not
 * part of this model.
 */
module RenderRoute {
  import opened Wrappers

  /** Every clip is given this length in seconds. */
  const ClipLength: real := 2.0

  /** The parsed body; `urls` is None when the field is missing. */
  datatype RenderRequest = RenderRequest(urls: Option<seq<string>>)

  /** The clip's `asset`; `kind` is the service's `type` field. */
  datatype Asset = Asset(kind: string, src: string, trim: real)

  datatype ShotstackClip = ShotstackClip(asset: Asset, start: real, length: real)

  datatype Track = Track(clips: seq<ShotstackClip>)

  datatype Timeline = Timeline(background: string, tracks: seq<Track>)

  datatype Output = Output(format: string, resolution: string)

  datatype Payload = Payload(timeline: Timeline, output: Output)

  /** The route's answer before the hand-off: a 400 error, or the payload to send. */
  datatype RenderResponse = BadRequest(status: int, error: string) | Send(payload: Payload)

  /** The total length of a run of clips. */
  function SumLengths(clips: seq<ShotstackClip>): real
    decreases |clips|
  {
    if clips == [] then 0.0 else SumLengths(clips[..|clips| - 1]) + clips[|clips| - 1].length
  }

  /** Each clip starts where the previous ones end: no gap and no overlap. */
  predicate BackToBack(clips: seq<ShotstackClip>) {
    forall k :: 0 <= k < |clips| ==> clips[k].start == SumLengths(clips[..k])
  }

  lemma {:induction false} SumOfDefaultLengths(clips: seq<ShotstackClip>)
    requires forall k :: 0 <= k < |clips| ==> clips[k].length == ClipLength
    ensures SumLengths(clips) == ClipLength * |clips| as real
    decreases |clips|
  {
    if clips != [] {
      var init := clips[..|clips| - 1];
      assert forall k :: 0 <= k < |init| ==> init[k] == clips[k];
      SumOfDefaultLengths(init);
    }
  }

  /** The `map` with the running `currentTime` accumulator. */
  method LayoutClips(videoUrls: seq<string>) returns (clips: seq<ShotstackClip>, currentTime: real)
    ensures |clips| == |videoUrls|
    ensures forall k :: 0 <= k < |clips| ==>
              clips[k] == ShotstackClip(Asset("video", videoUrls[k], 0.0), ClipLength * k as real, ClipLength)
    ensures BackToBack(clips)
    ensures forall k :: 0 <= k < |clips| - 1 ==> clips[k + 1].start == clips[k].start + clips[k].length
    ensures currentTime == SumLengths(clips) == ClipLength * |videoUrls| as real
  {
    currentTime := 0.0;
    clips := [];
    var i := 0;
    while i < |videoUrls|
      invariant 0 <= i <= |videoUrls| && |clips| == i
      invariant forall k :: 0 <= k < i ==>
                  clips[k] == ShotstackClip(Asset("video", videoUrls[k], 0.0), ClipLength * k as real, ClipLength)
      invariant currentTime == ClipLength * i as real
    {
      var clip := ShotstackClip(Asset("video", videoUrls[i], 0.0), currentTime, ClipLength);
      currentTime := currentTime + 2.0;
      clips := clips + [clip];
      i := i + 1;
    }
    forall k | 0 <= k <= |clips|
      ensures SumLengths(clips[..k]) == ClipLength * k as real
    {
      SumOfDefaultLengths(clips[..k]);
    }
    assert clips[..|clips|] == clips;
  }

  /** `POST`, up to the hand-off: reject a missing or empty URL list, else build the payload. */
  method Post(body: RenderRequest) returns (response: RenderResponse)
    ensures body.urls.None? || body.urls.value == [] <==> response.BadRequest?
    ensures response.BadRequest? ==> response.status == 400 && response.error == "No videos provided"
    ensures response.Send? ==>
              var urls := body.urls.value;
              var p := response.payload;
              p.timeline.background == "#000000" &&
              p.output == Output("mp4", "sd") &&
              |p.timeline.tracks| == 1 &&
              var clips := p.timeline.tracks[0].clips;
              |clips| == |urls| && BackToBack(clips) &&
              forall k :: 0 <= k < |clips| ==>
                clips[k].asset == Asset("video", urls[k], 0.0) &&
                clips[k].start == ClipLength * k as real && clips[k].length == ClipLength
  {
    if body.urls == None || |body.urls.value| == 0 {
      return BadRequest(400, "No videos provided");
    }
    var clips, _ := LayoutClips(body.urls.value);
    var jsonPayload := Payload(Timeline("#000000", [Track(clips)]), Output("mp4", "sd"));
    response := Send(jsonPayload);
  }
}
