/**
 * Video synthesis: stitches the frames of a storyboard into a timeline of
 * cumulative start offsets and describes the rendered output.
 */
module Video {
  import opened Models

  datatype TimelineEntry = TimelineEntry(frameId: string, start: real, duration: real, camera: string)

  datatype VideoSynthesisResult = VideoSynthesisResult(video: VideoOutput, timeline: seq<TimelineEntry>)

  const VoiceVariants: seq<string> := ["neutral", "warm", "energetic"]

  /** One entry per frame, starting where the durations of the earlier frames end. */
  function Timeline(frames: seq<Frame>): (t: seq<TimelineEntry>)
    ensures |t| == |frames|
  {
    seq(|frames|, i requires 0 <= i < |frames| =>
      TimelineEntry(frames[i].id, Sum(Durations(frames[..i])), frames[i].duration, frames[i].camera))
  }

  function Render(storyboard: Storyboard, audio: AudioProfile): (r: VideoSynthesisResult)
    ensures r.video.storyboardId == storyboard.id && |r.video.altVoiceovers| == |VoiceVariants|
    ensures |r.timeline| == |storyboard.frames|
  {
    var video := VideoOutput(
      storyboard.id,
      "renders/" + storyboard.id + ".mp4",
      "renders/" + storyboard.id + ".srt",
      seq(|VoiceVariants|, i requires 0 <= i < |VoiceVariants| => audio.voiceStyle + " voice " + VoiceVariants[i]),
      storyboard.TotalDuration());
    VideoSynthesisResult(video, Timeline(storyboard.frames))
  }

  /**
   * The output names the storyboard it came from, derives its media and
   * subtitle references from that id, lists three voice-over variants and
   * lasts as long as the storyboard; the timeline copies each frame's id,
   * duration and camera, in frame order.
   */
  lemma RenderOutput(storyboard: Storyboard, audio: AudioProfile)
    ensures var r := Render(storyboard, audio);
      && r.video.storyboardId == storyboard.id
      && r.video.mp4Url == "renders/" + storyboard.id + ".mp4"
      && r.video.srtUrl == "renders/" + storyboard.id + ".srt"
      && r.video.altVoiceovers == [audio.voiceStyle + " voice neutral", audio.voiceStyle + " voice warm",
                                   audio.voiceStyle + " voice energetic"]
      && r.video.duration == storyboard.TotalDuration()
      && |r.timeline| == |storyboard.frames|
      && forall i :: 0 <= i < |r.timeline| ==>
           r.timeline[i].frameId == storyboard.frames[i].id &&
           r.timeline[i].duration == storyboard.frames[i].duration &&
           r.timeline[i].camera == storyboard.frames[i].camera
  {
    var voices := Render(storyboard, audio).video.altVoiceovers;
    assert voices[0] == audio.voiceStyle + " voice neutral";
    assert voices[1] == audio.voiceStyle + " voice warm";
    assert voices[2] == audio.voiceStyle + " voice energetic";
  }

  /** The first entry starts at zero and each next entry starts where the previous one ends. */
  lemma TimelineSteps(frames: seq<Frame>)
    ensures var t := Timeline(frames);
      (|t| > 0 ==> t[0].start == 0.0) &&
      forall i :: 0 <= i < |t| - 1 ==> t[i + 1].start == t[i].start + t[i].duration
  {
    var t := Timeline(frames);
    if |t| > 0 {
      assert Durations(frames[..0]) == [];
    }
    forall i | 0 <= i < |t| - 1
      ensures t[i + 1].start == t[i].start + t[i].duration
    {
      DurationsPrefix(frames, i);
      DurationsPrefix(frames, i + 1);
      SumStep(Durations(frames), i);
    }
  }

  /** With non-negative durations the start offsets never decrease. */
  lemma {:induction false} TimelineStartsNonDecreasing(frames: seq<Frame>, i: nat, j: nat)
    requires forall k :: 0 <= k < |frames| ==> frames[k].duration >= 0.0
    requires i <= j < |frames|
    ensures Timeline(frames)[i].start <= Timeline(frames)[j].start
    decreases j - i
  {
    if i < j {
      TimelineSteps(frames);
      TimelineStartsNonDecreasing(frames, i + 1, j);
    }
  }

  /** The last entry ends exactly when the video does. */
  lemma TimelineEndsWithVideo(storyboard: Storyboard, audio: AudioProfile)
    requires storyboard.frames != []
    ensures var r := Render(storyboard, audio);
      var last := r.timeline[|r.timeline| - 1];
      last.start + last.duration == r.video.duration
  {
    var frames := storyboard.frames;
    var n := |frames|;
    DurationsPrefix(frames, n - 1);
    SumStep(Durations(frames), n - 1);
    assert Durations(frames)[..n] == Durations(frames);
  }
}
