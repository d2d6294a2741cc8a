/**
 * The artifact model of AdMock Studio: frames, storyboards, storyboard
 * versions with their version labels, brand tokens, briefs, audio profiles,
 * video outputs and the project aggregate with its audit log.
 *
 * Fields the program assigns once and never again are `const`; the fields it
 * updates in place (a frame's notes, a version's label and lock flag, the
 * project's slots and lists) are `var`.
 */
module Models {
  import opened Wrappers
  import opened Strings

  datatype Style = Pencil | Hifi

  /** The two exception classes the core raises, with their messages. */
  datatype Error = ValueError(message: string) | KeyError(message: string)

  // ---------------------------------------------------------------------------
  // Frames

  /** Every field of a frame, as a value. */
  datatype FrameData = FrameData(
    id: string,
    beat: string,
    voiceOver: string,
    onScreenText: string,
    camera: string,
    duration: real,
    notes: seq<string>,
    sketchAsset: Option<string>,
    hifiAsset: Option<string>,
    musicCue: Option<string>)

  /** A storyboard frame; edits append to its notes in place. */
  class Frame {
    const id: string
    const beat: string
    const voiceOver: string
    const onScreenText: string
    const camera: string
    const duration: real
    var notes: seq<string>
    const sketchAsset: Option<string>
    const hifiAsset: Option<string>
    const musicCue: Option<string>

    function Data(): FrameData
      reads this
    {
      FrameData(id, beat, voiceOver, onScreenText, camera, duration, notes, sketchAsset, hifiAsset, musicCue)
    }

    constructor (d: FrameData)
      ensures Data() == d
    {
      id, beat, voiceOver, onScreenText, camera, duration := d.id, d.beat, d.voiceOver, d.onScreenText, d.camera, d.duration;
      notes := d.notes;
      sketchAsset, hifiAsset, musicCue := d.sketchAsset, d.hifiAsset, d.musicCue;
    }

    /** Records an edit note: the description becomes the last note, the earlier notes stay. */
    method ApplyEdit(description: string)
      modifies this`notes
      ensures notes == old(notes) + [description]
    {
      notes := notes + [description];
    }
  }

  /** No frame object occurs twice. */
  ghost predicate Distinct(frames: seq<Frame>) {
    forall i, j :: 0 <= i < j < |frames| ==> frames[i] != frames[j]
  }

  // ---------------------------------------------------------------------------
  // Durations

  function Sum(xs: seq<real>): real {
    if xs == [] then 0.0 else Sum(xs[..|xs| - 1]) + xs[|xs| - 1]
  }

  /** Adding one more element adds its value: the step of a running total. */
  lemma SumStep(xs: seq<real>, i: nat)
    requires i < |xs|
    ensures Sum(xs[..i + 1]) == Sum(xs[..i]) + xs[i]
  {
    assert xs[..i + 1][..i] == xs[..i];
  }

  /** A sum of non-negative values is non-negative. */
  lemma {:induction false} SumNonNegative(xs: seq<real>)
    ensures (forall i :: 0 <= i < |xs| ==> xs[i] >= 0.0) ==> Sum(xs) >= 0.0
  {
    if xs != [] {
      SumNonNegative(xs[..|xs| - 1]);
    }
  }

  /** The frame durations in frame order. Durations never change after a frame is made. */
  function Durations(frames: seq<Frame>): (ds: seq<real>)
    ensures |ds| == |frames| && forall i :: 0 <= i < |frames| ==> ds[i] == frames[i].duration
  {
    seq(|frames|, i requires 0 <= i < |frames| => frames[i].duration)
  }

  lemma DurationsPrefix(frames: seq<Frame>, i: nat)
    requires i <= |frames|
    ensures Durations(frames[..i]) == Durations(frames)[..i]
  {
  }

  // ---------------------------------------------------------------------------
  // Storyboards

  datatype Storyboard = Storyboard(
    id: string,
    style: Style,
    frames: seq<Frame>,
    narrative: string,
    risks: seq<string>,
    altHooks: seq<string>)
  {
    /**
     * The sum of the frame durations. It reads no mutable state, so no edit
     * of a frame's notes can change it.
     */
    function TotalDuration(): (r: real)
      ensures (forall i :: 0 <= i < |frames| ==> frames[i].duration >= 0.0) ==> r >= 0.0
    {
      var ds := Durations(frames);
      SumNonNegative(ds);
      Sum(ds)
    }

    /** Looks a frame up by id: the first frame carrying it, or a KeyError. */
    method GetFrame(frameId: string) returns (r: Result<Frame, Error>)
      ensures match FirstIndex(frames, frameId)
        case Some(k) => r == Success(frames[k])
        case None => r == Failure(KeyError("Frame " + frameId + " not found"))
    {
      var i := 0;
      while i < |frames|
        invariant 0 <= i <= |frames|
        invariant forall j :: 0 <= j < i ==> frames[j].id != frameId
      {
        if frames[i].id == frameId {
          return Success(frames[i]);
        }
        i := i + 1;
      }
      return Failure(KeyError("Frame " + frameId + " not found"));
    }
  }

  /** The index of the first frame whose id is `frameId`, if there is one. */
  function FirstIndex(frames: seq<Frame>, frameId: string): (r: Option<nat>)
    ensures r.Some? ==> r.value < |frames| && frames[r.value].id == frameId
                        && forall j :: 0 <= j < r.value ==> frames[j].id != frameId
    ensures r.None? ==> forall j :: 0 <= j < |frames| ==> frames[j].id != frameId
  {
    if frames == [] then None
    else if frames[0].id == frameId then Some(0)
    else match FirstIndex(frames[1..], frameId)
      case Some(k) => Some(k + 1)
      case None => None
  }

  // ---------------------------------------------------------------------------
  // Storyboard versions and their labels

  /**
   * A version label: `sb_v{major}` while unlocked and `sb_v{major}_locked`
   * once locked.
   */
  datatype Label = Label(major: nat, locked: bool)

  const LockedSuffix := "_locked"

  function RenderLabel(l: Label): string {
    "sb_v" + NatToString(l.major) + (if l.locked then LockedSuffix else "")
  }

  /** Reads a label written by RenderLabel; anything else is rejected. */
  function ParseLabel(s: string): Option<Label> {
    if |s| < 4 || s[..4] != "sb_v" then None
    else
      var rest := s[4..];
      if |rest| >= |LockedSuffix| && rest[|rest| - |LockedSuffix|..] == LockedSuffix then
        var digits := rest[..|rest| - |LockedSuffix|];
        if digits != [] && AllDigits(digits) then Some(Label(DigitsValue(digits), true)) else None
      else if rest != [] && AllDigits(rest) then Some(Label(DigitsValue(rest), false))
      else None
  }

  /** Every label reads back as itself. */
  lemma ParseRenderLabel(l: Label)
    ensures ParseLabel(RenderLabel(l)) == Some(l)
  {
    var s := RenderLabel(l);
    var digits := NatToString(l.major);
    DigitsValueOfNatToString(l.major);
    assert s[..4] == "sb_v";
    var rest := s[4..];
    if l.locked {
      assert rest == digits + LockedSuffix;
      assert rest[|rest| - |LockedSuffix|..] == LockedSuffix;
      assert rest[..|rest| - |LockedSuffix|] == digits;
    } else {
      assert rest == digits;
      if |rest| >= |LockedSuffix| {
        assert IsDigit(rest[|rest| - 1]);
        assert rest[|rest| - |LockedSuffix|..][|LockedSuffix| - 1] == rest[|rest| - 1];
      }
    }
  }

  /** Distinct labels render to distinct strings. */
  lemma RenderLabelInjective(a: Label, b: Label)
    requires RenderLabel(a) == RenderLabel(b)
    ensures a == b
  {
    ParseRenderLabel(a);
    ParseRenderLabel(b);
  }

  /** A registered storyboard with its label and lock flag; locking updates it in place. */
  class StoryboardVersion {
    const storyboard: Storyboard
    var version: Label
    var locked: bool

    /** A new version is unlocked unless told otherwise. */
    constructor (storyboard: Storyboard, version: Label)
      ensures this.storyboard == storyboard && this.version == version && !locked
    {
      this.storyboard := storyboard;
      this.version := version;
      locked := false;
    }
  }

  /** No version object occurs twice. */
  ghost predicate DistinctVersions(vs: seq<StoryboardVersion>) {
    forall i, j :: 0 <= i < j < |vs| ==> vs[i] != vs[j]
  }

  /**
   * Every frame object sits at exactly one position of exactly one
   * registered storyboard: edits to one storyboard reach no other.
   */
  ghost predicate FramesUnique(vs: seq<StoryboardVersion>) {
    forall i, j, k, l ::
      0 <= i < |vs| && 0 <= j < |vs| &&
      0 <= k < |vs[i].storyboard.frames| && 0 <= l < |vs[j].storyboard.frames| &&
      vs[i].storyboard.frames[k] == vs[j].storyboard.frames[l]
      ==> i == j && k == l
  }

  lemma UniqueFramesDistinct(vs: seq<StoryboardVersion>, i: nat)
    requires FramesUnique(vs) && i < |vs|
    ensures Distinct(vs[i].storyboard.frames)
  {
  }

  /** A frame of one registered storyboard is not a frame of another. */
  lemma UniqueFramesApart(vs: seq<StoryboardVersion>, i: nat, j: nat, l: nat)
    requires FramesUnique(vs) && i < |vs| && j < |vs| && i != j && l < |vs[j].storyboard.frames|
    ensures vs[j].storyboard.frames[l] !in vs[i].storyboard.frames
  {
  }

  /** None of `frames` belongs to a storyboard in `vs`. */
  ghost predicate FramesApart(frames: seq<Frame>, vs: seq<StoryboardVersion>) {
    forall k, i, l ::
      0 <= k < |frames| && 0 <= i < |vs| && 0 <= l < |vs[i].storyboard.frames| ==>
      frames[k] != vs[i].storyboard.frames[l]
  }

  lemma AppendKeepsFramesUnique(vs: seq<StoryboardVersion>, v: StoryboardVersion)
    requires FramesUnique(vs) && Distinct(v.storyboard.frames) && FramesApart(v.storyboard.frames, vs)
    ensures FramesUnique(vs + [v])
  {
    var ws := vs + [v];
    assert forall i :: 0 <= i < |vs| ==> ws[i] == vs[i];
    assert ws[|vs|] == v;
  }

  // ---------------------------------------------------------------------------
  // Brand tokens, brief, audio and video

  datatype Logo = Logo(url: string, safeArea: string)
  datatype Voice = Voice(tone: string, donts: seq<string>)

  datatype BrandTokens = BrandTokens(
    brand: string,
    url: string,
    colors: map<string, string>,
    typography: map<string, string>,
    logo: Logo,
    voice: Voice)

  datatype Brief = Brief(
    audience: string,
    objective: string,
    url: string,
    adLengthSeconds: int,
    platform: string,
    tone: string,
    constraints: Option<string>,
    languages: Option<seq<string>>)

  datatype AudioProfile = AudioProfile(voiceStyle: string, musicStyle: string, voiceSpeed: real, voicePitch: real)

  /** An audio profile with the default speed and pitch. */
  function DefaultAudioProfile(voiceStyle: string, musicStyle: string): AudioProfile {
    AudioProfile(voiceStyle, musicStyle, 1.0, 1.0)
  }

  datatype VideoOutput = VideoOutput(
    storyboardId: string,
    mp4Url: string,
    srtUrl: string,
    altVoiceovers: seq<string>,
    duration: real)

  // ---------------------------------------------------------------------------
  // The project aggregate

  /** An audit entry: the event name and its payload, in insertion order (the timestamp is not modelled). */
  datatype AuditEvent = AuditEvent(event: string, payload: seq<(string, string)>)

  /** The mutable part of a project, as a value. */
  datatype ProjectView = ProjectView(
    brandTokens: Option<BrandTokens>,
    brief: Option<Brief>,
    storyboards: seq<StoryboardVersion>,
    videoOutputs: seq<VideoOutput>,
    auditLog: seq<AuditEvent>)

  class Project {
    const id: string
    const owner: string
    var brandTokens: Option<BrandTokens>
    var brief: Option<Brief>
    var storyboards: seq<StoryboardVersion>
    var videoOutputs: seq<VideoOutput>
    var auditLog: seq<AuditEvent>

    function View(): ProjectView
      reads this
    {
      ProjectView(brandTokens, brief, storyboards, videoOutputs, auditLog)
    }

    /** A new project has no brand tokens, no brief and empty lists. */
    constructor (id: string, owner: string)
      ensures this.id == id && this.owner == owner
      ensures View() == ProjectView(None, None, [], [], [])
    {
      this.id := id;
      this.owner := owner;
      brandTokens := None;
      brief := None;
      storyboards := [];
      videoOutputs := [];
      auditLog := [];
    }

    /** Appends one audit entry; the earlier entries stay as they were. */
    method LogEvent(event: string, payload: seq<(string, string)>)
      modifies this`auditLog
      ensures auditLog == old(auditLog) + [AuditEvent(event, payload)]
    {
      auditLog := auditLog + [AuditEvent(event, payload)];
    }
  }
}
