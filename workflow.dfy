/**
 * The AdMock Studio workflow: a state machine over one project that ingests
 * the brand, captures the brief, creates a pencil concept, edits and locks
 * it, renders it in hi-fi and renders the video. Each successful stage
 * appends exactly one audit event; a failing stage raises before changing
 * anything.
 */
module Workflow {
  import opened Wrappers
  import opened Strings
  import opened Models
  import BrandExtractor
  import StoryboardGenerator
  import Video

  const BriefRequired := "Brief must be captured before generating concept"
  const BrandTokensRequired := "Brand tokens required before rendering hi-fi storyboard"
  const LockRequired := "Storyboard must be locked before hi-fi render"

  /** The message of the lookup failure; the style is formatted as its enum member. */
  function NoStoryboardMessage(style: Style): string {
    "No storyboard with style " + (match style case Pencil => "StoryboardStyle.PENCIL" case Hifi => "StoryboardStyle.HIFI")
    + " available"
  }

  // ---------------------------------------------------------------------------
  // Labels and ids

  /**
   * The label a version gets when it is locked: an unlocked `sb_v{m}`
   * becomes `sb_v{m}_locked`; an already locked `sb_v{m}_locked` becomes
   * `sb_v{m+1}_locked`.
   */
  function IncrementMajorVersion(l: Label): (r: Label)
    ensures r.locked
    ensures r.major == l.major <==> !l.locked
    ensures l.major <= r.major <= l.major + 1
  {
    if l.locked then Label(l.major + 1, true) else Label(l.major, true)
  }

  /** The two label rewrites, as text. */
  lemma LockLabelText(m: nat)
    ensures RenderLabel(IncrementMajorVersion(Label(m, false))) == "sb_v" + NatToString(m) + "_locked"
    ensures RenderLabel(IncrementMajorVersion(Label(m, true))) == "sb_v" + NatToString(m + 1) + "_locked"
  {
  }

  /** The label after locking `k` times in a row. */
  function LockTimes(l: Label, k: nat): Label {
    if k == 0 then l else IncrementMajorVersion(LockTimes(l, k - 1))
  }

  /**
   * Locking k >= 1 times leaves the label locked; the first lock of an
   * unlocked label keeps its number and every further lock adds one.
   */
  lemma {:induction false} RepeatedLocking(l: Label, k: nat)
    requires k >= 1
    ensures LockTimes(l, k) == Label(if l.locked then l.major + k else l.major + k - 1, true)
  {
    if k > 1 {
      RepeatedLocking(l, k - 1);
    }
  }

  /** The id of a new pencil storyboard when `registered` versions exist. */
  function NextStoryboardId(registered: nat): (id: string)
    ensures |id| > 3 && id[..3] == "sb_" && AllDigits(id[3..])
    ensures DigitsValue(id[3..]) == registered + 1
  {
    DigitsValueOfNatToString(registered + 1);
    var id := "sb_" + NatToString(registered + 1);
    assert id[3..] == NatToString(registered + 1);
    id
  }

  /** Different numbers of registered versions give different storyboard ids. */
  lemma NextStoryboardIdInjective(m: nat, n: nat)
    requires NextStoryboardId(m) == NextStoryboardId(n)
    ensures m == n
  {
    var a, b := NatToString(m + 1), NatToString(n + 1);
    assert a == NextStoryboardId(m)[3..];
    assert b == NextStoryboardId(n)[3..];
    NatToStringInjective(m + 1, n + 1);
  }

  // ---------------------------------------------------------------------------
  // The current version of a style

  /** The position of the most recently registered version of `style`, if any. */
  function LatestIndex(vs: seq<StoryboardVersion>, style: Style): (r: Option<nat>)
    ensures r.Some? ==> r.value < |vs| && vs[r.value].storyboard.style == style
                        && forall j :: r.value < j < |vs| ==> vs[j].storyboard.style != style
    ensures r.None? ==> forall j :: 0 <= j < |vs| ==> vs[j].storyboard.style != style
  {
    if vs == [] then None
    else if vs[|vs| - 1].storyboard.style == style then Some(|vs| - 1)
    else LatestIndex(vs[..|vs| - 1], style)
  }

  /** Registering a version makes it the current one of its style and leaves the other style's alone. */
  lemma LatestAfterAppend(vs: seq<StoryboardVersion>, v: StoryboardVersion, style: Style)
    ensures LatestIndex(vs + [v], style) ==
      if v.storyboard.style == style then Some(|vs|) else LatestIndex(vs, style)
  {
    assert (vs + [v])[..|vs|] == vs;
  }

  // ---------------------------------------------------------------------------
  // The orchestrator

  class AdMockStudioWorkflow {
    const project: Project
    /** The next number the version counter hands out. */
    var versionCounter: nat

    ghost predicate Valid()
      reads this, project
    {
      && versionCounter >= 1
      && DistinctVersions(project.storyboards)
      && FramesUnique(project.storyboards)
    }

    /** Starts a workflow over a project; the version counter starts at 1. */
    constructor (project: Project)
      requires DistinctVersions(project.storyboards) && FramesUnique(project.storyboards)
      ensures Valid() && this.project == project && versionCounter == 1
    {
      this.project := project;
      versionCounter := 1;
    }

    /**
     * What every operation keeps: the storyboards, video outputs and audit
     * log only grow, the counter never goes back, and no version is unlocked.
     */
    twostate predicate Grows()
      reads this, project, project.storyboards
    {
      && old(project.storyboards) <= project.storyboards
      && old(project.videoOutputs) <= project.videoOutputs
      && old(project.auditLog) <= project.auditLog
      && old(versionCounter) <= versionCounter
      && forall i :: 0 <= i < |old(project.storyboards)| && old(project.storyboards[i].locked) ==>
           project.storyboards[i].locked
    }

    /** The frames of the current version of `style` (none if there is none). */
    ghost function LatestFrames(style: Style): seq<Frame>
      reads this, project
    {
      match LatestIndex(project.storyboards, style)
      case Some(k) => project.storyboards[k].storyboard.frames
      case None => []
    }

    /** The current version of `style`, as a set of at most one. */
    ghost function LatestVersion(style: Style): set<StoryboardVersion>
      reads this, project
    {
      match LatestIndex(project.storyboards, style)
      case Some(k) => {project.storyboards[k]}
      case None => {}
    }

    /** A hi-fi render may proceed: brand tokens exist and the current pencil version is locked. */
    ghost predicate CanRenderHifi()
      reads this, project, project.storyboards
    {
      && project.brandTokens.Some?
      && match LatestIndex(project.storyboards, Pencil)
         case Some(k) => project.storyboards[k].locked
         case None => false
    }

    // Step 1 ------------------------------------------------------------------

    method IngestBrand(brand: string, url: string) returns (r: BrandExtractor.BrandExtractionResult)
      requires Valid()
      modifies project`brandTokens, project`auditLog
      ensures Valid() && Grows()
      ensures r == BrandExtractor.Extract(brand, url)
      ensures project.View() == old(project.View()).(
        brandTokens := Some(r.tokens),
        auditLog := old(project.auditLog) + [AuditEvent("BRAND_EXTRACTED", [("url", url)])])
    {
      r := BrandExtractor.Extract(brand, url);
      project.brandTokens := Some(r.tokens);
      project.LogEvent("BRAND_EXTRACTED", [("url", url)]);
    }

    method CaptureBrief(brief: Brief)
      requires Valid()
      modifies project`brief, project`auditLog
      ensures Valid() && Grows()
      ensures project.View() == old(project.View()).(
        brief := Some(brief),
        auditLog := old(project.auditLog) + [AuditEvent("BRIEF_CAPTURED", [("objective", brief.objective)])])
    {
      project.brief := Some(brief);
      project.LogEvent("BRIEF_CAPTURED", [("objective", brief.objective)]);
    }

    /** Creates the pencil concept for the captured brief; a ValueError without a brief. */
    method CreateConcept() returns (r: Result<StoryboardVersion, Error>)
      requires Valid()
      modifies this`versionCounter, project`storyboards, project`auditLog
      ensures Valid() && Grows()
      ensures r.Failure? <==> old(project.brief).None?
      ensures r.Failure? ==> r.error == ValueError(BriefRequired) && unchanged(this, project)
      ensures r.Success? ==>
        var version := r.value;
        var storyboardId := NextStoryboardId(|old(project.storyboards)|);
        && fresh(version)
        && StoryboardGenerator.IsConceptFor(version.storyboard, storyboardId, old(project.brief).value)
        && (forall i :: 0 <= i < |version.storyboard.frames| ==> fresh(version.storyboard.frames[i]))
        && version.version == Label(old(versionCounter), false) && !version.locked
        && versionCounter == old(versionCounter) + 1
        && project.View() == old(project.View()).(
             storyboards := old(project.storyboards) + [version],
             auditLog := old(project.auditLog) + [AuditEvent("STORYBOARD_CREATED", [("storyboard_id", storyboardId)])])
    {
      if project.brief.None? {
        return Failure(ValueError(BriefRequired));
      }
      var brief := project.brief.value;
      var shotList := StoryboardGenerator.GenerateShotList(brief.adLengthSeconds, brief.platform, brief.tone);
      var storyboard := StoryboardGenerator.CreateStoryboard(NextStoryboardId(|project.storyboards|), shotList);
      assert FramesApart(storyboard.frames, project.storyboards);
      var version := RegisterStoryboard(storyboard);
      project.LogEvent("STORYBOARD_CREATED", [("storyboard_id", storyboard.id)]);
      return Success(version);
    }

    // Step 2 ------------------------------------------------------------------

    /** Adds the note to every frame of the current pencil storyboard, once each. */
    method ApplyGlobalEdit(description: string) returns (r: Outcome<Error>)
      requires Valid()
      modifies project`auditLog, LatestFrames(Pencil)
      ensures Valid() && Grows()
      ensures r.Fail? <==> LatestIndex(project.storyboards, Pencil).None?
      ensures r.Fail? ==> r.error == ValueError(NoStoryboardMessage(Pencil)) && unchanged(project)
      ensures r.Pass? ==>
        && (forall f :: f in LatestFrames(Pencil) ==> f.notes == old(f.notes) + [description])
        && project.View() == old(project.View()).(
             auditLog := old(project.auditLog) + [AuditEvent("GLOBAL_EDIT", [("description", description)])])
      ensures forall f :: f in old(project.storyboards) && f !in LatestVersion(Pencil) ==> UneditedFrames(f)
    {
      var found := RequireStoryboardVersion(Pencil);
      if found.Failure? {
        return Fail(found.error);
      }
      var k := LatestIndex(project.storyboards, Pencil).value;
      GlobalEditAt(k, description);
      return Pass;
    }

    /** The global edit once the current pencil version, the k-th, is found. */
    method GlobalEditAt(k: nat, description: string)
      requires Valid() && LatestIndex(project.storyboards, Pencil) == Some(k)
      modifies project`auditLog, project.storyboards[k].storyboard.frames
      ensures Valid() && Grows()
      ensures forall f :: f in project.storyboards[k].storyboard.frames ==> f.notes == old(f.notes) + [description]
      ensures project.View() == old(project.View()).(
        auditLog := old(project.auditLog) + [AuditEvent("GLOBAL_EDIT", [("description", description)])])
      ensures forall f :: f in old(project.storyboards) && f != project.storyboards[k] ==> UneditedFrames(f)
    {
      var storyboard := project.storyboards[k].storyboard;
      UniqueFramesDistinct(project.storyboards, k);
      StoryboardGenerator.ApplyGlobalEdit(storyboard, description);
      OthersApart(k);
      project.LogEvent("GLOBAL_EDIT", [("description", description)]);
    }

    /** Adds the note to the first frame with that id in the current pencil storyboard. */
    method ApplyFrameEdit(frameId: string, description: string) returns (r: Outcome<Error>)
      requires Valid()
      modifies project`auditLog, LatestFrames(Pencil)
      ensures Valid() && Grows()
      ensures match LatestIndex(project.storyboards, Pencil)
        case None => r == Fail(ValueError(NoStoryboardMessage(Pencil))) && unchanged(project)
        case Some(p) =>
          var frames := project.storyboards[p].storyboard.frames;
          match FirstIndex(frames, frameId)
          case None =>
            && r == Fail(KeyError("Frame " + frameId + " not found"))
            && unchanged(project)
            && forall f :: f in frames ==> f.notes == old(f.notes)
          case Some(k) =>
            && r == Pass
            && frames[k].notes == old(frames[k].notes) + [description]
            && (forall j :: 0 <= j < |frames| && j != k ==> frames[j].notes == old(frames[j].notes))
            && project.View() == old(project.View()).(
                 auditLog := old(project.auditLog) + [AuditEvent("FRAME_EDIT", [("frame_id", frameId), ("description", description)])])
      ensures forall f :: f in old(project.storyboards) && f !in LatestVersion(Pencil) ==> UneditedFrames(f)
    {
      var found := RequireStoryboardVersion(Pencil);
      if found.Failure? {
        return Fail(found.error);
      }
      var p := LatestIndex(project.storyboards, Pencil).value;
      r := FrameEditAt(p, frameId, description);
    }

    /** The frame edit once the current pencil version, the p-th, is found. */
    method FrameEditAt(p: nat, frameId: string, description: string) returns (r: Outcome<Error>)
      requires Valid() && LatestIndex(project.storyboards, Pencil) == Some(p)
      modifies project`auditLog, project.storyboards[p].storyboard.frames
      ensures Valid() && Grows()
      ensures var frames := project.storyboards[p].storyboard.frames;
        match FirstIndex(frames, frameId)
        case None =>
          && r == Fail(KeyError("Frame " + frameId + " not found"))
          && unchanged(project)
          && forall f :: f in frames ==> f.notes == old(f.notes)
        case Some(k) =>
          && r == Pass
          && frames[k].notes == old(frames[k].notes) + [description]
          && (forall j :: 0 <= j < |frames| && j != k ==> frames[j].notes == old(frames[j].notes))
          && project.View() == old(project.View()).(
               auditLog := old(project.auditLog) + [AuditEvent("FRAME_EDIT", [("frame_id", frameId), ("description", description)])])
      ensures forall f :: f in old(project.storyboards) && f != project.storyboards[p] ==> UneditedFrames(f)
    {
      var storyboard := project.storyboards[p].storyboard;
      UniqueFramesDistinct(project.storyboards, p);
      OthersApart(p);
      r := StoryboardGenerator.ApplyFrameEdit(storyboard, frameId, description);
      if r.Fail? {
        return r;
      }
      project.LogEvent("FRAME_EDIT", [("frame_id", frameId), ("description", description)]);
    }

    /** Locks the current pencil version and rewrites its label. */
    method LockStoryboard() returns (r: Result<StoryboardVersion, Error>)
      requires Valid()
      modifies project`auditLog, LatestVersion(Pencil)
      ensures Valid() && Grows()
      ensures match LatestIndex(project.storyboards, Pencil)
        case None => r == Failure(ValueError(NoStoryboardMessage(Pencil))) && unchanged(project)
        case Some(k) =>
          var v := project.storyboards[k];
          && r == Success(v)
          && v.locked
          && v.version == IncrementMajorVersion(old(v.version))
          && project.View() == old(project.View()).(
               auditLog := old(project.auditLog) + [AuditEvent("STORYBOARD_LOCKED", [("storyboard_id", v.storyboard.id)])])
      ensures forall i :: 0 <= i < |project.storyboards| && LatestIndex(project.storyboards, Pencil) != Some(i) ==>
        project.storyboards[i].locked == old(project.storyboards[i].locked) &&
        project.storyboards[i].version == old(project.storyboards[i].version)
    {
      r := RequireStoryboardVersion(Pencil);
      if r.Failure? {
        return r;
      }
      var version := r.value;
      version.locked := true;
      version.version := IncrementMajorVersion(version.version);
      project.LogEvent("STORYBOARD_LOCKED", [("storyboard_id", version.storyboard.id)]);
    }

    // Step 3 ------------------------------------------------------------------

    /**
     * Renders the current pencil storyboard in hi-fi and registers it. Fails,
     * in this order of checks, without brand tokens, without a pencil version,
     * or when the current pencil version is unlocked.
     */
    method RenderHifiStoryboard() returns (r: Result<StoryboardVersion, Error>)
      requires Valid()
      modifies this`versionCounter, project`storyboards, project`auditLog
      ensures Valid() && Grows()
      ensures r.Failure? <==> !old(CanRenderHifi())
      ensures old(project.brandTokens).None? ==> r == Failure(ValueError(BrandTokensRequired))
      ensures old(project.brandTokens).Some? && LatestIndex(old(project.storyboards), Pencil).None? ==>
        r == Failure(ValueError(NoStoryboardMessage(Pencil)))
      ensures (old(project.brandTokens).Some? && LatestIndex(old(project.storyboards), Pencil).Some? &&
               !old(CanRenderHifi())) ==> r == Failure(ValueError(LockRequired))
      ensures r.Failure? ==> unchanged(this, project)
      ensures r.Success? ==>
        var version := r.value;
        var pencil := old(project.storyboards)[LatestIndex(old(project.storyboards), Pencil).value].storyboard;
        && fresh(version)
        && StoryboardGenerator.IsHifiRendering(version.storyboard, pencil, old(project.brandTokens).value)
        && (forall i :: 0 <= i < |version.storyboard.frames| ==> fresh(version.storyboard.frames[i]))
        && version.version == Label(old(versionCounter), false) && !version.locked
        && versionCounter == old(versionCounter) + 1
        && project.View() == old(project.View()).(
             storyboards := old(project.storyboards) + [version],
             auditLog := old(project.auditLog) + [AuditEvent("HIFI_RENDERED", [("storyboard_id", version.storyboard.id)])])
    {
      if project.brandTokens.None? {
        return Failure(ValueError(BrandTokensRequired));
      }
      var found := RequireStoryboardVersion(Pencil);
      if found.Failure? {
        return found;
      }
      var pencilVersion := found.value;
      if !pencilVersion.locked {
        return Failure(ValueError(LockRequired));
      }
      var version := AddHifiVersion(pencilVersion.storyboard, project.brandTokens.value);
      return Success(version);
    }

    /** Registers the hi-fi rendering of `pencil` as a new version and logs it. */
    method AddHifiVersion(pencil: Storyboard, tokens: BrandTokens) returns (version: StoryboardVersion)
      requires Valid()
      modifies this`versionCounter, project`storyboards, project`auditLog
      ensures Valid() && Grows() && fresh(version)
      ensures StoryboardGenerator.IsHifiRendering(version.storyboard, pencil, tokens)
      ensures forall i :: 0 <= i < |version.storyboard.frames| ==> fresh(version.storyboard.frames[i])
      ensures version.version == Label(old(versionCounter), false) && !version.locked
      ensures versionCounter == old(versionCounter) + 1
      ensures project.View() == old(project.View()).(
        storyboards := old(project.storyboards) + [version],
        auditLog := old(project.auditLog) + [AuditEvent("HIFI_RENDERED", [("storyboard_id", version.storyboard.id)])])
    {
      var hifi := StoryboardGenerator.HifiRender(pencil, tokens);
      assert FramesApart(hifi.frames, project.storyboards);
      version := RegisterStoryboard(hifi);
      project.LogEvent("HIFI_RENDERED", [("storyboard_id", hifi.id)]);
    }

    // Step 4 ------------------------------------------------------------------

    /** Renders the video of the current hi-fi storyboard and records the output. */
    method RenderVideo(audio: AudioProfile) returns (r: Result<Video.VideoSynthesisResult, Error>)
      requires Valid()
      modifies project`videoOutputs, project`auditLog
      ensures Valid() && Grows()
      ensures match LatestIndex(project.storyboards, Hifi)
        case None => r == Failure(ValueError(NoStoryboardMessage(Hifi))) && unchanged(project)
        case Some(k) =>
          var hifi := project.storyboards[k].storyboard;
          && r == Success(Video.Render(hifi, audio))
          && r.value.video.storyboardId == hifi.id
          && project.View() == old(project.View()).(
               videoOutputs := old(project.videoOutputs) + [r.value.video],
               auditLog := old(project.auditLog) + [AuditEvent("VIDEO_RENDERED", [("storyboard_id", hifi.id)])])
    {
      var found := RequireStoryboardVersion(Hifi);
      if found.Failure? {
        return Failure(found.error);
      }
      var hifiVersion := found.value;
      var result := Video.Render(hifiVersion.storyboard, audio);
      project.videoOutputs := project.videoOutputs + [result.video];
      project.LogEvent("VIDEO_RENDERED", [("storyboard_id", hifiVersion.storyboard.id)]);
      return Success(result);
    }

    // Export ------------------------------------------------------------------

    /**
     * The storyboards handed to the exporter, in registration order. Export
     * changes nothing and logs no event.
     */
    method Export() returns (storyboards: seq<Storyboard>)
      ensures |storyboards| == |project.storyboards|
      ensures forall i :: 0 <= i < |storyboards| ==> storyboards[i] == project.storyboards[i].storyboard
    {
      var versions := project.storyboards;
      storyboards := seq(|versions|, i requires 0 <= i < |versions| => versions[i].storyboard);
    }

    // Helpers -----------------------------------------------------------------

    method RegisterStoryboard(storyboard: Storyboard) returns (version: StoryboardVersion)
      requires Valid()
      requires Distinct(storyboard.frames) && FramesApart(storyboard.frames, project.storyboards)
      modifies this`versionCounter, project`storyboards
      ensures Valid() && fresh(version)
      ensures version.storyboard == storyboard && version.version == Label(old(versionCounter), false)
      ensures !version.locked
      ensures versionCounter == old(versionCounter) + 1
      ensures project.storyboards == old(project.storyboards) + [version]
    {
      var initial := Label(versionCounter, false);
      versionCounter := versionCounter + 1;
      version := new StoryboardVersion(storyboard, initial);
      AppendKeepsFramesUnique(project.storyboards, version);
      project.storyboards := project.storyboards + [version];
    }

    /** Finds the current version of `style` by scanning from the newest; a ValueError if none. */
    method RequireStoryboardVersion(style: Style) returns (r: Result<StoryboardVersion, Error>)
      ensures match LatestIndex(project.storyboards, style)
        case Some(k) => r == Success(project.storyboards[k])
        case None => r == Failure(ValueError(NoStoryboardMessage(style)))
    {
      var versions := project.storyboards;
      var i := |versions|;
      while i > 0
        invariant 0 <= i <= |versions|
        invariant forall j :: i <= j < |versions| ==> versions[j].storyboard.style != style
      {
        i := i - 1;
        if versions[i].storyboard.style == style {
          return Success(versions[i]);
        }
      }
      return Failure(ValueError(NoStoryboardMessage(style)));
    }

    /** The notes of every frame of version `v` are as they were before the call. */
    twostate predicate UneditedFrames(v: StoryboardVersion)
      reads v.storyboard.frames
    {
      forall f :: f in v.storyboard.frames ==> f.notes == old(f.notes)
    }

    /** The frames of every version other than the k-th lie outside the k-th's frames. */
    lemma OthersApart(k: nat)
      requires Valid() && k < |project.storyboards|
      ensures forall i, l ::
        (0 <= i < |project.storyboards| && i != k && 0 <= l < |project.storyboards[i].storyboard.frames|) ==>
        project.storyboards[i].storyboard.frames[l] !in project.storyboards[k].storyboard.frames
    {
      forall i, l | 0 <= i < |project.storyboards| && i != k && 0 <= l < |project.storyboards[i].storyboard.frames|
        ensures project.storyboards[i].storyboard.frames[l] !in project.storyboards[k].storyboard.frames
      {
        UniqueFramesApart(project.storyboards, k, i, l);
      }
    }
  }

  // ---------------------------------------------------------------------------
  // The whole workflow in one run

  /**
   * A concept is a pencil storyboard of five frames, frame "f2" is its second
   * frame, and it lasts as long as the brief asks.
   */
  lemma ConceptShape(storyboard: Storyboard, storyboardId: string, brief: Brief)
    requires StoryboardGenerator.IsConceptFor(storyboard, storyboardId, brief)
    ensures storyboard.style == Pencil && |storyboard.frames| == |StoryboardGenerator.Beats|
    ensures FirstIndex(storyboard.frames, "f2") == Some(1)
    ensures storyboard.TotalDuration() == brief.adLengthSeconds as real
  {
    StoryboardGenerator.ConceptDuration(storyboard, storyboardId, brief);
    StoryboardGenerator.ConceptFrameIndex(storyboard, storyboardId, brief, 2);
    assert DigitChar(2) == '2';
    assert "f" + NatToString(2) == "f2";
  }

  /** The event names of an audit log, in order. */
  function EventNames(log: seq<AuditEvent>): (names: seq<string>)
    ensures |names| == |log| && forall i :: 0 <= i < |log| ==> names[i] == log[i].event
  {
    if log == [] then [] else EventNames(log[..|log| - 1]) + [log[|log| - 1].event]
  }

  /**
   * The four steps in order, for any brand, URL and brief: every stage
   * succeeds, the audit log records one event per stage, the pencil version
   * ends as `sb_v1_locked`, the hi-fi version is the unlocked `sb_v2` whose
   * five frames all carry a hi-fi asset, and the video lasts as long as the
   * brief asks, over five timeline entries.
   */
  method FullWorkflow(brand: string, url: string, brief: Brief)
    returns (events: seq<string>, pencilLabel: Label, hifiLabel: Label, hifiFrames: seq<Frame>,
             videoDuration: real, timelineLength: nat)
    ensures events == ["BRAND_EXTRACTED", "BRIEF_CAPTURED", "STORYBOARD_CREATED", "GLOBAL_EDIT",
                       "FRAME_EDIT", "STORYBOARD_LOCKED", "HIFI_RENDERED", "VIDEO_RENDERED"]
    ensures RenderLabel(pencilLabel) == "sb_v1_locked" && RenderLabel(hifiLabel) == "sb_v2"
    ensures |hifiFrames| == 5 && forall i :: 0 <= i < |hifiFrames| ==>
      hifiFrames[i].hifiAsset.Some? && hifiFrames[i].hifiAsset.value != []
    ensures videoDuration == brief.adLengthSeconds as real && timelineLength == 5
  {
    var project, workflow, pencil := StartWithConcept(brand, url, brief);
    pencilLabel := EditAndLock(workflow, pencil);
    LockLabelText(1);
    var hifi := RenderHifiStep(workflow, pencil);
    hifiLabel := hifi.version;
    hifiFrames := hifi.storyboard.frames;
    videoDuration, timelineLength := RenderVideoStep(workflow, pencil, hifi);
    events := EventNames(project.auditLog);
  }

  /** Step 1 and the concept of step 2 on a new project. */
  method StartWithConcept(brand: string, url: string, brief: Brief)
    returns (project: Project, workflow: AdMockStudioWorkflow, pencil: StoryboardVersion)
    ensures fresh(project) && fresh(workflow) && fresh(pencil)
    ensures workflow.project == project && workflow.Valid() && workflow.versionCounter == 2
    ensures project.brandTokens.Some? && project.videoOutputs == []
    ensures project.storyboards == [pencil] && pencil.version == Label(1, false) && !pencil.locked
    ensures pencil.storyboard.style == Pencil && |pencil.storyboard.frames| == |StoryboardGenerator.Beats|
    ensures forall i :: 0 <= i < |pencil.storyboard.frames| ==> fresh(pencil.storyboard.frames[i])
    ensures FirstIndex(pencil.storyboard.frames, "f2") == Some(1)
    ensures pencil.storyboard.TotalDuration() == brief.adLengthSeconds as real
    ensures EventNames(project.auditLog) == ["BRAND_EXTRACTED", "BRIEF_CAPTURED", "STORYBOARD_CREATED"]
  {
    project, workflow := StartProject(brand, url, brief);
    pencil := ConceptStep(workflow, brief);
  }

  /** Step 1 on a new project: brand tokens and brief captured, nothing else yet. */
  method StartProject(brand: string, url: string, brief: Brief) returns (project: Project, workflow: AdMockStudioWorkflow)
    ensures fresh(project) && fresh(workflow)
    ensures workflow.project == project && workflow.Valid() && workflow.versionCounter == 1
    ensures project.brandTokens.Some? && project.brief == Some(brief)
    ensures project.storyboards == [] && project.videoOutputs == []
    ensures EventNames(project.auditLog) == ["BRAND_EXTRACTED", "BRIEF_CAPTURED"]
  {
    project := new Project("proj_test", "user_test");
    workflow := new AdMockStudioWorkflow(project);
    var _ := workflow.IngestBrand(brand, url);
    workflow.CaptureBrief(brief);
    assert project.auditLog[..1] == [project.auditLog[0]];
  }

  /** The concept of step 2 on a project with a brief and no storyboard yet. */
  method ConceptStep(workflow: AdMockStudioWorkflow, brief: Brief) returns (pencil: StoryboardVersion)
    requires workflow.Valid() && workflow.versionCounter == 1
    requires workflow.project.brief == Some(brief) && workflow.project.storyboards == []
    modifies workflow`versionCounter, workflow.project
    ensures fresh(pencil) && forall i :: 0 <= i < |pencil.storyboard.frames| ==> fresh(pencil.storyboard.frames[i])
    ensures workflow.Valid() && workflow.versionCounter == 2
    ensures workflow.project.brandTokens == old(workflow.project.brandTokens)
    ensures workflow.project.videoOutputs == old(workflow.project.videoOutputs)
    ensures workflow.project.storyboards == [pencil] && pencil.version == Label(1, false) && !pencil.locked
    ensures pencil.storyboard.style == Pencil && |pencil.storyboard.frames| == |StoryboardGenerator.Beats|
    ensures FirstIndex(pencil.storyboard.frames, "f2") == Some(1)
    ensures pencil.storyboard.TotalDuration() == brief.adLengthSeconds as real
    ensures EventNames(workflow.project.auditLog) == EventNames(old(workflow.project.auditLog)) + ["STORYBOARD_CREATED"]
  {
    var log := workflow.project.auditLog;
    var concept := workflow.CreateConcept();
    pencil := concept.value;
    ConceptShape(pencil.storyboard, NextStoryboardId(0), brief);
    LogStep(log, AuditEvent("STORYBOARD_CREATED", [("storyboard_id", NextStoryboardId(0))]), EventNames(log));
  }

  /** The global edit of the only (pencil) version. */
  /** Step 2 after the concept: the global edit, the edit of `f2`, then the lock. */
  method EditAndLock(workflow: AdMockStudioWorkflow, pencil: StoryboardVersion) returns (lockedLabel: Label)
    requires workflow.Valid() && workflow.project.storyboards == [pencil]
    requires pencil.storyboard.style == Pencil && pencil.version == Label(1, false)
    requires FirstIndex(pencil.storyboard.frames, "f2") == Some(1)
    modifies workflow.project, pencil, pencil.storyboard.frames
    ensures workflow.Valid() && workflow.project.storyboards == [pencil]
    ensures pencil.locked && lockedLabel == pencil.version == Label(1, true)
    ensures workflow.project.brandTokens == old(workflow.project.brandTokens)
    ensures workflow.project.videoOutputs == old(workflow.project.videoOutputs)
    ensures EventNames(workflow.project.auditLog)
      == EventNames(old(workflow.project.auditLog)) + ["GLOBAL_EDIT", "FRAME_EDIT", "STORYBOARD_LOCKED"]
  {
    var before := EventNames(workflow.project.auditLog);
    EditAllFrames(workflow, pencil);
    EditSecondFrame(workflow, pencil);
    lockedLabel := LockConcept(workflow, pencil);
    assert EventNames(workflow.project.auditLog) == before + ["GLOBAL_EDIT"] + ["FRAME_EDIT"] + ["STORYBOARD_LOCKED"];
  }

  method EditAllFrames(workflow: AdMockStudioWorkflow, pencil: StoryboardVersion)
    requires workflow.Valid() && workflow.project.storyboards == [pencil] && pencil.storyboard.style == Pencil
    modifies workflow.project, pencil.storyboard.frames
    ensures workflow.Valid() && workflow.project.storyboards == [pencil]
    ensures workflow.project.brandTokens == old(workflow.project.brandTokens)
    ensures workflow.project.videoOutputs == old(workflow.project.videoOutputs)
    ensures EventNames(workflow.project.auditLog) == EventNames(old(workflow.project.auditLog)) + ["GLOBAL_EDIT"]
  {
    var project := workflow.project;
    var log := project.auditLog;
    assert LatestIndex(project.storyboards, Pencil) == Some(0);
    assert workflow.LatestFrames(Pencil) == pencil.storyboard.frames;
    var globalEdit := workflow.ApplyGlobalEdit("Increase brightness across frames");
    LogStep(log, AuditEvent("GLOBAL_EDIT", [("description", "Increase brightness across frames")]), EventNames(log));
  }

  /** The edit of frame "f2" of the only (pencil) version. */
  method EditSecondFrame(workflow: AdMockStudioWorkflow, pencil: StoryboardVersion)
    requires workflow.Valid() && workflow.project.storyboards == [pencil]
    requires pencil.storyboard.style == Pencil && FirstIndex(pencil.storyboard.frames, "f2") == Some(1)
    modifies workflow.project, pencil.storyboard.frames
    ensures workflow.Valid() && workflow.project.storyboards == [pencil]
    ensures workflow.project.brandTokens == old(workflow.project.brandTokens)
    ensures workflow.project.videoOutputs == old(workflow.project.videoOutputs)
    ensures EventNames(workflow.project.auditLog) == EventNames(old(workflow.project.auditLog)) + ["FRAME_EDIT"]
  {
    var project := workflow.project;
    var log := project.auditLog;
    assert LatestIndex(project.storyboards, Pencil) == Some(0);
    assert workflow.LatestFrames(Pencil) == pencil.storyboard.frames;
    var frameEdit := workflow.ApplyFrameEdit("f2", "Add product close-up");
    assert LatestIndex(project.storyboards, Pencil) == Some(0);
    assert frameEdit == Pass;
    LogStep(log, AuditEvent("FRAME_EDIT", [("frame_id", "f2"), ("description", "Add product close-up")]), EventNames(log));
  }

  /** Locking the only (pencil) version, still unlocked, labels it `sb_v1_locked`. */
  method LockConcept(workflow: AdMockStudioWorkflow, pencil: StoryboardVersion) returns (lockedLabel: Label)
    requires workflow.Valid() && workflow.project.storyboards == [pencil]
    requires pencil.storyboard.style == Pencil && pencil.version == Label(1, false)
    modifies workflow.project, pencil
    ensures workflow.Valid() && workflow.project.storyboards == [pencil]
    ensures pencil.locked && lockedLabel == pencil.version == Label(1, true)
    ensures workflow.project.brandTokens == old(workflow.project.brandTokens)
    ensures workflow.project.videoOutputs == old(workflow.project.videoOutputs)
    ensures EventNames(workflow.project.auditLog) == EventNames(old(workflow.project.auditLog)) + ["STORYBOARD_LOCKED"]
  {
    var project := workflow.project;
    var log := project.auditLog;
    assert LatestIndex(project.storyboards, Pencil) == Some(0);
    var locked := workflow.LockStoryboard();
    lockedLabel := locked.value.version;
    LogStep(log, AuditEvent("STORYBOARD_LOCKED", [("storyboard_id", pencil.storyboard.id)]), EventNames(log));
  }

  /** Step 3: the hi-fi rendering of the locked pencil version becomes version 2. */
  method RenderHifiStep(workflow: AdMockStudioWorkflow, pencil: StoryboardVersion) returns (hifi: StoryboardVersion)
    requires workflow.Valid() && workflow.project.storyboards == [pencil] && workflow.versionCounter == 2
    requires workflow.project.brandTokens.Some? && pencil.storyboard.style == Pencil && pencil.locked
    modifies workflow`versionCounter, workflow.project
    ensures workflow.Valid() && workflow.project.storyboards == [pencil, hifi]
    ensures hifi.version == Label(2, false) && hifi.storyboard.style == Hifi
    ensures |hifi.storyboard.frames| == |pencil.storyboard.frames|
    ensures hifi.storyboard.TotalDuration() == pencil.storyboard.TotalDuration()
    ensures forall i :: 0 <= i < |hifi.storyboard.frames| ==>
      hifi.storyboard.frames[i].hifiAsset.Some? && hifi.storyboard.frames[i].hifiAsset.value != []
    ensures EventNames(workflow.project.auditLog) == EventNames(old(workflow.project.auditLog)) + ["HIFI_RENDERED"]
  {
    var project := workflow.project;
    var log := project.auditLog;
    assert LatestIndex(project.storyboards, Pencil) == Some(0);
    var tokens := project.brandTokens.value;
    var rendered := workflow.RenderHifiStoryboard();
    hifi := rendered.value;
    LogStep(log, AuditEvent("HIFI_RENDERED", [("storyboard_id", hifi.storyboard.id)]), EventNames(log));
    StoryboardGenerator.HifiKeepsDuration(hifi.storyboard, pencil.storyboard, tokens);
    forall i | 0 <= i < |hifi.storyboard.frames|
      ensures hifi.storyboard.frames[i].hifiAsset.Some? && hifi.storyboard.frames[i].hifiAsset.value != []
    {
      StoryboardGenerator.HifiFrameKeeps(pencil.storyboard.frames[i].Data(), tokens.brand);
      assert hifi.storyboard.frames[i].Data() == StoryboardGenerator.HifiFrame(pencil.storyboard.frames[i].Data(), tokens.brand);
    }
  }

  /** Step 4: the video of the hi-fi version lasts as long as it and has one timeline entry per frame. */
  method RenderVideoStep(workflow: AdMockStudioWorkflow, pencil: StoryboardVersion, hifi: StoryboardVersion)
    returns (videoDuration: real, timelineLength: nat)
    requires workflow.Valid() && workflow.project.storyboards == [pencil, hifi]
    requires pencil.storyboard.style == Pencil && hifi.storyboard.style == Hifi
    modifies workflow.project
    ensures videoDuration == hifi.storyboard.TotalDuration() && timelineLength == |hifi.storyboard.frames|
    ensures EventNames(workflow.project.auditLog) == EventNames(old(workflow.project.auditLog)) + ["VIDEO_RENDERED"]
  {
    var project := workflow.project;
    var log := project.auditLog;
    LatestAfterAppend([pencil], hifi, Hifi);
    assert LatestIndex(project.storyboards, Hifi) == Some(1);
    var audio := DefaultAudioProfile("neutral", "ambient");
    var video := workflow.RenderVideo(audio);
    LogStep(log, AuditEvent("VIDEO_RENDERED", [("storyboard_id", hifi.storyboard.id)]), EventNames(log));
    Video.RenderOutput(hifi.storyboard, audio);
    videoDuration := video.value.video.duration;
    timelineLength := |video.value.timeline|;
  }

  /** Logging one more event adds its name at the end. */
  lemma LogStep(log: seq<AuditEvent>, e: AuditEvent, names: seq<string>)
    requires EventNames(log) == names
    ensures EventNames(log + [e]) == names + [e.event]
  {
    assert (log + [e])[..|log|] == log;
  }
}
