/**
 * Storyboard services: the fixed five-beat shot list, the pencil storyboard
 * built from it, the in-place note edits, and the pencil-to-hi-fi transform
 * with its on-screen text guideline.
 */
module StoryboardGenerator {
  import opened Wrappers
  import opened Strings
  import opened Models

  const Beats: seq<string> := ["Hook", "Problem", "Solution", "Proof", "CTA"]
  const Narrative := "Problem \U{2192} Solution \U{2192} Proof \U{2192} CTA"
  const Risks: seq<string> := ["Ensure CTA is platform compliant"]
  const AltHooks: seq<string> := ["Alternate hook emphasising emotional benefit"]

  /** The storyboard plan: frames with a narrative, risks and alternate hooks. */
  datatype ShotList = ShotList(narrative: string, frames: seq<Frame>, risks: seq<string>, altHooks: seq<string>)

  // ---------------------------------------------------------------------------
  // Shot list

  /**
   * Splits `totalLength` seconds over `numberOfFrames` frames: an equal share
   * for each frame but the last, which takes what remains (exact arithmetic).
   */
  function DistributeDuration(totalLength: int, numberOfFrames: nat): (ds: seq<real>)
    requires numberOfFrames > 0
    ensures |ds| == numberOfFrames
  {
    var base := totalLength as real / numberOfFrames as real;
    seq(numberOfFrames, i requires 0 <= i < numberOfFrames =>
      if i < numberOfFrames - 1 then base else totalLength as real - base * (numberOfFrames - 1) as real)
  }

  lemma {:induction false} SumOfEqualShares(xs: seq<real>, x: real, n: nat)
    requires n <= |xs| && forall i :: 0 <= i < n ==> xs[i] == x
    ensures Sum(xs[..n]) == n as real * x
  {
    if n > 0 {
      SumOfEqualShares(xs, x, n - 1);
      SumStep(xs, n - 1);
    }
  }

  /** The shares add up to the total length. */
  lemma DistributeDurationSum(totalLength: int, numberOfFrames: nat)
    requires numberOfFrames > 0
    ensures Sum(DistributeDuration(totalLength, numberOfFrames)) == totalLength as real
  {
    var ds := DistributeDuration(totalLength, numberOfFrames);
    var n := numberOfFrames;
    var base := totalLength as real / n as real;
    SumOfEqualShares(ds, base, n - 1);
    SumStep(ds, n - 1);
    assert ds[..n] == ds;
  }

  /** The frame for beat number `idx` (counting from 1), before any edit. */
  function ShotFrame(idx: nat, beat: string, duration: real, platform: string, tone: string): FrameData {
    var frameId := "f" + NatToString(idx);
    FrameData(
      frameId,
      beat,
      beat + " voice over tailored for " + platform + " with " + tone + " tone.",
      beat + " message",
      if beat == "Hook" then "push-in" else "cut",
      duration,
      [],
      Some("assets/pencil/" + frameId + ".png"),
      None,
      Some(if idx > 1 then "warm" else ""))
  }

  /** The frames of the shot list for a brief, one per beat, in beat order. */
  function ShotFrames(briefLength: int, platform: string, tone: string): (fs: seq<FrameData>)
    ensures |fs| == |Beats|
  {
    var durations := DistributeDuration(briefLength, |Beats|);
    seq(|Beats|, i requires 0 <= i < |Beats| => ShotFrame(i + 1, Beats[i], durations[i], platform, tone))
  }

  /**
   * The shot list has five frames f1..f5 on the beats Hook, Problem,
   * Solution, Proof, CTA; only the Hook pushes in; only the first frame has
   * an empty music cue; no frame has notes or a hi-fi asset yet.
   */
  lemma ShotFramesShape(briefLength: int, platform: string, tone: string)
    ensures var fs := ShotFrames(briefLength, platform, tone);
      |fs| == 5 &&
      fs[0].id == "f1" && fs[1].id == "f2" && fs[2].id == "f3" && fs[3].id == "f4" && fs[4].id == "f5" &&
      (forall i :: 0 <= i < 5 ==> fs[i].beat == Beats[i]) &&
      (forall i :: 0 <= i < 5 ==> fs[i].camera == (if i == 0 then "push-in" else "cut")) &&
      fs[0].musicCue == Some("") &&
      (forall i :: 1 <= i < 5 ==> fs[i].musicCue == Some("warm")) &&
      (forall i :: 0 <= i < 5 ==>
        fs[i].notes == [] && fs[i].hifiAsset == None &&
        fs[i].sketchAsset == Some("assets/pencil/" + fs[i].id + ".png"))
  {
    var fs := ShotFrames(briefLength, platform, tone);
    forall i | 1 <= i < 5 ensures Beats[i] != "Hook" {
      assert Beats[i][0] != 'H' || |Beats[i]| != 4;
    }
  }

  /** The frame durations of the shot list add up to the brief's length. */
  lemma ShotFramesDuration(briefLength: int, platform: string, tone: string)
    ensures var fs := ShotFrames(briefLength, platform, tone);
      Sum(seq(|fs|, i requires 0 <= i < |fs| => fs[i].duration)) == briefLength as real
  {
    var fs := ShotFrames(briefLength, platform, tone);
    var ds := DistributeDuration(briefLength, |Beats|);
    assert seq(|fs|, i requires 0 <= i < |fs| => fs[i].duration) == ds;
    DistributeDurationSum(briefLength, |Beats|);
  }

  /** Builds the shot list: one fresh frame per beat. */
  method GenerateShotList(briefLength: int, platform: string, tone: string) returns (s: ShotList)
    ensures s.narrative == Narrative && s.risks == Risks && s.altHooks == AltHooks
    ensures |s.frames| == |Beats| && Distinct(s.frames)
    ensures forall i :: 0 <= i < |s.frames| ==>
      fresh(s.frames[i]) && s.frames[i].Data() == ShotFrames(briefLength, platform, tone)[i]
  {
    var durations := DistributeDuration(briefLength, |Beats|);
    var frames: seq<Frame> := [];
    for i := 0 to |Beats|
      invariant |frames| == i && Distinct(frames)
      invariant forall j :: 0 <= j < i ==>
        fresh(frames[j]) && frames[j].Data() == ShotFrame(j + 1, Beats[j], durations[j], platform, tone)
    {
      var frame := new Frame(ShotFrame(i + 1, Beats[i], durations[i], platform, tone));
      frames := frames + [frame];
    }
    s := ShotList(Narrative, frames, Risks, AltHooks);
  }

  /** The pencil storyboard made from a shot list. */
  function CreateStoryboard(storyboardId: string, shotList: ShotList): (s: Storyboard)
    ensures s.id == storyboardId && s.style == Pencil
    ensures s.TotalDuration() == Sum(Durations(shotList.frames))
  {
    Storyboard(storyboardId, Pencil, shotList.frames, shotList.narrative, shotList.risks, shotList.altHooks)
  }

  /** `storyboard` is the pencil storyboard created with this id for this brief. */
  ghost predicate IsConceptFor(storyboard: Storyboard, storyboardId: string, brief: Brief)
    reads storyboard.frames
  {
    var fs := ShotFrames(brief.adLengthSeconds, brief.platform, brief.tone);
    && storyboard.id == storyboardId
    && storyboard.style == Pencil
    && storyboard.narrative == Narrative && storyboard.risks == Risks && storyboard.altHooks == AltHooks
    && |storyboard.frames| == |fs|
    && forall i :: 0 <= i < |fs| ==> storyboard.frames[i].Data() == fs[i]
  }

  /** A concept for a brief lasts exactly as long as the brief asks. */
  lemma ConceptDuration(storyboard: Storyboard, storyboardId: string, brief: Brief)
    requires IsConceptFor(storyboard, storyboardId, brief)
    ensures storyboard.TotalDuration() == brief.adLengthSeconds as real
  {
    var fs := ShotFrames(brief.adLengthSeconds, brief.platform, brief.tone);
    forall i | 0 <= i < |fs| ensures storyboard.frames[i].duration == fs[i].duration {
      assert storyboard.frames[i].Data() == fs[i];
    }
    assert Durations(storyboard.frames) == seq(|fs|, i requires 0 <= i < |fs| => fs[i].duration);
    ShotFramesDuration(brief.adLengthSeconds, brief.platform, brief.tone);
  }

  /** In a concept, the first frame with id `f{k}` is the k-th frame. */
  lemma ConceptFrameIndex(storyboard: Storyboard, storyboardId: string, brief: Brief, k: nat)
    requires IsConceptFor(storyboard, storyboardId, brief) && 1 <= k <= |Beats|
    ensures FirstIndex(storyboard.frames, "f" + NatToString(k)) == Some(k - 1)
  {
    var fs := ShotFrames(brief.adLengthSeconds, brief.platform, brief.tone);
    var frames := storyboard.frames;
    var frameId := "f" + NatToString(k);
    assert frames[k - 1].Data() == fs[k - 1];
    forall j | 0 <= j < k - 1 ensures frames[j].id != frameId {
      assert frames[j].Data() == fs[j];
      DigitsValueOfNatToString(j + 1);
      DigitsValueOfNatToString(k);
      assert frames[j].id[1..] == NatToString(j + 1) && frameId[1..] == NatToString(k);
    }
  }

  // ---------------------------------------------------------------------------
  // Edits

  /** `n` copies of one note. */
  function Repeat(note: string, n: nat): (r: seq<string>)
    ensures |r| == n && forall i :: 0 <= i < n ==> r[i] == note
  {
    seq(n, _ => note)
  }

  /**
   * Appends the description to the notes of every frame, in frame order. A
   * frame object listed k times gets k copies; frames of a generated
   * storyboard are distinct, so each gets exactly one (EditReachesEachFrameOnce).
   */
  method ApplyGlobalEdit(storyboard: Storyboard, description: string)
    modifies storyboard.frames
    ensures forall f :: f in storyboard.frames ==>
      f.notes == old(f.notes) + Repeat(description, multiset(storyboard.frames)[f])
    ensures Distinct(storyboard.frames) ==>
      forall f :: f in storyboard.frames ==> f.notes == old(f.notes) + [description]
  {
    var frames := storyboard.frames;
    for i := 0 to |frames|
      invariant forall f :: f in frames ==>
        f.notes == old(f.notes) + Repeat(description, multiset(frames[..i])[f])
    {
      assert frames[..i + 1] == frames[..i] + [frames[i]];
      frames[i].ApplyEdit(description);
    }
    assert frames[..|frames|] == frames;
    if Distinct(frames) {
      forall f | f in frames ensures multiset(frames)[f] == 1 {
        EditReachesEachFrameOnce(frames, f);
      }
    }
  }

  /** In a storyboard without repeated frame objects each frame occurs once. */
  lemma {:induction false} EditReachesEachFrameOnce(frames: seq<Frame>, f: Frame)
    requires Distinct(frames) && f in frames
    ensures multiset(frames)[f] == 1
  {
    var last := frames[|frames| - 1];
    var init := frames[..|frames| - 1];
    assert frames == init + [last];
    if f == last {
      assert f !in init;
    } else {
      assert f in init;
      EditReachesEachFrameOnce(init, f);
    }
  }


  /**
   * Appends the description to the notes of the first frame with the given
   * id; a KeyError, and no change, when no frame has it.
   */
  method ApplyFrameEdit(storyboard: Storyboard, frameId: string, description: string) returns (r: Outcome<Error>)
    modifies storyboard.frames
    ensures match FirstIndex(storyboard.frames, frameId)
      case None =>
        && r == Fail(KeyError("Frame " + frameId + " not found"))
        && forall f :: f in storyboard.frames ==> f.notes == old(f.notes)
      case Some(k) =>
        && r == Pass
        && storyboard.frames[k].notes == old(storyboard.frames[k].notes) + [description]
        && forall f :: f in storyboard.frames && f != storyboard.frames[k] ==> f.notes == old(f.notes)
  {
    var found := storyboard.GetFrame(frameId);
    match found
    case Failure(e) =>
      return Fail(e);
    case Success(frame) =>
      frame.ApplyEdit(description);
      return Pass;
  }

  // ---------------------------------------------------------------------------
  // Hi-fi rendering

  const MaxWords := 7
  const Ellipsis := "\U{2026}"

  /**
   * Keeps on-screen text of at most seven words as it is; longer text is cut
   * to its first seven words, an ellipsis and a note naming the brand.
   */
  function ApplyTextGuidelines(text: string, brand: string): (r: string)
    ensures |Words(text)| > MaxWords ==>
      |r| >= |TrimNote(brand)| && r[|r| - |TrimNote(brand)|..] == TrimNote(brand)
  {
    var words := Words(text);
    if |words| > MaxWords then Join(words[..MaxWords]) + Ellipsis + TrimNote(brand)
    else text
  }

  /** The note that follows trimmed text. */
  function TrimNote(brand: string): string {
    " (trimmed to match " + brand + " guidelines)"
  }

  /** The fixed words before the brand join back into the head of the note. */
  lemma TrimNoteHeadJoin()
    ensures " (trimmed to match" == " " + Join(["(trimmed", "to", "match"])
  {
    var fixed := ["(trimmed", "to", "match"];
    assert Join(fixed[2..]) == "match";
    assert Join(fixed[1..]) == "to" + " " + "match";
  }

  /** None of the fixed words before the brand contains whitespace. */
  lemma TrimNoteHeadAreWords()
    ensures IsWord("(trimmed") && IsWord("to") && IsWord("match")
  {
  }

  lemma TrimNoteHeadWords()
    ensures Words(" (trimmed to match") == ["(trimmed", "to", "match"]
  {
    var fixed := ["(trimmed", "to", "match"];
    TrimNoteHeadAreWords();
    assert forall k :: 0 <= k < |fixed| ==> IsWord(fixed[k]);
    TrimNoteHeadJoin();
    WordsOfSpaceThen(Join(fixed));
    WordsOfJoin(fixed);
  }

  lemma GuidelinesWord()
    ensures Words(" guidelines)") == ["guidelines)"]
  {
    var w := "guidelines)";
    assert IsWord(w);
    WordsOfSpaceThen(w);
    WordsOfWord(w);
  }

  lemma TrimNoteTailWords(brand: string)
    ensures Words(" " + brand + " guidelines)") == Words(brand) + ["guidelines)"]
  {
    var front := " " + brand;
    var back := " guidelines)";
    assert MeetAtSpace(front, back);
    WordsAppend(front, back);
    WordsOfSpaceThen(brand);
    GuidelinesWord();
  }

  /** The note appended to trimmed text splits into its fixed words around the brand's words. */
  lemma TrimNoteWords(brand: string)
    ensures Words(TrimNote(brand)) == ["(trimmed", "to", "match"] + Words(brand) + ["guidelines)"]
  {
    var head := " (trimmed to match";
    var tail := " " + brand + " guidelines)";
    assert TrimNote(brand) == head + tail;
    WordsAppend(head, tail);
    TrimNoteHeadWords();
    TrimNoteTailWords(brand);
  }

  /** The first seven words joined, with the ellipsis on the seventh. */
  lemma {:induction false} TrimmedHeadWords(ws: seq<string>)
    requires |ws| > MaxWords && forall k :: 0 <= k < |ws| ==> IsWord(ws[k])
    ensures Words(Join(ws[..MaxWords]) + Ellipsis) == ws[..6] + [ws[6] + Ellipsis]
  {
    var kept := ws[..6] + [ws[6] + Ellipsis];
    JoinSnoc(ws[..6], ws[6]);
    JoinSnoc(ws[..6], ws[6] + Ellipsis);
    assert ws[..7] == ws[..6] + [ws[6]];
    assert Join(ws[..7]) + Ellipsis == Join(kept);
    assert IsWord(ws[6] + Ellipsis) by {
      assert IsWord(ws[6]);
      assert !IsSpace(Ellipsis[0]);
    }
    WordsOfJoin(kept);
  }

  /** Text of at most seven words is kept as it is. */
  lemma ShortTextKept(text: string, brand: string)
    requires |Words(text)| <= MaxWords
    ensures ApplyTextGuidelines(text, brand) == text
  {
  }

  /**
   * Longer text keeps its first six words, its seventh word gets the
   * ellipsis, and the brand note follows.
   */
  lemma TextGuidelinesWords(text: string, brand: string)
    requires |Words(text)| > MaxWords
    ensures var ws := Words(text);
      Words(ApplyTextGuidelines(text, brand)) ==
        ws[..6] + [ws[6] + Ellipsis] + ["(trimmed", "to", "match"] + Words(brand) + ["guidelines)"]
  {
    var ws := Words(text);
    var head := Join(ws[..MaxWords]) + Ellipsis;
    var note := TrimNote(brand);
    var kept := ws[..6] + [ws[6] + Ellipsis];
    var fixed := ["(trimmed", "to", "match"];
    assert note[0] == ' ';
    calc {
      Words(ApplyTextGuidelines(text, brand));
      Words(head + note);
      { WordsAppend(head, note); }
      Words(head) + Words(note);
      { WordsAreWords(text); TrimmedHeadWords(ws); TrimNoteWords(brand); }
      kept + (fixed + Words(brand) + ["guidelines)"]);
      kept + fixed + Words(brand) + ["guidelines)"];
    }
  }

  /** A frame as the hi-fi renderer draws it for `brand`. */
  function HifiFrame(f: FrameData, brand: string): (r: FrameData)
    ensures r.hifiAsset.Some? && r.hifiAsset.value != []
    ensures r.musicCue.Some? && r.musicCue.value != []
  {
    f.(onScreenText := ApplyTextGuidelines(f.onScreenText, brand),
       hifiAsset := Some("assets/hifi/" + f.id + "_" + brand + ".png"),
       musicCue := if f.musicCue == None || f.musicCue == Some("") then Some("brand_theme") else f.musicCue)
  }

  /**
   * A hi-fi frame keeps everything that times and identifies the pencil
   * frame, always has a hi-fi asset and a non-empty music cue, and keeps a
   * music cue that was already set.
   */
  lemma HifiFrameKeeps(f: FrameData, brand: string)
    ensures var h := HifiFrame(f, brand);
      && h.id == f.id && h.beat == f.beat && h.voiceOver == f.voiceOver && h.camera == f.camera
      && h.duration == f.duration && h.notes == f.notes && h.sketchAsset == f.sketchAsset
      && h.hifiAsset.Some? && h.hifiAsset.value != []
      && h.musicCue.Some? && h.musicCue.value != []
      && (f.musicCue.Some? && f.musicCue.value != [] ==> h.musicCue == f.musicCue)
  {
  }

  /** `hifi` is the hi-fi rendering of `pencil` for `tokens`, over fresh frame objects. */
  ghost predicate IsHifiRendering(hifi: Storyboard, pencil: Storyboard, tokens: BrandTokens)
    reads hifi.frames, pencil.frames
  {
    && hifi.id == pencil.id + "-hifi"
    && hifi.style == Hifi
    && hifi.narrative == pencil.narrative && hifi.risks == pencil.risks && hifi.altHooks == pencil.altHooks
    && |hifi.frames| == |pencil.frames|
    && forall i :: 0 <= i < |hifi.frames| ==> hifi.frames[i].Data() == HifiFrame(pencil.frames[i].Data(), tokens.brand)
  }

  /** Renders a storyboard in hi-fi: new frame objects, the input untouched. */
  method HifiRender(storyboard: Storyboard, tokens: BrandTokens) returns (r: Storyboard)
    ensures IsHifiRendering(r, storyboard, tokens)
    ensures Distinct(r.frames) && forall i :: 0 <= i < |r.frames| ==> fresh(r.frames[i])
  {
    var frames: seq<Frame> := [];
    for i := 0 to |storyboard.frames|
      invariant |frames| == i && Distinct(frames)
      invariant forall j :: 0 <= j < i ==>
        fresh(frames[j]) && frames[j].Data() == HifiFrame(storyboard.frames[j].Data(), tokens.brand)
    {
      var frame := new Frame(HifiFrame(storyboard.frames[i].Data(), tokens.brand));
      frames := frames + [frame];
    }
    r := Storyboard(storyboard.id + "-hifi", Hifi, frames, storyboard.narrative, storyboard.risks, storyboard.altHooks);
  }

  /** Hi-fi rendering keeps the frame count and every frame duration, so the total too. */
  lemma HifiKeepsDuration(hifi: Storyboard, pencil: Storyboard, tokens: BrandTokens)
    requires IsHifiRendering(hifi, pencil, tokens)
    ensures Durations(hifi.frames) == Durations(pencil.frames)
    ensures hifi.TotalDuration() == pencil.TotalDuration()
  {
    forall i | 0 <= i < |hifi.frames|
      ensures hifi.frames[i].duration == pencil.frames[i].duration
    {
      assert hifi.frames[i].Data().duration == pencil.frames[i].Data().duration;
    }
  }
}
