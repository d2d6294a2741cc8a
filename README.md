# AdMock Studio workflow in Dafny

AdMock Studio turns a brand and a creative brief into an advertising video in
four steps:

1. Ingest the brand and capture the brief.
2. Create a pencil storyboard concept, edit it, and lock it.
3. Render the locked concept as a hi-fi storyboard.
4. Render the video.

This project models the orchestrator of those steps (`AdMockStudioWorkflow`)
over its `Project` aggregate, and the deterministic services it calls:

- the brand extractor;
- the shot-list and storyboard generator with its note edits;
- the hi-fi renderer with its seven-word on-screen text rule;
- the video synthesizer.

Modules:

- `Wrappers` (`wrappers.dfy`): `Option`, `Result` and `Outcome`.
- `Strings` (`strings.dfy`): the Python string behaviour the core relies on:
  - decimal text and `int()`;
  - `in`;
  - `rstrip('/')`;
  - `split()` and `" ".join`.
- `Models` (`models.dfy`): the artifacts.
  - `Frame`, `StoryboardVersion` and `Project` are classes, because the program updates them in place (notes, label and lock flag, the project's slots and lists).
  - Storyboards, briefs, brand tokens, video outputs and audit events are datatypes.
  - A storyboard holds references to its frames.
  - Version labels are the structured `Label(major, locked)`. `RenderLabel` writes it as `sb_v{major}` or `sb_v{major}_locked`, and `ParseLabel` reads it back.
- `BrandExtractor`, `StoryboardGenerator`, `Video`: the services.
- `Workflow` (`workflow.dfy`): the orchestrator class, then the whole four-step run.
  - The orchestrator's field `versionCounter` stands for the registration counter.
  - The invariant `Valid()` says three things: the counter is positive, no version object is registered twice, and no frame object belongs to two registered storyboards. The last one is why an edit of the current pencil storyboard reaches no other version.
  - The two-state predicate `Grows()` says what every operation keeps: storyboards, video outputs and the audit log only grow, the counter never goes back, and no version is ever unlocked.

Every stage that can fail returns a `Failure` (or `Fail`) value carrying the
Python exception it would raise:

- `ValueError` for a missing brief, missing brand tokens, an unlocked pencil version, or no version of a style;
- `KeyError` for an unknown frame id.

A failing stage leaves the project unchanged. A stage that succeeds appends
exactly one audit event with its fixed name.

Locking rewrites the version label as `_increment_major_version` does:

- The first lock keeps the number: `sb_v{m}` becomes `sb_v{m}_locked` (src/admock/workflow.py:143-144).
- Each further lock adds one: `sb_v{m}_locked` becomes `sb_v{m+1}_locked` (src/admock/workflow.py:139-142).

Durations are exact `real`s. Python's `round(…, 2)` is not applied.

## Model

| member | source | states |
|---|---|---|
| Models.Frame.constructor | src/admock/models.py:44-57 | A new frame holds exactly the given field values. |
| Models.Frame.ApplyEdit | src/admock/models.py:59-62 | The description becomes the last note and the earlier notes are unchanged. |
| Models.Storyboard.TotalDuration | src/admock/models.py:76-80 | The total is non-negative when every frame duration is. It reads no mutable state, because a frame's duration is a `const` and only its notes are `var`. So note edits never change a storyboard's total. |
| Models.Storyboard.GetFrame | src/admock/models.py:82-86 | Returns the frame at the first index whose id matches. Fails with `KeyError("Frame {id} not found")` exactly when no frame matches. |
| Models.FirstIndex | src/admock/models.py:82-86 | The index found holds the id and no earlier frame does. No index is found only when no frame holds the id. |
| Models.ParseRenderLabel | src/admock/workflow.py:123 | Every version label, written as `sb_v{n}` or `sb_v{n}_locked`, reads back as itself. |
| Models.RenderLabelInjective | src/admock/workflow.py:123 | Different labels are written as different strings. |
| Models.StoryboardVersion.constructor | src/admock/models.py:89-96 | A new version holds its storyboard and label and is unlocked by default. |
| Models.AppendKeepsFramesUnique | src/admock/workflow.py:122-126 | Registering a storyboard whose frames are distinct and new keeps every frame in exactly one storyboard. |
| Models.Project.constructor | src/admock/models.py:120-130 | A new project has its id and owner, no brand tokens, no brief, and empty storyboards, video outputs and audit log. |
| Models.Project.LogEvent | src/admock/models.py:132-133 | The audit log grows by exactly one entry carrying the event name and payload. Earlier entries are untouched. |
| Strings.DigitsValueOfNatToString | src/admock/workflow.py:141-144 | Reading the decimal text of a number back with `int()` gives the number. |
| Strings.NatToStringInjective | src/admock/workflow.py:146-147 | Different numbers have different decimal texts. |
| Strings.RStripSlashes | src/admock/services/brand_extractor.py:53 | `rstrip('/')` returns a prefix that does not end in `/`, and only slashes were removed. |
| Strings.WordsAreWords | src/admock/services/storyboard_generator.py:110 | Every piece `split()` returns is non-empty and contains no whitespace. |
| Strings.WordsAppend | src/admock/services/storyboard_generator.py:110 | Two texts that meet at whitespace split into the words of the first followed by the words of the second. |
| Strings.WordsOfJoin | src/admock/services/storyboard_generator.py:112 | Splitting the space-join of words gives the same words back. |
| StoryboardGenerator.DistributeDuration | src/admock/services/storyboard_generator.py:75-77 | Gives exactly one share per frame. DistributeDurationSum states that the shares add up to the total. |
| StoryboardGenerator.DistributeDurationSum | src/admock/services/storyboard_generator.py:75-77 | The shares `total/n` (first n-1 frames) and `total - (n-1)·total/n` (last frame) add up to the total, in exact arithmetic. |
| StoryboardGenerator.ShotFramesShape | src/admock/services/storyboard_generator.py:33-49 | The shot list has exactly five frames, `f1`..`f5`, on the beats Hook, Problem, Solution, Proof, CTA in order. Only Hook gets `push-in`, the others `cut`. The music cue is empty on the first frame and `warm` after it. The sketch is `assets/pencil/{id}.png`. Frames start with no notes and no hi-fi asset. |
| StoryboardGenerator.ShotFramesDuration | src/admock/services/storyboard_generator.py:34-45 | The shot-list frame durations add up to the brief length. |
| StoryboardGenerator.GenerateShotList | src/admock/services/storyboard_generator.py:30-55 | Returns the fixed narrative, risks and hooks, plus one new, distinct frame per beat holding the shot-list frame data. |
| StoryboardGenerator.CreateStoryboard | src/admock/services/storyboard_generator.py:57-65 | The created storyboard has the given id and style PENCIL. It lasts as long as its shot-list frames together. |
| StoryboardGenerator.ConceptDuration | src/admock/services/storyboard_generator.py:57-65 | A pencil storyboard created for a brief lasts exactly `ad_length_seconds`. |
| StoryboardGenerator.ConceptFrameIndex | src/admock/services/storyboard_generator.py:36-37 | In a created concept, the first frame with id `f{k}` is the k-th frame. |
| StoryboardGenerator.ApplyGlobalEdit | src/admock/services/storyboard_generator.py:67-69 | Every frame gets the description appended once for each time it is listed. When the frames are distinct, each gets it exactly once. Nothing else changes. |
| StoryboardGenerator.EditReachesEachFrameOnce | src/admock/services/storyboard_generator.py:68-69 | In a list of distinct frames, each frame occurs exactly once, so the loop edits it once. |
| StoryboardGenerator.ApplyFrameEdit | src/admock/services/storyboard_generator.py:71-73 | Appends the description to the first frame with the id and to no other frame. Fails with `KeyError`, changing nothing, exactly when the id is absent. |
| StoryboardGenerator.ApplyTextGuidelines | src/admock/services/storyboard_generator.py:108-114 | Text of more than seven words comes back ending with ` (trimmed to match {brand} guidelines)`. ShortTextKept and TextGuidelinesWords state the rest. |
| StoryboardGenerator.ShortTextKept | src/admock/services/storyboard_generator.py:108-114 | Text of at most seven whitespace-separated words is returned unchanged. |
| StoryboardGenerator.TextGuidelinesWords | src/admock/services/storyboard_generator.py:108-114 | Longer text becomes its first six words, then the seventh word followed by `…`, then the words of ` (trimmed to match {brand} guidelines)`. |
| StoryboardGenerator.TrimNoteWords | src/admock/services/storyboard_generator.py:113 | The note after trimmed text splits into `(trimmed`, `to`, `match`, the brand's words, and `guidelines)`. |
| StoryboardGenerator.HifiFrame | src/admock/services/storyboard_generator.py:86-97 | Every hi-fi frame has a non-empty hi-fi asset and a non-empty music cue. |
| StoryboardGenerator.HifiFrameKeeps | src/admock/services/storyboard_generator.py:86-97 | A hi-fi frame keeps the id, beat, voice-over, camera, duration, notes and sketch. It has a non-empty hi-fi asset and a non-empty music cue. A cue that was already set is kept. |
| StoryboardGenerator.HifiRender | src/admock/services/storyboard_generator.py:83-106 | The output has id `{id}-hifi`, style HIFI, and the same narrative, risks and hooks. It has new, distinct frame objects, one per input frame in order, each the hi-fi frame of its pencil frame. |
| StoryboardGenerator.HifiKeepsDuration | src/admock/services/storyboard_generator.py:92 | Hi-fi rendering keeps every frame duration, so the total duration too. |
| Video.Render | src/admock/services/video.py:22-43 | The output names the rendered storyboard and has one voice-over per variant. The timeline has one entry per frame. RenderOutput states the full output. |
| Video.RenderOutput | src/admock/services/video.py:22-43 | The output names the storyboard id, uses `renders/{id}.mp4` and `renders/{id}.srt`, lists the three voice-over variants in order, and lasts the storyboard's total duration. The timeline copies each frame's id, duration and camera in frame order. |
| Video.TimelineSteps | src/admock/services/video.py:24-32 | The first entry starts at 0, and each next entry starts where the previous one ends (prefix sums). |
| Video.TimelineStartsNonDecreasing | src/admock/services/video.py:27 | With non-negative durations, start offsets never decrease. |
| Video.TimelineEndsWithVideo | src/admock/services/video.py:23-32 | The last entry ends exactly at the video's duration. |
| BrandExtractor.Extract | src/admock/services/brand_extractor.py:58-60 | The tokens carry the brand and URL exactly as given. |
| BrandExtractor.InferPalette | src/admock/services/brand_extractor.py:73-78 | Every palette, eco, luxury or default, defines exactly `primary`, `secondary` and `accent`. |
| BrandExtractor.InferTypography | src/admock/services/brand_extractor.py:80-85 | Every typography defines exactly `heading` and `body`. |
| BrandExtractor.PaletteChoice | src/admock/services/brand_extractor.py:73-78 | An `eco` URL gets the green palette even when it also names `lux` or `premium`. Otherwise `lux` or `premium` gets the luxury palette, and anything else gets the defaults. The palette equals the defaults exactly in that last case. |
| BrandExtractor.TypographyChoice | src/admock/services/brand_extractor.py:80-85 | Typography follows the same priority as the palette. |
| BrandExtractor.WarningsExactlyOnDefaults | src/admock/services/brand_extractor.py:66-70 | Each warning appears exactly when its default is used. So the warnings are empty exactly when the URL names `eco`, `lux` or `premium`, and otherwise both appear, palette first. |
| BrandExtractor.LogoUrl | src/admock/services/brand_extractor.py:53 | The logo URL is the URL with all trailing slashes removed, followed by `/assets/logo.svg`. |
| BrandExtractor.VoiceTone | src/admock/services/brand_extractor.py:55 | The tone is `confident, playful` exactly when the URL contains `play`, and `modern, helpful` otherwise. |
| Workflow.IncrementMajorVersion | src/admock/workflow.py:138-144 | The label is always locked afterwards. The number stays the same exactly when the label was unlocked, and otherwise grows by one. |
| Workflow.NextStoryboardId | src/admock/workflow.py:146-147 | The id is `sb_` followed by decimal digits that read back as the registered count plus one. |
| Workflow.LockLabelText | src/admock/workflow.py:138-144 | Locking `sb_v{m}` gives `sb_v{m}_locked`, and locking `sb_v{m}_locked` gives `sb_v{m+1}_locked`. |
| Workflow.RepeatedLocking | src/admock/workflow.py:138-144 | After k >= 1 locks the label is locked. Its number is the original one plus k, or plus k-1 when the label started unlocked. |
| Workflow.NextStoryboardIdInjective | src/admock/workflow.py:146-147 | `sb_{n+1}` ids minted at different version counts differ. |
| Workflow.LatestIndex | src/admock/workflow.py:132-136 | The index found is the last version of the style. No index is found exactly when no version has the style. |
| Workflow.LatestAfterAppend | src/admock/workflow.py:122-136 | After a registration, the new version is the current one of its style, and the current version of the other style is unchanged. |
| Workflow.AdMockStudioWorkflow.constructor | src/admock/workflow.py:39-47 | A workflow starts over its project with the counter at 1. |
| Workflow.AdMockStudioWorkflow.IngestBrand | src/admock/workflow.py:50-55 | Returns the extraction result, stores its tokens, and logs `BRAND_EXTRACTED{url}`. Nothing else changes. |
| Workflow.AdMockStudioWorkflow.CaptureBrief | src/admock/workflow.py:57-59 | Stores the brief and logs `BRIEF_CAPTURED{objective}`. Nothing else changes. |
| Workflow.AdMockStudioWorkflow.CreateConcept | src/admock/workflow.py:61-73 | Fails with `ValueError` exactly when no brief was captured, and then nothing changes. Otherwise it appends one new unlocked version labelled `sb_v{counter}` and advances the counter. The version's storyboard is the pencil concept for the brief with id `sb_{n+1}`. It logs `STORYBOARD_CREATED`. |
| Workflow.AdMockStudioWorkflow.ApplyGlobalEdit | src/admock/workflow.py:76-79 | Fails with `ValueError` exactly when no pencil version exists, and then nothing changes. Otherwise every frame of the current pencil storyboard gets the note once, frames of other versions are untouched, and `GLOBAL_EDIT` is logged. |
| Workflow.AdMockStudioWorkflow.GlobalEditAt | src/admock/workflow.py:77-79 | The global edit of the current pencil version once found: the note on each of its frames, one event, no other version touched. |
| Workflow.AdMockStudioWorkflow.ApplyFrameEdit | src/admock/workflow.py:81-84 | With no pencil version, fails with `ValueError`. With an unknown frame id, fails with `KeyError`. In both cases nothing changes. Otherwise only the first frame with the id gets the note, and `FRAME_EDIT` is logged. |
| Workflow.AdMockStudioWorkflow.FrameEditAt | src/admock/workflow.py:82-84 | The frame edit of the current pencil version once found, with the same outcomes. |
| Workflow.AdMockStudioWorkflow.LockStoryboard | src/admock/workflow.py:86-91 | Fails with `ValueError`, changing nothing, when no pencil version exists. Otherwise the current pencil version becomes locked and its label is rewritten by the lock rule. No other version's flag or label changes. `STORYBOARD_LOCKED` is logged. |
| Workflow.AdMockStudioWorkflow.RenderHifiStoryboard | src/admock/workflow.py:94-104 | Fails exactly when brand tokens are missing, no pencil version exists, or the current pencil version is unlocked. Those checks run in that order, each with its own message, before anything changes. Otherwise it appends one new unlocked hi-fi version (the rendering of the current pencil storyboard), labels it `sb_v{counter}`, advances the counter, and logs `HIFI_RENDERED`. |
| Workflow.AdMockStudioWorkflow.AddHifiVersion | src/admock/workflow.py:100-104 | Registers the hi-fi rendering as a new unlocked version with the next label and logs one event. |
| Workflow.AdMockStudioWorkflow.RenderVideo | src/admock/workflow.py:107-113 | Fails with `ValueError`, changing nothing, exactly when no hi-fi version exists. Otherwise returns the render of the current hi-fi storyboard, appends its output to `video_outputs`, and logs `VIDEO_RENDERED`. |
| Workflow.AdMockStudioWorkflow.Export | src/admock/workflow.py:116-119 | Hands over the registered storyboards in order, and changes and logs nothing. |
| Workflow.AdMockStudioWorkflow.RegisterStoryboard | src/admock/workflow.py:122-126 | Appends one new unlocked version labelled `sb_v{counter}` and advances the counter by one. |
| Workflow.AdMockStudioWorkflow.RequireStoryboardVersion | src/admock/workflow.py:132-136 | The reverse scan returns the most recent version of the style. Otherwise it returns `ValueError("No storyboard with style … available")`. |
| Workflow.AdMockStudioWorkflow.OthersApart | src/admock/workflow.py:76-84 | No frame of another version is a frame of the current one, so edits reach only the current version. |
| Workflow.ConceptShape | src/admock/services/storyboard_generator.py:33-49 | A concept is a pencil storyboard of five frames whose second frame is `f2`, and it lasts the brief's length. |
| Workflow.FullWorkflow | tests/test_workflow.py:17-48 | For any brand, URL and brief, the four steps all succeed. The log holds the eight stage events in order. The pencil version ends `sb_v1_locked`. The hi-fi version is `sb_v2`, and each of its five frames has a non-empty hi-fi asset. The video lasts the brief's length over five timeline entries. |
| Workflow.StartWithConcept | tests/test_workflow.py:17-35 | After step 1 and the concept, there is one unlocked pencil version `sb_v1` of five frames lasting the brief's length, and three events. |
| Workflow.StartProject | tests/test_workflow.py:17-30 | A new project after brand ingest and brief capture has tokens and the brief, no storyboards, and two events. |
| Workflow.ConceptStep | tests/test_workflow.py:33-35 | Concept creation on that project registers the pencil version `sb_v1` and logs one event. |
| Workflow.EditAndLock | tests/test_workflow.py:37-40 | The global edit, the edit of `f2` and the lock all succeed on the concept. They log `GLOBAL_EDIT`, `FRAME_EDIT` and `STORYBOARD_LOCKED` in that order, and leave `sb_v1_locked`. |
| Workflow.EditAllFrames | tests/test_workflow.py:37 | The global edit succeeds and logs `GLOBAL_EDIT`. |
| Workflow.EditSecondFrame | tests/test_workflow.py:38 | The edit of `f2` succeeds and logs `FRAME_EDIT`. |
| Workflow.LockConcept | tests/test_workflow.py:39-40 | Locking gives a locked `sb_v1_locked` and logs `STORYBOARD_LOCKED`. |
| Workflow.RenderHifiStep | tests/test_workflow.py:42-44 | The hi-fi render succeeds as `sb_v2`, style HIFI, keeping frame count and duration. Every hi-fi frame has a non-empty hi-fi asset. |
| Workflow.RenderVideoStep | tests/test_workflow.py:46-48 | The video lasts as long as the hi-fi storyboard, with one timeline entry per frame. |

## Left out

- Timestamps: `log_event` stamps each entry with `datetime.utcnow()`, and versions record `created_at`. Audit entries are modelled without a timestamp, and versions without a creation time. Nothing in the core compares them.
- Float rounding: `_distribute_duration` and the video render apply `round(…, 2)`. The model uses exact reals, so duration sums are exact where Python's are only within rounding.
- `WorkflowState` and `get_state`: redundant shadow copies of the latest artifacts, not modelled.
- The exporter (src/admock/exporter.py) writes files and is not part of this model.
- Workflow.AdMockStudioWorkflow.Export: returns the storyboards it would hand to the exporter, not the written file paths.
- Models.ParseRenderLabel: labels are structured values, so Python's lenient `int()` parsing of arbitrary label strings (signs, surrounding whitespace, other prefixes before `_v`) is not modelled. Only labels the program itself writes occur.
- Workflow.AdMockStudioWorkflow.constructor: requires that the given project lists no version twice and shares no frame object between storyboards. A project built by the program always satisfies this; Python accepts any project.
- Dictionary-valued brand-token fields (logo, voice) are small records. Palettes and typography are maps.
- The message for a missing style renders the enum as `StoryboardStyle.PENCIL` or `StoryboardStyle.HIFI`, as f-strings of a `str` enum do from Python 3.11 on. Older Pythons would print `pencil` or `hifi`.
- `__init__` collaborator objects (extractor, generators, synthesizer, exporter) are stateless and are called as module functions.
