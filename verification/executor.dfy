/**
 * The scene-plan executor (plan/executor.py): the default per-clip prompt, the
 * clip loop of `execute_scene_plan` that picks text or image generation and
 * threads an auto-seed frame from one clip to the next, the optional stitch of
 * the rendered clips, and `PlanExecutionResult.to_dict`.
 *
 * Generation, frame extraction and stitching are services passed in as
 * functions: `generate` answers the i-th generation call, `extractFrame`
 * answers None where the source's extraction raises, and `stitchVideos` is the
 * stitcher.
 */
module Executor {
  import opened Wrappers
  import opened Text
  import opened Values
  import opened SceneWriter

  const DefaultExecModel: string := "veo-3.0-generate-001"
  const RenderLine: string := "Render as a polished cinematic scene with synchronized audio."

  /** A rendered video; only whether it has a file path matters here. */
  datatype VideoResult = VideoResult(path: Option<string>)

  /** One generation call: `image` is None for `generate_from_text`, the seed image for `generate_from_image`. */
  datatype GenRequest = GenRequest(image: Option<string>, prompt: string, model: Value, kwargs: Kwargs)

  /**
   * The keyword arguments of `execute_scene_plan`. `imageProvider` answers
   * None where the source's provider returns a falsy value.
   */
  datatype ExecOptions = ExecOptions(
    model: string,
    promptBuilder: Option<Clip -> string>,
    imageProvider: Option<(Clip, nat) -> Option<string>>,
    clipOptions: Option<(Clip, nat) -> Kwargs>,
    stitch: bool,
    overlap: real,
    autoSeedLastFrame: bool,
    seedFrameOffset: real)

  datatype Services = Services(
    generate: (nat, GenRequest) -> Result<VideoResult>,
    extractFrame: (string, real) -> Option<string>,
    stitchVideos: (seq<string>, real) -> Result<VideoResult>)

  datatype PlanExecutionResult = PlanExecutionResult(
    clips: seq<Clip>,
    clipPrompts: seq<string>,
    clipResults: seq<VideoResult>,
    finalResult: Option<VideoResult>)

  /** The defaults of `execute_scene_plan`. */
  function DefaultOptions(): (opts: ExecOptions)
    ensures opts.model == DefaultExecModel && opts.stitch && !opts.autoSeedLastFrame
    ensures opts.overlap == 1.0 && opts.seedFrameOffset == -0.5
    ensures opts.promptBuilder.None? && opts.imageProvider.None? && opts.clipOptions.None?
  {
    ExecOptions(DefaultExecModel, None, None, None, true, 1.0, false, -0.5)
  }

  // ---------------------------------------------------------------- prompt

  /** `[prefix + value]` when `value` is truthy, else nothing. */
  function OptionalLine(prefix: string, value: string): (lines: seq<string>)
    ensures |lines| == if value != [] then 1 else 0
  {
    if value != [] then [prefix + value] else []
  }

  function CinematographyLine(c: Cinematography): string {
    "Cinematography: lighting " + c.lighting + "; tone " + c.tone + "; grade " + c.colorGrade
  }

  /** The dialogue line, attributed to the character or to "Dialogue". */
  function DialogueLines(d: Dialogue): (lines: seq<string>)
    ensures |lines| == if d.line != [] then 1 else 0
  {
    if d.line != [] then
      ["Dialogue: [" + (if d.character != [] then d.character else "Dialogue") + "] " + d.line]
    else []
  }

  function LyricsCue(lyrics: string): (cues: seq<string>)
    ensures |cues| == if lyrics != [] then 1 else 0
  {
    if lyrics != [] then ["lyrics '" + lyrics + "'"] else []
  }

  /** The audio cues in the order lyrics, emotion, flow. */
  function AudioCues(t: AudioTrack): seq<string> {
    LyricsCue(t.lyrics)
    + OptionalLine("emotion ", t.emotion)
    + OptionalLine("flow ", t.flow)
  }

  function AudioLines(t: AudioTrack): seq<string> {
    var cues := AudioCues(t);
    if cues != [] then ["Audio cues: " + Join(cues, "; ")] else []
  }

  /** The lines `_default_prompt_builder` collects, in order. */
  function PromptLines(clip: Clip): seq<string> {
    ["Clip ID: " + clip.id, "Shot: " + clip.shot.composition]
    + OptionalLine("Camera setup: ", clip.shot.camera)
    + OptionalLine("Camera motion: ", clip.shot.cameraMotion)
    + ["Subject: " + clip.subject.description]
    + ["Wardrobe: " + clip.subject.wardrobe]
    + ["Environment: " + clip.scene.location + " during " + clip.scene.timeOfDay]
    + OptionalLine("Setting details: ", clip.scene.environment)
    + ["Action: " + clip.visual.action]
    + OptionalLine("Props: ", clip.visual.props)
    + [CinematographyLine(clip.cinematography)]
    + ["Aspect ratio: " + clip.aspectRatio]
    + DialogueLines(clip.dialogue)
    + AudioLines(clip.audioTrack)
    + [RenderLine]
  }

  function DefaultPrompt(clip: Clip): string {
    Join(PromptLines(clip), "\n")
  }

  /**
   * `_default_prompt_builder`: append the fixed lines and each optional line
   * whose field is truthy, then join with newlines. The prompt always opens
   * with the clip id and closes with the render instruction.
   */
  method DefaultPromptBuilder(clip: Clip) returns (prompt: string)
    ensures prompt == DefaultPrompt(clip)
    ensures StartsWith(prompt, "Clip ID: " + clip.id)
    ensures EndsWith(prompt, RenderLine)
  {
    var lines := ["Clip ID: " + clip.id, "Shot: " + clip.shot.composition];
    lines := lines + OptionalLine("Camera setup: ", clip.shot.camera);
    lines := lines + OptionalLine("Camera motion: ", clip.shot.cameraMotion);
    lines := lines + ["Subject: " + clip.subject.description];
    lines := lines + ["Wardrobe: " + clip.subject.wardrobe];
    lines := lines + ["Environment: " + clip.scene.location + " during " + clip.scene.timeOfDay];
    lines := lines + OptionalLine("Setting details: ", clip.scene.environment);
    lines := lines + ["Action: " + clip.visual.action];
    lines := lines + OptionalLine("Props: ", clip.visual.props);
    lines := lines + [CinematographyLine(clip.cinematography)];
    lines := lines + ["Aspect ratio: " + clip.aspectRatio];
    lines := lines + DialogueLines(clip.dialogue);
    var cues := LyricsCue(clip.audioTrack.lyrics);
    cues := cues + OptionalLine("emotion ", clip.audioTrack.emotion);
    cues := cues + OptionalLine("flow ", clip.audioTrack.flow);
    if cues != [] {
      lines := lines + ["Audio cues: " + Join(cues, "; ")];
    }
    lines := lines + [RenderLine];
    assert lines == PromptLines(clip);
    prompt := Join(lines, "\n");
    JoinStartsWith(lines, "\n");
    JoinEndsWith(lines, "\n");
  }

  function Flag(present: bool): nat {
    if present then 1 else 0
  }

  /** Nine lines are always there; each optional field adds one line exactly when it is truthy. */
  lemma PromptLineCount(clip: Clip)
    ensures |PromptLines(clip)| == 9
      + Flag(clip.shot.camera != []) + Flag(clip.shot.cameraMotion != [])
      + Flag(clip.scene.environment != []) + Flag(clip.visual.props != [])
      + Flag(clip.dialogue.line != [])
      + Flag(clip.audioTrack.lyrics != [] || clip.audioTrack.emotion != [] || clip.audioTrack.flow != [])
  {
    var t := clip.audioTrack;
    assert |AudioCues(t)| == Flag(t.lyrics != []) + Flag(t.emotion != []) + Flag(t.flow != []);
  }

  /** With all three cues present they are joined with "; " in the order lyrics, emotion, flow. */
  lemma AudioCueOrder(t: AudioTrack)
    requires t.lyrics != [] && t.emotion != [] && t.flow != []
    ensures AudioLines(t) == ["Audio cues: " + (("lyrics '" + t.lyrics + "'") + "; " + (("emotion " + t.emotion) + "; " + ("flow " + t.flow)))]
  {
    var cues := AudioCues(t);
    assert cues == ["lyrics '" + t.lyrics + "'", "emotion " + t.emotion, "flow " + t.flow];
    assert cues[1..] == ["emotion " + t.emotion, "flow " + t.flow];
    assert cues[1..][1..] == ["flow " + t.flow];
    assert Join(cues[1..][1..], "; ") == "flow " + t.flow;
    assert Join(cues[1..], "; ") == ("emotion " + t.emotion) + "; " + ("flow " + t.flow);
  }

  /** A line without a speaker is attributed to "Dialogue". */
  lemma UnattributedDialogue(d: Dialogue)
    requires d.line != [] && d.character == []
    ensures DialogueLines(d) == DialogueLines(d.(character := "Dialogue"))
  {
  }

  // ---------------------------------------------------------------- one clip

  /** `prompt_builder or _default_prompt_builder`. */
  function Builder(opts: ExecOptions): (build: Clip -> string)
    ensures opts.promptBuilder.Some? ==> build == opts.promptBuilder.value
    ensures opts.promptBuilder.None? ==> build == DefaultPrompt
  {
    if opts.promptBuilder.Some? then opts.promptBuilder.value else DefaultPrompt
  }

  /** `clip_options(clip, idx, plan) if clip_options else {}`. */
  function GivenOptions(opts: ExecOptions, clip: Clip, idx: nat): Kwargs {
    match opts.clipOptions
    case Some(provide) => provide(clip, idx)
    case None => map[]
  }

  /**
   * `clip_model = kwargs.pop("model", model)` and
   * `kwargs.setdefault("aspect_ratio", clip.aspect_ratio)`.
   */
  function ClipModelAndKwargs(given: Kwargs, model: string, clip: Clip): (Value, Kwargs) {
    var rest := given - {Model};
    (Get(given, Model, VStr(model)),
     if AspectRatio in rest then rest else rest[AspectRatio := VStr(clip.aspectRatio)])
  }

  /**
   * A `model` option overrides the default model and is not passed on; the
   * aspect ratio defaults to the clip's own; every other option passes unchanged.
   */
  lemma ClipOptionsHandling(given: Kwargs, model: string, clip: Clip)
    ensures var r := ClipModelAndKwargs(given, model, clip);
      && r.0 == (if Model in given then given[Model] else VStr(model))
      && Model !in r.1
      && AspectRatio in r.1
      && r.1[AspectRatio] == (if AspectRatio in given then given[AspectRatio] else VStr(clip.aspectRatio))
      && (forall k :: k != Model && k != AspectRatio ==>
            (k in r.1 <==> k in given) && (k in r.1 ==> r.1[k] == given[k]))
  {
  }

  /** The seed image: the provider's path when it gives one, else the auto-seed frame when enabled. */
  function ImageFor(opts: ExecOptions, clip: Clip, idx: nat, seed: Option<string>): Option<string> {
    var provided := if opts.imageProvider.Some? then opts.imageProvider.value(clip, idx) else None;
    if provided.Some? then provided
    else if opts.autoSeedLastFrame && seed.Some? then seed
    else None
  }

  /** The generation call made for clip `idx` when `seed` is the frame carried over. */
  function ClipRequest(opts: ExecOptions, clip: Clip, idx: nat, seed: Option<string>, prompt: string): GenRequest {
    var call := ClipModelAndKwargs(GivenOptions(opts, clip, idx), opts.model, clip);
    GenRequest(ImageFor(opts, clip, idx, seed), prompt, call.0, call.1)
  }

  /** The frame carried to the next clip after clip `idx` produced `result`. */
  function NextSeed(opts: ExecOptions, svc: Services, idx: nat, total: nat, result: VideoResult, seed: Option<string>)
    : Option<string>
  {
    if opts.autoSeedLastFrame && result.path.Some? && idx < total - 1
    then svc.extractFrame(result.path.value, opts.seedFrameOffset)
    else seed
  }

  // ---------------------------------------------------------------- the loop

  datatype RunState = RunState(prompts: seq<string>, results: seq<VideoResult>, seed: Option<string>)

  /** The state after the first `k` clips, or the error of the first generation that raised. */
  function RunClips(build: Clip -> string, opts: ExecOptions, svc: Services, clips: seq<Clip>, k: nat): Result<RunState>
    requires k <= |clips|
    decreases k
  {
    if k == 0 then Ok(RunState([], [], None))
    else
      var before :- RunClips(build, opts, svc, clips, k - 1);
      var request := ClipRequest(opts, clips[k - 1], k - 1, before.seed, build(clips[k - 1]));
      var result :- svc.generate(k - 1, request);
      Ok(RunState(before.prompts + [request.prompt], before.results + [result],
                  NextSeed(opts, svc, k - 1, |clips|, result, before.seed)))
  }

  /** The seed carried into clip `i`, once the first `i` clips ran. */
  function SeedBefore(build: Clip -> string, opts: ExecOptions, svc: Services, clips: seq<Clip>, i: nat): Option<string>
    requires i <= |clips| && RunClips(build, opts, svc, clips, i).Ok?
  {
    RunClips(build, opts, svc, clips, i).value.seed
  }

  /** One step of the run: clip `k` is prompted and generated from the state the first `k` clips left. */
  lemma RunStep(build: Clip -> string, opts: ExecOptions, svc: Services, clips: seq<Clip>, k: nat)
    requires k < |clips| && RunClips(build, opts, svc, clips, k + 1).Ok?
    ensures RunClips(build, opts, svc, clips, k).Ok?
    ensures var before := RunClips(build, opts, svc, clips, k).value;
      var after := RunClips(build, opts, svc, clips, k + 1).value;
      var request := ClipRequest(opts, clips[k], k, before.seed, build(clips[k]));
      && svc.generate(k, request).Ok?
      && after == RunState(before.prompts + [build(clips[k])], before.results + [svc.generate(k, request).value],
                           NextSeed(opts, svc, k, |clips|, svc.generate(k, request).value, before.seed))
  {
  }

  /** Running clip `k` after the first `k` either extends the state by its prompt and result or ends the run. */
  lemma RunExtend(build: Clip -> string, opts: ExecOptions, svc: Services, clips: seq<Clip>, k: nat, before: RunState)
    requires k < |clips| && RunClips(build, opts, svc, clips, k) == Ok(before)
    ensures var request := ClipRequest(opts, clips[k], k, before.seed, build(clips[k]));
      && (svc.generate(k, request).Err? ==>
            RunClips(build, opts, svc, clips, k + 1) == Err(svc.generate(k, request).error))
      && (svc.generate(k, request).Ok? ==>
            RunClips(build, opts, svc, clips, k + 1)
            == Ok(RunState(before.prompts + [build(clips[k])], before.results + [svc.generate(k, request).value],
                           NextSeed(opts, svc, k, |clips|, svc.generate(k, request).value, before.seed))))
  {
  }

  /** After `k` clips ran there is exactly one prompt and one result per clip. */
  lemma {:induction false} RunLength(build: Clip -> string, opts: ExecOptions, svc: Services, clips: seq<Clip>, k: nat)
    requires k <= |clips| && RunClips(build, opts, svc, clips, k).Ok?
    ensures |RunClips(build, opts, svc, clips, k).value.prompts| == k
    ensures |RunClips(build, opts, svc, clips, k).value.results| == k
    decreases k
  {
    if k > 0 {
      RunStep(build, opts, svc, clips, k - 1);
      RunLength(build, opts, svc, clips, k - 1);
    }
  }

  /** A run that got through `k` clips got through every `i <= k`, and its record extends theirs. */
  lemma {:induction false} RunPrefix(build: Clip -> string, opts: ExecOptions, svc: Services, clips: seq<Clip>, i: nat, k: nat)
    requires i <= k <= |clips| && RunClips(build, opts, svc, clips, k).Ok?
    ensures RunClips(build, opts, svc, clips, i).Ok?
    ensures var s := RunClips(build, opts, svc, clips, k).value;
      var t := RunClips(build, opts, svc, clips, i).value;
      i <= |s.prompts| && i <= |s.results| && s.prompts[..i] == t.prompts && s.results[..i] == t.results
    decreases k
  {
    RunLength(build, opts, svc, clips, k);
    if i < k {
      RunStep(build, opts, svc, clips, k - 1);
      RunPrefix(build, opts, svc, clips, i, k - 1);
      var s := RunClips(build, opts, svc, clips, k).value;
      var m := RunClips(build, opts, svc, clips, k - 1).value;
      assert s.prompts[..i] == m.prompts[..i];
      assert s.results[..i] == m.results[..i];
    } else {
      RunLength(build, opts, svc, clips, i);
    }
  }

  /**
   * Entry `i` of a run of `k` clips is clip `i`'s prompt and the answer to
   * clip `i`'s generation call, made with the frame carried into it.
   */
  lemma RunEntry(build: Clip -> string, opts: ExecOptions, svc: Services, clips: seq<Clip>, i: nat, k: nat)
    requires i < k <= |clips| && RunClips(build, opts, svc, clips, k).Ok?
    ensures RunClips(build, opts, svc, clips, i).Ok?
    ensures var s := RunClips(build, opts, svc, clips, k).value;
      var request := ClipRequest(opts, clips[i], i, SeedBefore(build, opts, svc, clips, i), build(clips[i]));
      && i < |s.prompts| && i < |s.results|
      && s.prompts[i] == build(clips[i])
      && svc.generate(i, request) == Ok(s.results[i])
  {
    RunPrefix(build, opts, svc, clips, i + 1, k);
    RunStep(build, opts, svc, clips, i);
    RunLength(build, opts, svc, clips, i);
    var s := RunClips(build, opts, svc, clips, k).value;
    var t := RunClips(build, opts, svc, clips, i + 1).value;
    assert s.prompts[i] == s.prompts[..i + 1][i] == t.prompts[i];
    assert s.results[i] == s.results[..i + 1][i] == t.results[i];
  }

  /** A generation that raises ends the run: no later clip is attempted and the error is kept. */
  lemma {:induction false} ErrorStopsRun(build: Clip -> string, opts: ExecOptions, svc: Services, clips: seq<Clip>, k: nat, later: nat)
    requires k <= later <= |clips| && RunClips(build, opts, svc, clips, k).Err?
    ensures RunClips(build, opts, svc, clips, later) == RunClips(build, opts, svc, clips, k)
    decreases later - k
  {
    if later > k {
      ErrorStopsRun(build, opts, svc, clips, k, later - 1);
    }
  }

  /** Without auto-seeding no frame is ever carried, so only the image provider can select image generation. */
  lemma {:induction false} NoAutoSeedNoSeed(build: Clip -> string, opts: ExecOptions, svc: Services, clips: seq<Clip>, k: nat)
    requires !opts.autoSeedLastFrame && k <= |clips| && RunClips(build, opts, svc, clips, k).Ok?
    ensures SeedBefore(build, opts, svc, clips, k).None?
    ensures k < |clips| ==>
      ImageFor(opts, clips[k], k, SeedBefore(build, opts, svc, clips, k)) ==
      (if opts.imageProvider.Some? then opts.imageProvider.value(clips[k], k) else None)
    decreases k
  {
    if k > 0 {
      RunStep(build, opts, svc, clips, k - 1);
      NoAutoSeedNoSeed(build, opts, svc, clips, k - 1);
    }
  }

  /** The first clip always starts without a carried frame, so without a provider it is generated from text. */
  lemma FirstClipFromText(opts: ExecOptions, clips: seq<Clip>)
    requires |clips| > 0 && opts.imageProvider.None?
    ensures ImageFor(opts, clips[0], 0, None).None?
  {
  }

  /**
   * With auto-seeding and no provider, the frame extracted from clip `i`'s
   * video at the seed offset is the image of clip `i + 1`.
   */
  lemma SeededFromPrevious(build: Clip -> string, opts: ExecOptions, svc: Services, clips: seq<Clip>, i: nat, frame: string)
    requires opts.autoSeedLastFrame && opts.imageProvider.None?
    requires i + 1 < |clips| && RunClips(build, opts, svc, clips, i + 1).Ok?
    requires var results := RunClips(build, opts, svc, clips, i + 1).value.results;
      i < |results| && results[i].path.Some?
      && svc.extractFrame(results[i].path.value, opts.seedFrameOffset) == Some(frame)
    ensures ClipRequest(opts, clips[i + 1], i + 1, SeedBefore(build, opts, svc, clips, i + 1), build(clips[i + 1])).image == Some(frame)
  {
    RunStep(build, opts, svc, clips, i);
    RunLength(build, opts, svc, clips, i);
  }

  /** A clip without a path leaves the carried frame as it was; a failed extraction clears it. */
  lemma SeedStep(build: Clip -> string, opts: ExecOptions, svc: Services, clips: seq<Clip>, i: nat)
    requires i < |clips| && RunClips(build, opts, svc, clips, i + 1).Ok?
    ensures RunClips(build, opts, svc, clips, i).Ok?
    ensures var results := RunClips(build, opts, svc, clips, i + 1).value.results;
      i < |results| &&
      var result := results[i];
      && (result.path.None? ==> SeedBefore(build, opts, svc, clips, i + 1) == SeedBefore(build, opts, svc, clips, i))
      && (i + 1 == |clips| ==> SeedBefore(build, opts, svc, clips, i + 1) == SeedBefore(build, opts, svc, clips, i))
      && (opts.autoSeedLastFrame && result.path.Some? && i + 1 < |clips|
            && svc.extractFrame(result.path.value, opts.seedFrameOffset).None?
          ==> SeedBefore(build, opts, svc, clips, i + 1).None?)
  {
    RunStep(build, opts, svc, clips, i);
    RunLength(build, opts, svc, clips, i);
  }

  // ---------------------------------------------------------------- stitching

  /** `[result.path for result in clip_results if result.path is not None]`. */
  function ClipPaths(results: seq<VideoResult>): (paths: seq<string>)
    ensures |paths| <= |results|
    ensures forall p :: p in paths ==> exists i :: 0 <= i < |results| && results[i].path == Some(p)
  {
    if results == [] then []
    else (if results[0].path.Some? then [results[0].path.value] else []) + ClipPaths(results[1..])
  }

  /** Appending a result appends its path, if it has one: the paths keep the clips' order. */
  lemma {:induction false} ClipPathsAppend(results: seq<VideoResult>, last: VideoResult)
    ensures ClipPaths(results + [last]) == ClipPaths(results) + (if last.path.Some? then [last.path.value] else [])
  {
    if results != [] {
      assert (results + [last])[1..] == results[1..] + [last];
      ClipPathsAppend(results[1..], last);
    } else {
      assert [last][1..] == [];
    }
  }

  predicate StitchWanted(opts: ExecOptions, results: seq<VideoResult>) {
    opts.stitch && |ClipPaths(results)| >= 2
  }

  /**
   * The clip loop of `execute_scene_plan`: each clip gets one prompt and one
   * generation call, in order, and the first call that raises ends the loop
   * with its error.
   */
  method RunPlanClips(build: Clip -> string, opts: ExecOptions, svc: Services, clips: seq<Clip>)
    returns (r: Result<RunState>)
    ensures r == RunClips(build, opts, svc, clips, |clips|)
    ensures r.Ok? ==> |r.value.prompts| == |clips| && |r.value.results| == |clips|
  {
    var prompts: seq<string> := [];
    var results: seq<VideoResult> := [];
    var seed: Option<string> := None;
    var failure: Option<Raised> := None;
    var idx := 0;
    while idx < |clips| && failure.None?
      invariant idx <= |clips|
      invariant failure.None? ==> |prompts| == idx && |results| == idx
      invariant failure.None? ==> RunClips(build, opts, svc, clips, idx) == Ok(RunState(prompts, results, seed))
      invariant failure.Some? ==> RunClips(build, opts, svc, clips, idx) == Err(failure.value)
    {
      var clip := clips[idx];
      RunExtend(build, opts, svc, clips, idx, RunState(prompts, results, seed));
      var prompt := build(clip);
      prompts := prompts + [prompt];
      var call := ClipModelAndKwargs(GivenOptions(opts, clip, idx), opts.model, clip);
      var image := ImageFor(opts, clip, idx, seed);
      var result := svc.generate(idx, GenRequest(image, prompt, call.0, call.1));
      if result.Err? {
        failure := Some(result.error);
      } else {
        results := results + [result.value];
        if opts.autoSeedLastFrame && result.value.path.Some? && idx < |clips| - 1 {
          seed := svc.extractFrame(result.value.path.value, opts.seedFrameOffset);
        }
      }
      idx := idx + 1;
    }
    if failure.Some? {
      ErrorStopsRun(build, opts, svc, clips, idx, |clips|);
      return Err(failure.value);
    }
    r := Ok(RunState(prompts, results, seed));
  }

  /**
   * `execute_scene_plan` on an already loaded plan: run the clips with
   * `prompt_builder or _default_prompt_builder`, then request a stitch of the
   * clip paths, in order, only when `stitch` is set and at least two clips
   * have a path. An error raised by the stitcher is the call's error.
   */
  method ExecuteScenePlan(clips: seq<Clip>, opts: ExecOptions, svc: Services) returns (r: Result<PlanExecutionResult>)
    ensures var run := RunClips(Builder(opts), opts, svc, clips, |clips|);
      && (run.Err? ==> r == Err(run.error))
      && (run.Ok? && !StitchWanted(opts, run.value.results) ==>
            r == Ok(PlanExecutionResult(clips, run.value.prompts, run.value.results, None)))
      && (run.Ok? && StitchWanted(opts, run.value.results) ==>
            var stitched := svc.stitchVideos(ClipPaths(run.value.results), opts.overlap);
            r == if stitched.Err? then Err(stitched.error)
                 else Ok(PlanExecutionResult(clips, run.value.prompts, run.value.results, Some(stitched.value))))
    ensures r.Ok? ==> |r.value.clipPrompts| == |clips| && |r.value.clipResults| == |clips|
  {
    var run := RunPlanClips(Builder(opts), opts, svc, clips);
    if run.Err? {
      return Err(run.error);
    }
    var paths := ClipPaths(run.value.results);
    r := Ok(PlanExecutionResult(clips, run.value.prompts, run.value.results, None));
    if opts.stitch && |paths| >= 2 {
      var stitched := svc.stitchVideos(paths, opts.overlap);
      if stitched.Err? {
        r := Err(stitched.error);
      } else {
        r := Ok(PlanExecutionResult(clips, run.value.prompts, run.value.results, Some(stitched.value)));
      }
    }
  }

  // ---------------------------------------------------------------- to_dict

  datatype ClipRecord = ClipRecord(prompt: string, result: VideoResult)
  datatype ExecutionRecord = ExecutionRecord(clips: seq<ClipRecord>, finalResult: Option<VideoResult>)

  /** `to_dict`: prompts and results paired by `zip`, which stops at the shorter list. */
  function ToDict(x: PlanExecutionResult): (d: ExecutionRecord)
    ensures |d.clips| == if |x.clipPrompts| <= |x.clipResults| then |x.clipPrompts| else |x.clipResults|
    ensures forall i :: 0 <= i < |d.clips| ==> d.clips[i] == ClipRecord(x.clipPrompts[i], x.clipResults[i])
    ensures d.finalResult == x.finalResult
  {
    var n := if |x.clipPrompts| <= |x.clipResults| then |x.clipPrompts| else |x.clipResults|;
    ExecutionRecord(seq(n, i requires 0 <= i < n => ClipRecord(x.clipPrompts[i], x.clipResults[i])), x.finalResult)
  }
}
