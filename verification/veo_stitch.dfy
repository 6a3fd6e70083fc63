/**
 * The legacy sequencer (veo_stitch.py): `VeoStitcher` generates a chain of
 * segments, seeding each one from a frame near the end of the previous one,
 * and concatenates the segments frame by frame with OpenCV, dropping about a
 * second from the end of every segment but the last.
 *
 * The Gemini client and the files on disk are parameters: `Services.generate`
 * stands for `generate_video` followed by `save_video` for one segment,
 * `Services.usable` for `exists() and stat().st_size > 0`, and
 * `Services.seedFrame` for `extract_frame_at_time(prev, 1.0)` followed by
 * `types.Image.from_file`. A video being read is a `Capture`: the properties
 * OpenCV reports for it and the frames successive reads deliver before the
 * first failed read.
 */
module LegacyStitcher {
  import opened Wrappers
  import opened Text
  import Extractor

  const ModelsPrefix: string := "models/"
  /** The marker `generate_video` looks for in the model id. */
  const Veo3Marker: string := "veo-3.0"
  const DefaultModel: string := Veo3Marker + "-fast-generate-preview"
  const MissingKeyMessage: string := "GEMINI_API_KEY not found in .env file"
  const GenerationFailedMessage: string := "Video generation failed"
  const StitchedPath: string := "output/stitched_final.mp4"

  /** The one field of `VeoStitcher` the modelled code reads: the prefixed model id. */
  datatype Stitcher = Stitcher(model: string)

  /** `f"models/{model}" if not model.startswith("models/") else model`. */
  function ModelPath(model: string): string {
    if StartsWith(model, ModelsPrefix) then model else ModelsPrefix + model
  }

  /**
   * The prefix is added exactly when it is missing, so the result always
   * carries it once, a prefixed id is kept, and prefixing twice changes nothing.
   */
  lemma ModelPathPrefixed(model: string)
    ensures StartsWith(ModelPath(model), ModelsPrefix)
    ensures ModelPath(model) == model <==> StartsWith(model, ModelsPrefix)
    ensures !StartsWith(model, ModelsPrefix) ==> ModelPath(model)[|ModelsPrefix|..] == model
    ensures ModelPath(ModelPath(model)) == ModelPath(model)
  {
    StartsWithIsPrefix(model, ModelsPrefix);
    StartsWithIsPrefix(ModelsPrefix + model, ModelsPrefix);
    assert (ModelsPrefix + model)[..|ModelsPrefix|] == ModelsPrefix;
    if !StartsWith(model, ModelsPrefix) {
      assert ModelPath(model) != model by {
        assert |ModelPath(model)| == |ModelsPrefix| + |model|;
      }
    }
  }

  /** `__init__`: the API key comes from the environment; a missing or empty one is a ValueError. */
  function NewStitcher(apiKey: Option<string>, model: string): (r: Result<Stitcher>)
    ensures r.Err? <==> apiKey.None? || apiKey.value == []
    ensures r.Err? ==> r.error == ValueError(MissingKeyMessage)
    ensures r.Ok? ==> StartsWith(r.value.model, ModelsPrefix)
    ensures r.Ok? && StartsWith(model, ModelsPrefix) ==> r.value.model == model
    ensures r.Ok? && !StartsWith(model, ModelsPrefix) ==> r.value.model == ModelsPrefix + model
  {
    ModelPathPrefixed(model);
    if apiKey.None? || apiKey.value == [] then Err(ValueError(MissingKeyMessage))
    else Ok(Stitcher(ModelPath(model)))
  }

  /** The fields of `types.GenerateVideosConfig` the stitcher sets. */
  datatype VideoConfig = VideoConfig(numberOfVideos: nat, durationSeconds: Option<int>, enhancePrompt: Option<bool>)

  /**
   * The configuration `generate_video` builds: one video per request; a
   * veo-3.0 model gets nothing else, any other model also gets the duration
   * and prompt enhancement.
   */
  function ConfigFor(model: string, duration: int): (c: VideoConfig)
    ensures c.numberOfVideos == 1
    ensures c.durationSeconds.None? <==> Contains(model, Veo3Marker)
    ensures c.enhancePrompt.None? <==> Contains(model, Veo3Marker)
    ensures c.durationSeconds.Some? ==> c.durationSeconds.value == duration && c.enhancePrompt == Some(true)
  {
    if Contains(model, Veo3Marker) then VideoConfig(1, None, None)
    else VideoConfig(1, Some(duration), Some(true))
  }

  /** The default model is a veo-3.0 model and gets the limited configuration. */
  lemma DefaultModelIsLimited(duration: int)
    ensures ConfigFor(ModelPath(DefaultModel), duration) == VideoConfig(1, None, None)
  {
    assert !StartsWith(DefaultModel, ModelsPrefix);
    assert ModelPath(DefaultModel) == ModelsPrefix + DefaultModel;
    assert (ModelsPrefix + DefaultModel)[7..14] == Veo3Marker;
    ContainsAt(ModelPath(DefaultModel), Veo3Marker, |ModelsPrefix|);
  }

  /** A request to the client for one segment. */
  datatype Request = Request(model: string, prompt: string, image: Option<string>, config: VideoConfig)

  function VideoRequest(st: Stitcher, prompt: string, image: Option<string>, duration: int): Request {
    Request(st.model, prompt, image, ConfigFor(st.model, duration))
  }

  /**
   * The state of a long-running operation: whether it is done, the videos of
   * its response (none when the response is missing) and its `error`
   * attribute rendered as text, or None when the object has no such attribute.
   */
  datatype Operation = Operation(done: bool, videos: seq<string>, error: Option<string>)

  /** What `_wait_for_video` does with a finished operation. */
  function Outcome(op: Operation): (r: Result<string>)
    ensures r.Err? <==> op.videos == []
    ensures r.Ok? ==> r.value == op.videos[0]
    ensures r.Err? && op.error.None? ==> r.error == RuntimeError(GenerationFailedMessage)
    ensures r.Err? && op.error.Some? ==> r.error == RuntimeError(GenerationFailedMessage + ": " + op.error.value)
  {
    if op.videos != [] then Ok(op.videos[0])
    else if op.error.Some? then Err(RuntimeError(GenerationFailedMessage + ": " + op.error.value))
    else Err(RuntimeError(GenerationFailedMessage))
  }

  /** The position of the first finished operation. */
  function FirstDone(ops: seq<Operation>): (k: Option<nat>)
    ensures k.None? <==> forall i :: 0 <= i < |ops| ==> !ops[i].done
    ensures k.Some? ==>
      && k.value < |ops| && ops[k.value].done
      && (forall i :: 0 <= i < k.value ==> !ops[i].done)
  {
    if ops == [] then None
    else if ops[0].done then Some(0)
    else match FirstDone(ops[1..])
      case None => None
      case Some(k) => Some(k + 1)
  }

  /**
   * `_wait_for_video`: `ops[0]` is the operation the request returned and
   * `ops[k]` the one the k-th `operations.get` returned. The loop stops at the
   * first finished operation; None means the operation was still running after
   * the last modelled poll (the source would keep polling).
   */
  method WaitForVideo(ops: seq<Operation>) returns (r: Option<Result<string>>)
    ensures r.None? <==> FirstDone(ops).None?
    ensures r.Some? ==> r.value == Outcome(ops[FirstDone(ops).value])
  {
    var k := 0;
    while k < |ops| && !ops[k].done
      invariant k <= |ops|
      invariant forall i :: 0 <= i < k ==> !ops[i].done
    {
      k := k + 1;
    }
    if k == |ops| {
      return None;
    }
    return Some(Outcome(ops[k]));
  }

  /** The collaborators of `generate_sequence`, as described at the top of the module. */
  datatype Services = Services(
    generate: (nat, Request) -> Result<string>,
    usable: string -> bool,
    seedFrame: string -> Result<string>)

  /** The arguments of `generate_sequence` other than the segment count. */
  datatype SequenceArgs = SequenceArgs(initialPrompt: string, continuationPrompt: string, duration: int)

  /** `continuation_prompt if continuation_prompt else initial_prompt`. */
  function LaterPrompt(args: SequenceArgs): (p: string)
    ensures args.continuationPrompt != [] ==> p == args.continuationPrompt
    ensures args.continuationPrompt == [] ==> p == args.initialPrompt
  {
    if args.continuationPrompt != [] then args.continuationPrompt else args.initialPrompt
  }

  function TextOnly(st: Stitcher, svc: Services, i: nat, args: SequenceArgs): Result<string> {
    svc.generate(i, VideoRequest(st, LaterPrompt(args), None, args.duration))
  }

  /**
   * Segment `i` (from 2 on) after `prev`: seeded from a frame of `prev` when
   * `prev` is usable; if extracting the frame or the seeded generation raises,
   * or `prev` is not usable, generated from text alone.
   */
  function NextSegment(st: Stitcher, svc: Services, i: nat, args: SequenceArgs, prev: string): Result<string> {
    if !svc.usable(prev) then TextOnly(st, svc, i, args)
    else match svc.seedFrame(prev)
      case Err(_) => TextOnly(st, svc, i, args)
      case Ok(frame) =>
        match svc.generate(i, VideoRequest(st, LaterPrompt(args), Some(frame), args.duration))
        case Ok(path) => Ok(path)
        case Err(_) => TextOnly(st, svc, i, args)
  }

  /**
   * Every later segment is one generation request with the later prompt and
   * the configured duration; it carries a seed image only when `prev` is
   * usable, and then the image is the frame extracted from `prev`.
   */
  lemma NextSegmentRequest(st: Stitcher, svc: Services, i: nat, args: SequenceArgs, prev: string)
    ensures exists image: Option<string> ::
      && NextSegment(st, svc, i, args, prev) == svc.generate(i, VideoRequest(st, LaterPrompt(args), image, args.duration))
      && (image.Some? ==> svc.usable(prev) && svc.seedFrame(prev) == Ok(image.value))
  {
    if svc.usable(prev) && svc.seedFrame(prev).Ok? {
      var frame := svc.seedFrame(prev).value;
      if svc.generate(i, VideoRequest(st, LaterPrompt(args), Some(frame), args.duration)).Ok? {
        assert NextSegment(st, svc, i, args, prev)
          == svc.generate(i, VideoRequest(st, LaterPrompt(args), Some(frame), args.duration));
      } else {
        assert NextSegment(st, svc, i, args, prev) == TextOnly(st, svc, i, args);
      }
    } else {
      assert NextSegment(st, svc, i, args, prev) == TextOnly(st, svc, i, args);
    }
  }

  /** Segment 1: `generate_video(initial_prompt)` with no image. */
  function FirstSegment(st: Stitcher, svc: Services, args: SequenceArgs): Result<string> {
    svc.generate(1, VideoRequest(st, args.initialPrompt, None, args.duration))
  }

  /** The later segments, as a function of the segment number and the previous path. */
  function LaterSegment(st: Stitcher, svc: Services, args: SequenceArgs): (nat, string) -> Result<string> {
    (i: nat, prev: string) => NextSegment(st, svc, i, args, prev)
  }

  /**
   * The first `k` segments, or the exception that stopped the sequence:
   * `first` for segment 1, and `next(i, prev)` for segment `i` after `prev`.
   */
  function Segments(first: Result<string>, next: (nat, string) -> Result<string>, k: nat): (r: Result<seq<string>>)
    requires k >= 1
    ensures r.Ok? ==> |r.value| == k
  {
    if k == 1 then
      var path :- first;
      Ok([path])
    else
      var before :- Segments(first, next, k - 1);
      var path :- next(k, before[|before| - 1]);
      Ok(before + [path])
  }

  /** One more segment extends the sequence by the segment generated after the last one. */
  lemma SegmentsStep(first: Result<string>, next: (nat, string) -> Result<string>, k: nat)
    requires k > 1 && Segments(first, next, k).Ok?
    ensures Segments(first, next, k - 1).Ok?
    ensures Segments(first, next, k).value[..k - 1] == Segments(first, next, k - 1).value
    ensures next(k, Segments(first, next, k - 1).value[k - 2]) == Ok(Segments(first, next, k).value[k - 1])
  {
  }

  /**
   * A sequence that was generated is a chain: segment 1 is what `first`
   * produced, and each later segment is what `next` produced from the one
   * before it.
   */
  lemma {:induction false} SegmentsChain(first: Result<string>, next: (nat, string) -> Result<string>, k: nat, j: nat)
    requires 1 <= k && j < k && Segments(first, next, k).Ok?
    ensures j == 0 ==> first == Ok(Segments(first, next, k).value[0])
    ensures j > 0 ==> next(j + 1, Segments(first, next, k).value[j - 1]) == Ok(Segments(first, next, k).value[j])
  {
    if k > 1 {
      SegmentsStep(first, next, k);
      if j < k - 1 {
        SegmentsChain(first, next, k - 1, j);
        var before := Segments(first, next, k - 1).value;
        assert Segments(first, next, k).value[j] == before[j];
        assert j > 0 ==> Segments(first, next, k).value[j - 1] == before[j - 1];
      }
    }
  }

  /** An exception in some segment ends the whole sequence with that exception. */
  lemma {:induction false} ErrorStopsSegments(first: Result<string>, next: (nat, string) -> Result<string>, i: nat, k: nat)
    requires 1 <= i <= k && Segments(first, next, i).Err?
    ensures Segments(first, next, k) == Segments(first, next, i)
    decreases k
  {
    if k > i {
      ErrorStopsSegments(first, next, i, k - 1);
    }
  }

  /**
   * For `generate_sequence`: segment 1 comes from the initial prompt alone,
   * every later segment is one request with the later prompt, seeded only
   * from a frame of the usable segment before it, and an exception in the
   * first segment ends the sequence.
   */
  lemma SequenceSegments(st: Stitcher, svc: Services, args: SequenceArgs, k: nat, j: nat)
    requires 1 <= k && j < k
    ensures var r := Segments(FirstSegment(st, svc, args), LaterSegment(st, svc, args), k);
      && (FirstSegment(st, svc, args).Err? ==> r == Err(FirstSegment(st, svc, args).error))
      && (r.Ok? && j == 0 ==>
            svc.generate(1, VideoRequest(st, args.initialPrompt, None, args.duration)) == Ok(r.value[0]))
      && (r.Ok? && j > 0 ==> exists image: Option<string> ::
            && svc.generate(j + 1, VideoRequest(st, LaterPrompt(args), image, args.duration)) == Ok(r.value[j])
            && (image.Some? ==> svc.usable(r.value[j - 1]) && svc.seedFrame(r.value[j - 1]) == Ok(image.value)))
  {
    var first := FirstSegment(st, svc, args);
    var next := LaterSegment(st, svc, args);
    if first.Err? {
      ErrorStopsSegments(first, next, 1, k);
    }
    var r := Segments(first, next, k);
    if r.Ok? {
      SegmentsChain(first, next, k, j);
      if j > 0 {
        NextSegmentRequest(st, svc, j + 1, args, r.value[j - 1]);
      }
    }
  }

  /** `[v for v in videos if v.exists() and v.stat().st_size > 0]`. */
  function Usable(svc: Services, videos: seq<string>): (valid: seq<string>)
    ensures |valid| <= |videos|
    ensures forall p :: p in valid ==> p in videos && svc.usable(p)
  {
    if videos == [] then []
    else Usable(svc, videos[..|videos| - 1]) + (if svc.usable(videos[|videos| - 1]) then [videos[|videos| - 1]] else [])
  }

  /** Every usable video takes part in the stitch. */
  lemma {:induction false} UsableComplete(svc: Services, videos: seq<string>, p: string)
    requires p in videos && svc.usable(p)
    ensures p in Usable(svc, videos)
  {
    var last := videos[|videos| - 1];
    if p != last {
      assert videos == videos[..|videos| - 1] + [last];
      UsableComplete(svc, videos[..|videos| - 1], p);
    }
  }

  /** `max(1, num_segments)`: the loop runs from 2 up to the count, so at least one segment is made. */
  function SegmentCount(numSegments: int): (n: nat)
    ensures n >= 1 && n >= numSegments
    ensures numSegments >= 1 ==> n == numSegments
  {
    if numSegments >= 1 then numSegments else 1
  }

  /** What `generate_sequence` did: the segment paths it returns and the paths it stitched, if any. */
  datatype SequenceRun = SequenceRun(videos: seq<string>, stitched: Option<seq<string>>)

  /** The body of the loop of `generate_sequence` for segment `i`. */
  method GenerateSegment(st: Stitcher, svc: Services, i: nat, args: SequenceArgs, prev: string)
    returns (r: Result<string>)
    ensures r == NextSegment(st, svc, i, args, prev)
  {
    var prompt := LaterPrompt(args);
    if svc.usable(prev) {
      var frame := svc.seedFrame(prev);
      if frame.Ok? {
        r := svc.generate(i, VideoRequest(st, prompt, Some(frame.value), args.duration));
        if r.Ok? {
          return;
        }
      }
    }
    r := svc.generate(i, VideoRequest(st, prompt, None, args.duration));
  }

  /** A generated segment extends the sequence; a raised one ends it with that exception. */
  lemma SegmentsExtend(first: Result<string>, next: (nat, string) -> Result<string>, i: nat, videos: seq<string>)
    requires i > 1 && Segments(first, next, i - 1) == Ok(videos)
    ensures next(i, videos[|videos| - 1]).Ok? ==>
      Segments(first, next, i) == Ok(videos + [next(i, videos[|videos| - 1]).value])
    ensures next(i, videos[|videos| - 1]).Err? ==>
      Segments(first, next, i) == Err(next(i, videos[|videos| - 1]).error)
  {
  }

  /**
   * The generation part of `generate_sequence`: segment 1, then the loop
   * over segments 2 to `n`, the first exception ending the run. `next` is the
   * later-segment function, passed as a ghost so that the loop reasons about
   * it through its results only.
   */
  method GenerateSegments(st: Stitcher, svc: Services, args: SequenceArgs, n: nat, ghost next: (nat, string) -> Result<string>)
    returns (r: Result<seq<string>>)
    requires n >= 1
    requires forall i, prev :: next(i, prev) == NextSegment(st, svc, i, args, prev)
    ensures r == Segments(FirstSegment(st, svc, args), next, n)
  {
    var first := svc.generate(1, VideoRequest(st, args.initialPrompt, None, args.duration));
    r := if first.Ok? then Ok([first.value]) else Err(first.error);
    var i := 2;
    while i <= n && r.Ok?
      invariant 2 <= i <= n + 1
      invariant r == Segments(first, next, i - 1)
    {
      var segment := GenerateSegment(st, svc, i, args, r.value[|r.value| - 1]);
      SegmentsExtend(first, next, i, r.value);
      r := if segment.Ok? then Ok(r.value + [segment.value]) else Err(segment.error);
      i := i + 1;
    }
    if r.Err? {
      ErrorStopsSegments(first, next, i - 1, n);
    }
  }

  /**
   * `generate_sequence`: one path per segment, `max(1, num_segments)` of
   * them, or the first exception; the usable segments are stitched when there
   * are at least two of them.
   */
  method GenerateSequence(st: Stitcher, svc: Services, args: SequenceArgs, numSegments: int)
    returns (r: Result<SequenceRun>)
    ensures var expected := Segments(FirstSegment(st, svc, args), LaterSegment(st, svc, args), SegmentCount(numSegments));
      && (r.Ok? <==> expected.Ok?)
      && (r.Err? ==> r.error == expected.error)
      && (r.Ok? ==> r.value.videos == expected.value)
    ensures r.Ok? ==> |r.value.videos| == SegmentCount(numSegments)
    ensures r.Ok? ==> var valid := Usable(svc, r.value.videos);
      r.value.stitched == if |valid| > 1 then Some(valid) else None
  {
    var videos := GenerateSegments(st, svc, args, SegmentCount(numSegments), LaterSegment(st, svc, args));
    if videos.Err? {
      return Err(videos.error);
    }
    var valid := Usable(svc, videos.value);
    r := Ok(SequenceRun(videos.value, if |valid| > 1 then Some(valid) else None));
  }

  /** A decoded frame. */
  type Frame = seq<bv8>

  /**
   * A video opened with `cv2.VideoCapture`: the reported frame rate, size
   * and `int(CAP_PROP_FRAME_COUNT)`, and the frames successive reads deliver
   * before the first failed read. Seeking to frame `k` and reading delivers
   * `frames[k]` when `0 <= k < |frames|` and fails otherwise.
   */
  datatype Capture = Capture(path: string, fps: real, width: int, height: int, frameCount: int, frames: seq<Frame>)

  /** `max(0, duration - time_from_end)`. */
  function SeedTime(duration: real, timeFromEnd: real): (t: real)
    ensures t >= 0.0 && t >= duration - timeFromEnd
    ensures t == 0.0 || t == duration - timeFromEnd
  {
    if duration - timeFromEnd > 0.0 then duration - timeFromEnd else 0.0
  }

  /** `target_time` for a capture with a non-zero frame rate. */
  function SeedTarget(cap: Capture, timeFromEnd: real): real
    requires cap.fps != 0.0
  {
    SeedTime(cap.frameCount as real / cap.fps, timeFromEnd)
  }

  /** `target_frame = int(target_time * fps)`. */
  function SeedIndex(cap: Capture, timeFromEnd: real): int
    requires cap.fps != 0.0
  {
    Extractor.Trunc(SeedTarget(cap, timeFromEnd) * cap.fps)
  }

  /** The frame `extract_frame_at_time` stores, and the path it stores it under. */
  datatype SeedFrame = SeedFrame(path: string, frame: Frame)

  /**
   * `extract_frame_at_time`: seek to `int(target_time * fps)` and read. A zero
   * frame rate makes `total_frames / fps` raise; a failed read is a
   * RuntimeError. `name` gives the stored frame's path for the target time.
   */
  function ExtractFrameAtTime(cap: Capture, timeFromEnd: real, name: real -> string): (r: Result<SeedFrame>)
    ensures cap.fps == 0.0 ==> r == Err(ZeroDivisionError)
    ensures r.Err? && cap.fps != 0.0 ==> r.error == RuntimeError("Failed to extract frame from " + cap.path)
    ensures r.Ok? ==>
      && cap.fps != 0.0
      && r.value.path == name(SeedTarget(cap, timeFromEnd))
      && 0 <= SeedIndex(cap, timeFromEnd) < |cap.frames|
      && r.value.frame == cap.frames[SeedIndex(cap, timeFromEnd)]
  {
    if cap.fps == 0.0 then Err(ZeroDivisionError)
    else
      var target := SeedTarget(cap, timeFromEnd);
      var k := SeedIndex(cap, timeFromEnd);
      if 0 <= k < |cap.frames| then Ok(SeedFrame(name(target), cap.frames[k]))
      else Err(RuntimeError("Failed to extract frame from " + cap.path))
  }

  /**
   * On a video whose reads deliver at least the reported frames, any positive
   * distance from the end lands on a readable frame.
   */
  lemma SeedFrameReadable(cap: Capture, timeFromEnd: real, name: real -> string)
    requires cap.fps > 0.0 && 0 < cap.frameCount <= |cap.frames| && timeFromEnd > 0.0
    ensures ExtractFrameAtTime(cap, timeFromEnd, name).Ok?
  {
    var fps := cap.fps;
    var duration := cap.frameCount as real / fps;
    var target := SeedTime(duration, timeFromEnd);
    assert duration * fps == cap.frameCount as real;
    if target > 0.0 {
      assert target * fps == duration * fps - timeFromEnd * fps;
      assert timeFromEnd * fps > 0.0;
    }
    assert target * fps < cap.frameCount as real;
    assert target * fps >= 0.0;
  }

  /** With no distance from the end the seek lands just past the last frame, so the read fails. */
  lemma ZeroDistanceMissesEnd(cap: Capture, name: real -> string)
    requires cap.fps > 0.0 && 0 <= cap.frameCount && |cap.frames| == cap.frameCount
    ensures ExtractFrameAtTime(cap, 0.0, name) == Err(RuntimeError("Failed to extract frame from " + cap.path))
  {
    var duration := cap.frameCount as real / cap.fps;
    assert duration * cap.fps == cap.frameCount as real;
    assert SeedTime(duration, 0.0) == duration;
  }

  /**
   * `frames_to_use`: a segment other than the last loses `int(fps * 1.0)`
   * frames but keeps at least one; the last keeps its reported frame count.
   */
  function FrameBudget(total: int, fps: real, isLast: bool): (budget: int)
    ensures isLast ==> budget == total
    ensures !isLast ==> budget >= 1
    ensures !isLast && fps >= 0.0 && total >= 1 ==> budget <= total
    ensures !isLast && 0.0 <= fps < 1.0 ==> budget == if total > 1 then total else 1
  {
    if isLast then total
    else
      var trim := Extractor.Trunc(fps * 1.0);
      if total - trim > 1 then total - trim else 1
  }

  /**
   * The frames the copying loop writes for one segment: a prefix of the
   * segment, never more than the budget; the whole budget when enough frames
   * can be read, and everything readable when the reads fail first.
   */
  function Copied(frames: seq<Frame>, budget: int): (c: seq<Frame>)
    ensures |c| <= |frames| && c == frames[..|c|]
    ensures |c| <= budget || c == []
    ensures budget >= 0 && |frames| >= budget ==> |c| == budget
    ensures |frames| <= budget ==> c == frames
  {
    if budget <= 0 then []
    else if budget < |frames| then frames[..budget]
    else frames
  }

  /**
   * A fully readable segment other than the last loses exactly its final
   * `int(fps)` frames when it is longer than that.
   */
  lemma NonLastTrimsOneSecond(frames: seq<Frame>, total: int, fps: real)
    requires |frames| == total && fps >= 0.0 && total - Extractor.Trunc(fps) >= 1
    ensures Copied(frames, FrameBudget(total, fps, false)) == frames[..total - Extractor.Trunc(fps)]
    ensures total - |Copied(frames, FrameBudget(total, fps, false))| == Extractor.Trunc(fps)
  {
    assert fps * 1.0 == fps;
  }

  /** The budget of segment `i` of `caps`. */
  function Budget(caps: seq<Capture>, fps: real, i: nat): int
    requires i < |caps|
  {
    FrameBudget(caps[i].frameCount, fps, i == |caps| - 1)
  }

  /** The frames written for the first `k` segments, in order. */
  function Stitched(caps: seq<Capture>, fps: real, k: nat): seq<Frame>
    requires k <= |caps|
  {
    if k == 0 then [] else Stitched(caps, fps, k - 1) + Copied(caps[k - 1].frames, Budget(caps, fps, k - 1))
  }

  /** The output file `stitch_videos` writes, as a writer of frames. */
  class FrameWriter {
    const path: string
    const fps: real
    const width: int
    const height: int
    var written: seq<Frame>

    constructor (path: string, fps: real, width: int, height: int)
      ensures this.path == path && this.fps == fps && this.width == width && this.height == height
      ensures written == []
    {
      this.path := path;
      this.fps := fps;
      this.width := width;
      this.height := height;
      written := [];
    }

    /** `out.write(frame)`. */
    method Write(frame: Frame)
      modifies this
      ensures written == old(written) + [frame]
    {
      written := written + [frame];
    }
  }

  /** The inner loop of `stitch_videos`: copy frames until the budget is spent or a read fails. */
  method CopySegment(frames: seq<Frame>, budget: int, out: FrameWriter) returns (count: int)
    modifies out
    ensures out.written == old(out.written) + Copied(frames, budget)
    ensures count == |Copied(frames, budget)|
  {
    count := 0;
    while count < budget
      invariant 0 <= count <= |frames|
      invariant count == 0 || count <= budget
      invariant out.written == old(out.written) + frames[..count]
    {
      if count >= |frames| {
        break;
      }
      out.Write(frames[count]);
      assert frames[..count + 1] == frames[..count] + [frames[count]];
      count := count + 1;
    }
    assert frames[..count] == Copied(frames, budget);
  }

  /**
   * `stitch_videos`: a writer with the first video's frame rate and size,
   * then each segment's budgeted frames in order. `counts` holds the number
   * of frames written per segment.
   */
  method StitchVideos(caps: seq<Capture>) returns (output: string, out: FrameWriter, counts: seq<int>)
    requires |caps| > 0
    ensures output == StitchedPath && fresh(out)
    ensures out.path == output && out.fps == caps[0].fps && out.width == caps[0].width && out.height == caps[0].height
    ensures out.written == Stitched(caps, caps[0].fps, |caps|)
    ensures |counts| == |caps|
    ensures forall i :: 0 <= i < |caps| ==> counts[i] == |Copied(caps[i].frames, Budget(caps, caps[0].fps, i))|
  {
    var fps := caps[0].fps;
    output := StitchedPath;
    out := new FrameWriter(output, fps, caps[0].width, caps[0].height);
    counts := [];
    var i := 0;
    while i < |caps|
      invariant i <= |caps|
      invariant fresh(out) && out.path == output && out.fps == fps
      invariant out.width == caps[0].width && out.height == caps[0].height
      invariant out.written == Stitched(caps, fps, i)
      invariant |counts| == i
      invariant forall j :: 0 <= j < i ==> counts[j] == |Copied(caps[j].frames, Budget(caps, fps, j))|
    {
      var budget := FrameBudget(caps[i].frameCount, fps, i == |caps| - 1);
      var count := CopySegment(caps[i].frames, budget, out);
      counts := counts + [count];
      i := i + 1;
    }
  }
}
