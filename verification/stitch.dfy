/**
 * Seamless stitching (src/veotools/stitch/seamless.py): the input checks of
 * `stitch_videos`, the trim end of each clip, the ffmpeg concat filter graph
 * and argument list it builds, the interleaving of `stitch_with_transitions`,
 * and the offsets of `create_transition_points`.
 *
 * Durations are exact reals. Input files are `VideoFile` values as the
 * extractor sees them; whether a file has an audio stream (ffprobe), the
 * six-decimal rendering of a time and the outcome of running ffmpeg are
 * parameters.
 */
module Stitch {
  import opened Wrappers
  import opened Text
  import opened Extractor

  const TooFewMessage: string := "Need at least two videos to stitch"
  const FfmpegFailurePrefix: string := "Failed to stitch videos with ffmpeg: "

  function UnmeasuredMessage(path: string): string {
    "Unable to determine duration for " + path
  }

  // ---------------------------------------------------------------- input checks

  /** The first set flag, if any. */
  function FirstSet(flags: seq<bool>): (r: Option<nat>)
    ensures r.Some? ==> r.value < |flags| && flags[r.value] && forall j :: 0 <= j < r.value ==> !flags[j]
    ensures r.None? ==> forall j :: 0 <= j < |flags| ==> !flags[j]
  {
    if flags == [] then None
    else if flags[0] then Some(0)
    else match FirstSet(flags[1..])
      case Some(i) => Some(i + 1)
      case None => None
  }

  function MissingFlags(files: seq<VideoFile>): (flags: seq<bool>)
    ensures |flags| == |files| && forall i :: 0 <= i < |files| ==> flags[i] == !files[i].onDisk
  {
    seq(|files|, i requires 0 <= i < |files| => !files[i].onDisk)
  }

  /** `float(info.get("duration") or 0.0)` for each clip. */
  function Durations(files: seq<VideoFile>): (ds: seq<real>)
    ensures |ds| == |files| && forall i :: 0 <= i < |files| ==> ds[i] == Duration(files[i].fps, files[i].frameCount)
  {
    seq(|files|, i requires 0 <= i < |files| => Duration(files[i].fps, files[i].frameCount))
  }

  function UnmeasuredFlags(ds: seq<real>): (flags: seq<bool>)
    ensures |flags| == |ds| && forall i :: 0 <= i < |ds| ==> flags[i] == (ds[i] <= 0.0)
  {
    seq(|ds|, i requires 0 <= i < |ds| => ds[i] <= 0.0)
  }

  /**
   * What the checks of `stitch_videos` decide: too few inputs, else the first
   * missing file, else the first clip whose duration is not positive, else the
   * durations.
   */
  function Validate(files: seq<VideoFile>): Result<seq<real>> {
    if |files| < 2 then Err(ValueError(TooFewMessage))
    else match FirstSet(MissingFlags(files))
      case Some(i) => Err(FileNotFoundError(NotFoundMessage(files[i].path)))
      case None =>
        match FirstSet(UnmeasuredFlags(Durations(files)))
        case Some(i) => Err(RuntimeError(UnmeasuredMessage(files[i].path)))
        case None => Ok(Durations(files))
  }

  /** Validation passes exactly for two or more files that all exist and have a positive duration. */
  lemma ValidateOk(files: seq<VideoFile>)
    ensures Validate(files).Ok? <==>
      |files| >= 2 && forall i :: 0 <= i < |files| ==>
        files[i].onDisk && Duration(files[i].fps, files[i].frameCount) > 0.0
    ensures Validate(files).Ok? ==> Validate(files).value == Durations(files)
  {
    var ds := Durations(files);
    if |files| >= 2 && FirstSet(MissingFlags(files)).None? && FirstSet(UnmeasuredFlags(ds)).None? {
      assert forall i :: 0 <= i < |files| ==> !MissingFlags(files)[i] && !UnmeasuredFlags(ds)[i];
    }
  }

  /** A missing file is reported before any duration problem, whatever its position. */
  lemma MissingBeforeUnmeasured(files: seq<VideoFile>, i: nat)
    requires |files| >= 2 && i < |files| && !files[i].onDisk
    ensures Validate(files).Err? && Validate(files).error.FileNotFoundError?
  {
    assert MissingFlags(files)[i];
  }

  /**
   * The checks of `stitch_videos`, in the source's order: the count, then one
   * pass for existence, then one pass reading each duration.
   */
  method CheckInputs(files: seq<VideoFile>) returns (r: Result<seq<real>>)
    ensures r == Validate(files)
  {
    if |files| < 2 {
      return Err(ValueError(TooFewMessage));
    }
    var i := 0;
    while i < |files| && files[i].onDisk
      invariant i <= |files|
      invariant forall j :: 0 <= j < i ==> files[j].onDisk
    {
      i := i + 1;
    }
    if i < |files| {
      FirstSetIs(MissingFlags(files), i);
      return Err(FileNotFoundError(NotFoundMessage(files[i].path)));
    }
    FirstSetNone(MissingFlags(files));
    var durations: seq<real> := [];
    i := 0;
    while i < |files|
      invariant i <= |files|
      invariant durations == Durations(files)[..i]
      invariant forall j :: 0 <= j < i ==> durations[j] > 0.0
    {
      var info := GetVideoInfo(files[i]);
      var duration := info.value.duration;
      if duration <= 0.0 {
        FirstSetIs(UnmeasuredFlags(Durations(files)), i);
        return Err(RuntimeError(UnmeasuredMessage(files[i].path)));
      }
      durations := durations + [duration];
      i := i + 1;
    }
    assert durations == Durations(files);
    FirstSetNone(UnmeasuredFlags(Durations(files)));
    return Ok(durations);
  }

  /** The flag a left-to-right scan stops at is the first one. */
  lemma FirstSetIs(flags: seq<bool>, i: nat)
    requires i < |flags| && flags[i] && forall j :: 0 <= j < i ==> !flags[j]
    ensures FirstSet(flags) == Some(i)
  {
  }

  lemma FirstSetNone(flags: seq<bool>)
    requires forall j :: 0 <= j < |flags| ==> !flags[j]
    ensures FirstSet(flags) == None
  {
  }

  // ---------------------------------------------------------------- trimming

  /**
   * `trim_end`: the overlap is cut from the tail of every clip but the last,
   * provided more than 0.01 seconds would remain.
   */
  function TrimEnd(duration: real, overlap: real, idx: nat, n: nat): real {
    if overlap > 0.0 && idx < n - 1 && duration - overlap > 0.01 then duration - overlap else duration
  }

  /** A trim end is positive and never past the clip's end; the last clip and a zero overlap never trim. */
  lemma TrimBounds(duration: real, overlap: real, idx: nat, n: nat)
    requires duration > 0.0
    ensures 0.0 < TrimEnd(duration, overlap, idx, n) <= duration
    ensures TrimEnd(duration, overlap, idx, n) < duration <==>
      overlap > 0.0 && idx < n - 1 && duration - overlap > 0.01
    ensures idx == n - 1 ==> TrimEnd(duration, overlap, idx, n) == duration
    ensures overlap <= 0.0 ==> TrimEnd(duration, overlap, idx, n) == duration
  {
  }

  // ---------------------------------------------------------------- filter graph

  /** One entry of `filter_parts`, before rendering. */
  datatype Filter =
    | VideoTrim(input: nat, end: real)
    | VideoPass(input: nat)
    | AudioTrim(input: nat, end: real)
    | AudioPass(input: nat)
    | Silence(input: nat, end: real)
    | Concat(inputs: string, n: nat, withAudio: bool)

  function VideoRef(i: nat): string {
    "[v" + NatToString(i) + "]"
  }

  function AudioRef(i: nat): string {
    "[a" + NatToString(i) + "]"
  }

  /** The filter text `filter_parts` holds; `fmt` is the six-decimal rendering of a time. */
  function Render(f: Filter, fmt: real -> string): string {
    match f
    case VideoTrim(i, e) => "[" + NatToString(i) + ":v]trim=0:" + fmt(e) + ",setpts=PTS-STARTPTS" + VideoRef(i)
    case VideoPass(i) => "[" + NatToString(i) + ":v]setpts=PTS-STARTPTS" + VideoRef(i)
    case AudioTrim(i, e) => "[" + NatToString(i) + ":a]atrim=0:" + fmt(e) + ",asetpts=PTS-STARTPTS" + AudioRef(i)
    case AudioPass(i) => "[" + NatToString(i) + ":a]asetpts=PTS-STARTPTS" + AudioRef(i)
    case Silence(i, e) => "anullsrc=channel_layout=stereo:sample_rate=48000,atrim=0:" + fmt(e) + AudioRef(i)
    case Concat(inputs, n, withAudio) =>
      if withAudio then inputs + "concat=n=" + NatToString(n) + ":v=1:a=1[outv][outa]"
      else inputs + "concat=n=" + NatToString(n) + ":v=1:a=0[outv]"
  }

  /** Every clip filter writes to its own label: `[v<i>]` for video, `[a<i>]` for audio. */
  lemma RenderedLabels(f: Filter, fmt: real -> string)
    ensures (f.VideoTrim? || f.VideoPass?) ==> EndsWith(Render(f, fmt), VideoRef(f.input))
    ensures (f.AudioTrim? || f.AudioPass? || f.Silence?) ==> EndsWith(Render(f, fmt), AudioRef(f.input))
    ensures f.Concat? ==> StartsWith(Render(f, fmt), f.inputs)
  {
    var r := Render(f, fmt);
    if f.Concat? {
      StartsWithIsPrefix(r, f.inputs);
    }
  }

  /** The filters emitted for clip `i`: its video, then its audio when audio is included. */
  function ClipFilters(i: nat, duration: real, trimEnd: real, hasAudio: bool, includeAudio: bool): (fs: seq<Filter>)
    ensures |fs| == if includeAudio then 2 else 1
  {
    [if trimEnd < duration then VideoTrim(i, trimEnd) else VideoPass(i)]
    + if !includeAudio then []
      else if !hasAudio then [Silence(i, trimEnd)]
      else if trimEnd < duration then [AudioTrim(i, trimEnd)]
      else [AudioPass(i)]
  }

  /**
   * A trim (or atrim) is emitted exactly when the clip is cut short; a clip
   * without audio gets silence trimmed to the same end.
   */
  lemma ClipFiltersTrim(i: nat, duration: real, trimEnd: real, hasAudio: bool, includeAudio: bool)
    ensures var fs := ClipFilters(i, duration, trimEnd, hasAudio, includeAudio);
      && (fs[0].VideoTrim? <==> trimEnd < duration)
      && fs[0].input == i
      && (fs[0].VideoTrim? ==> fs[0].end == trimEnd)
      && (includeAudio ==> fs[1].input == i)
      && (includeAudio && hasAudio ==> (fs[1].AudioTrim? <==> trimEnd < duration))
      && (includeAudio && !hasAudio ==> fs[1] == Silence(i, trimEnd))
  {
  }

  /** Where clip `i`'s filters start in `filter_parts`. */
  function Pos(i: nat, includeAudio: bool): nat {
    if includeAudio then 2 * i else i
  }

  /** The filters of the first `k` clips. */
  function FiltersUpTo(ds: seq<real>, audio: seq<bool>, overlap: real, includeAudio: bool, k: nat): (fs: seq<Filter>)
    requires k <= |ds| == |audio|
    ensures |fs| == Pos(k, includeAudio)
  {
    if k == 0 then []
    else
      FiltersUpTo(ds, audio, overlap, includeAudio, k - 1)
      + ClipFilters(k - 1, ds[k - 1], TrimEnd(ds[k - 1], overlap, k - 1, |ds|), audio[k - 1], includeAudio)
  }

  /** Clip `i`'s filters sit at `Pos(i)`, in input order. */
  lemma {:induction false} FiltersAt(ds: seq<real>, audio: seq<bool>, overlap: real, includeAudio: bool, k: nat, i: nat)
    requires i < k <= |ds| == |audio|
    ensures var fs := FiltersUpTo(ds, audio, overlap, includeAudio, k);
      var p := Pos(i, includeAudio);
      var n := if includeAudio then 2 else 1;
      p + n <= |fs| && fs[p..p + n] == ClipFilters(i, ds[i], TrimEnd(ds[i], overlap, i, |ds|), audio[i], includeAudio)
  {
    var fs := FiltersUpTo(ds, audio, overlap, includeAudio, k);
    var prev := FiltersUpTo(ds, audio, overlap, includeAudio, k - 1);
    var p := Pos(i, includeAudio);
    var n := if includeAudio then 2 else 1;
    if i < k - 1 {
      FiltersAt(ds, audio, overlap, includeAudio, k - 1, i);
      assert fs[p..p + n] == prev[p..p + n];
    } else {
      assert fs[p..p + n] == fs[|prev|..];
    }
  }

  /** `[f"[v{idx}]" ...]` for the first `k` clips. */
  function VideoRefs(k: nat): (refs: seq<string>)
    ensures |refs| == k
  {
    if k == 0 then [] else VideoRefs(k - 1) + [VideoRef(k - 1)]
  }

  function AudioRefs(k: nat): (refs: seq<string>)
    ensures |refs| == k
  {
    if k == 0 then [] else AudioRefs(k - 1) + [AudioRef(k - 1)]
  }

  /** The labels are listed one per clip, in input order. */
  lemma {:induction false} RefsInOrder(k: nat, i: nat)
    requires i < k
    ensures VideoRefs(k)[i] == VideoRef(i) && AudioRefs(k)[i] == AudioRef(i)
  {
    if i < k - 1 {
      RefsInOrder(k - 1, i);
    }
  }

  /** `"".join(refs)`. */
  function Concatenated(refs: seq<string>): string {
    if refs == [] then [] else refs[0] + Concatenated(refs[1..])
  }

  /** `zip(video_refs, audio_refs)` with each pair written video first. */
  function Paired(videoRefs: seq<string>, audioRefs: seq<string>): (pairs: seq<string>)
    requires |videoRefs| == |audioRefs|
    ensures |pairs| == |videoRefs|
    ensures forall i :: 0 <= i < |pairs| ==> pairs[i] == videoRefs[i] + audioRefs[i]
  {
    seq(|videoRefs|, i requires 0 <= i < |videoRefs| => videoRefs[i] + audioRefs[i])
  }

  /** The concat filter, reading every clip's labels in order. */
  function ConcatFilter(n: nat, includeAudio: bool): Filter {
    var inputs := if includeAudio then Concatenated(Paired(VideoRefs(n), AudioRefs(n))) else Concatenated(VideoRefs(n));
    Concat(inputs, n, includeAudio)
  }

  /** `filter_parts`: the clip filters in input order, then the concat filter. */
  function FilterGraph(ds: seq<real>, audio: seq<bool>, overlap: real): (fs: seq<Filter>)
    requires |ds| == |audio|
  {
    var includeAudio := true in audio;
    FiltersUpTo(ds, audio, overlap, includeAudio, |ds|) + [ConcatFilter(|ds|, includeAudio)]
  }

  /**
   * The concat filter comes last and joins as many inputs as there are clips,
   * with audio exactly when some clip has audio; before it come one or two
   * filters per clip.
   */
  lemma FilterGraphShape(ds: seq<real>, audio: seq<bool>, overlap: real)
    requires |ds| == |audio|
    ensures var fs := FilterGraph(ds, audio, overlap);
      var includeAudio := exists i :: 0 <= i < |audio| && audio[i];
      && |fs| == Pos(|ds|, includeAudio) + 1
      && fs[|fs| - 1] == ConcatFilter(|ds|, includeAudio)
      && fs[|fs| - 1].n == |ds| && (fs[|fs| - 1].withAudio <==> includeAudio)
  {
    var includeAudio := exists i :: 0 <= i < |audio| && audio[i];
    assert includeAudio <==> true in audio;
  }

  /**
   * The loop of `stitch_videos` that fills `filter_parts`, `video_refs` and
   * `audio_refs`, followed by the concat filter.
   */
  method PlanFilters(ds: seq<real>, audio: seq<bool>, overlap: real)
    returns (filters: seq<Filter>, videoRefs: seq<string>, audioRefs: seq<string>)
    requires |ds| == |audio|
    ensures filters == FilterGraph(ds, audio, overlap)
    ensures videoRefs == VideoRefs(|ds|)
    ensures audioRefs == if true in audio then AudioRefs(|ds|) else []
  {
    var includeAudio := true in audio;
    filters := [];
    videoRefs := [];
    audioRefs := [];
    var idx := 0;
    while idx < |ds|
      invariant idx <= |ds|
      invariant filters == FiltersUpTo(ds, audio, overlap, includeAudio, idx)
      invariant videoRefs == VideoRefs(idx)
      invariant audioRefs == if includeAudio then AudioRefs(idx) else []
    {
      var trimEnd := TrimEnd(ds[idx], overlap, idx, |ds|);
      filters := filters + ClipFilters(idx, ds[idx], trimEnd, audio[idx], includeAudio);
      videoRefs := videoRefs + [VideoRef(idx)];
      if includeAudio {
        audioRefs := audioRefs + [AudioRef(idx)];
      }
      idx := idx + 1;
    }
    var inputs := if includeAudio then Concatenated(Paired(videoRefs, audioRefs)) else Concatenated(videoRefs);
    filters := filters + [Concat(inputs, |ds|, includeAudio)];
  }

  /** `"; ".join(filter_parts)`. */
  function FilterComplex(fs: seq<Filter>, fmt: real -> string): string {
    Join(seq(|fs|, i requires 0 <= i < |fs| => Render(fs[i], fmt)), "; ")
  }

  // ---------------------------------------------------------------- command line

  /** `-i <path>` for each input, in order. */
  function InputArgs(paths: seq<string>): (args: seq<string>)
    ensures |args| == 2 * |paths|
  {
    if paths == [] then [] else InputArgs(paths[..|paths| - 1]) + ["-i", paths[|paths| - 1]]
  }

  /** Input `i` is given as the pair `-i`, path `i`. */
  lemma {:induction false} InputArgsAt(paths: seq<string>, i: nat)
    requires i < |paths|
    ensures InputArgs(paths)[2 * i] == "-i" && InputArgs(paths)[2 * i + 1] == paths[i]
  {
    var front := paths[..|paths| - 1];
    if i < |paths| - 1 {
      InputArgsAt(front, i);
      assert InputArgs(paths)[2 * i] == InputArgs(front)[2 * i];
      assert InputArgs(paths)[2 * i + 1] == InputArgs(front)[2 * i + 1];
    }
  }

  function AudioMap(includeAudio: bool): seq<string> {
    if includeAudio then ["-map", "[outa]"] else []
  }

  function AudioCodec(includeAudio: bool): seq<string> {
    if includeAudio then ["-c:a", "aac", "-b:a", "192k"] else []
  }

  const VideoCodec: seq<string> := ["-c:v", "libx264", "-preset", "fast", "-crf", "21", "-pix_fmt", "yuv420p"]

  /** The ffmpeg argument list `stitch_videos` runs. */
  function Command(paths: seq<string>, filterComplex: string, includeAudio: bool, output: string): seq<string> {
    ["ffmpeg"] + InputArgs(paths) + ["-filter_complex", filterComplex, "-map", "[outv]"]
    + AudioMap(includeAudio) + VideoCodec + AudioCodec(includeAudio)
    + ["-movflags", "+faststart", "-y", output]
  }

  /**
   * The command names ffmpeg, then every input in order, the filter graph
   * right after the inputs, and the output last; audio adds six arguments.
   */
  lemma CommandShape(paths: seq<string>, filterComplex: string, includeAudio: bool, output: string)
    ensures var cmd := Command(paths, filterComplex, includeAudio, output);
      && |cmd| == 2 * |paths| + (if includeAudio then 23 else 17)
      && cmd[0] == "ffmpeg"
      && cmd[2 * |paths| + 1] == "-filter_complex" && cmd[2 * |paths| + 2] == filterComplex
      && cmd[|cmd| - 1] == output
      && forall i :: 0 <= i < |paths| ==> cmd[2 * i + 1] == "-i" && cmd[2 * i + 2] == paths[i]
  {
    var cmd := Command(paths, filterComplex, includeAudio, output);
    forall i | 0 <= i < |paths|
      ensures cmd[2 * i + 1] == "-i" && cmd[2 * i + 2] == paths[i]
    {
      InputArgsAt(paths, i);
    }
  }

  /** `cmd` built with `extend` calls, as `stitch_videos` does. */
  method BuildCommand(paths: seq<string>, filterComplex: string, includeAudio: bool, output: string)
    returns (cmd: seq<string>)
    ensures cmd == Command(paths, filterComplex, includeAudio, output)
  {
    cmd := ["ffmpeg"];
    var i := 0;
    while i < |paths|
      invariant i <= |paths|
      invariant cmd == ["ffmpeg"] + InputArgs(paths[..i])
    {
      assert paths[..i + 1][..i] == paths[..i];
      cmd := cmd + ["-i", paths[i]];
      i := i + 1;
    }
    assert paths[..i] == paths;
    cmd := cmd + ["-filter_complex", filterComplex, "-map", "[outv]"];
    cmd := cmd + AudioMap(includeAudio);
    cmd := cmd + VideoCodec;
    cmd := cmd + AudioCodec(includeAudio);
    cmd := cmd + ["-movflags", "+faststart", "-y", output];
  }

  // ---------------------------------------------------------------- stitch_videos

  /** What a successful stitch ran and where it wrote. */
  datatype StitchRun = StitchRun(command: seq<string>, output: string)

  function Paths(files: seq<VideoFile>): (ps: seq<string>)
    ensures |ps| == |files| && forall i :: 0 <= i < |files| ==> ps[i] == files[i].path
  {
    seq(|files|, i requires 0 <= i < |files| => files[i].path)
  }

  function AudioPresence(files: seq<VideoFile>, hasAudio: string -> bool): (audio: seq<bool>)
    ensures |audio| == |files| && forall i :: 0 <= i < |files| ==> audio[i] == hasAudio(files[i].path)
  {
    seq(|files|, i requires 0 <= i < |files| => hasAudio(files[i].path))
  }

  /**
   * `stitch_videos`. `output` is the chosen output path; `hasAudio` answers
   * ffprobe's audio check; `ffmpeg` runs a command and answers None on
   * success or the failure detail. Every check happens before the command is
   * built, and the command is run once.
   */
  method StitchVideos(files: seq<VideoFile>, overlap: real, output: string, hasAudio: string -> bool,
                      fmt: real -> string, ffmpeg: seq<string> -> Option<string>)
    returns (r: Result<StitchRun>)
    ensures Validate(files).Err? ==> r == Err(Validate(files).error)
    ensures Validate(files).Ok? ==>
      var audio := AudioPresence(files, hasAudio);
      var fc := FilterComplex(FilterGraph(Validate(files).value, audio, overlap), fmt);
      var cmd := Command(Paths(files), fc, true in audio, output);
      r == if ffmpeg(cmd).Some? then Err(RuntimeError(FfmpegFailurePrefix + ffmpeg(cmd).value))
           else Ok(StitchRun(cmd, output))
  {
    var checked := CheckInputs(files);
    if checked.Err? {
      return Err(checked.error);
    }
    var ds := checked.value;
    var audio := AudioPresence(files, hasAudio);
    var includeAudio := true in audio;
    var filters, videoRefs, audioRefs := PlanFilters(ds, audio, overlap);
    var fc := FilterComplex(filters, fmt);
    var cmd := BuildCommand(Paths(files), fc, includeAudio, output);
    var failure := ffmpeg(cmd);
    if failure.Some? {
      return Err(RuntimeError(FfmpegFailurePrefix + failure.value));
    }
    return Ok(StitchRun(cmd, output));
  }

  /** Fewer than two inputs fail before anything else is looked at. */
  lemma TooFewFirst(files: seq<VideoFile>)
    requires |files| < 2
    ensures Validate(files) == Err(ValueError(TooFewMessage))
  {
  }

  // ---------------------------------------------------------------- stitch_with_transitions

  function TransitionCountMessage(n: nat): string {
    "Need " + IntToString(n - 1) + " transitions for " + NatToString(n) + " videos"
  }

  /**
   * The list `stitch_with_transitions` stitches: each video but the last
   * followed by its transition, then the last video. The counts must match.
   */
  method Interleave<T>(videos: seq<T>, transitions: seq<T>) returns (r: Result<seq<T>>)
    ensures r.Err? <==> |transitions| != |videos| - 1
    ensures r.Err? ==> r.error == ValueError(TransitionCountMessage(|videos|))
    ensures r.Ok? ==>
      && |r.value| == 2 * |videos| - 1
      && (forall i :: 0 <= i < |videos| ==> r.value[2 * i] == videos[i])
      && (forall i :: 0 <= i < |transitions| ==> r.value[2 * i + 1] == transitions[i])
  {
    if |transitions| != |videos| - 1 {
      return Err(ValueError(TransitionCountMessage(|videos|)));
    }
    var combined: seq<T> := [];
    var i := 0;
    while i < |videos| - 1
      invariant i <= |videos| - 1
      invariant |combined| == 2 * i
      invariant forall j :: 0 <= j < i ==> combined[2 * j] == videos[j] && combined[2 * j + 1] == transitions[j]
    {
      combined := combined + [videos[i], transitions[i]];
      i := i + 1;
    }
    combined := combined + [videos[|videos| - 1]];
    return Ok(combined);
  }

  /** `stitch_with_transitions`: interleave, then stitch with no overlap. */
  method StitchWithTransitions(videos: seq<VideoFile>, transitions: seq<VideoFile>, output: string,
                               hasAudio: string -> bool, fmt: real -> string, ffmpeg: seq<string> -> Option<string>)
    returns (r: Result<StitchRun>, combined: seq<VideoFile>)
    ensures |transitions| != |videos| - 1 ==> r == Err(ValueError(TransitionCountMessage(|videos|)))
    ensures |transitions| == |videos| - 1 ==>
      && |combined| == 2 * |videos| - 1
      && (Validate(combined).Err? ==> r == Err(Validate(combined).error))
      && (Validate(combined).Ok? ==>
            var audio := AudioPresence(combined, hasAudio);
            var fc := FilterComplex(FilterGraph(Validate(combined).value, audio, 0.0), fmt);
            var cmd := Command(Paths(combined), fc, true in audio, output);
            r == if ffmpeg(cmd).Some? then Err(RuntimeError(FfmpegFailurePrefix + ffmpeg(cmd).value))
                 else Ok(StitchRun(cmd, output)))
  {
    var interleaved := Interleave(videos, transitions);
    if interleaved.Err? {
      return Err(interleaved.error), [];
    }
    combined := interleaved.value;
    r := StitchVideos(combined, 0.0, output, hasAudio, fmt, ffmpeg);
  }

  /** With no overlap no clip is trimmed, so transitions are kept whole. */
  lemma {:induction false} NoOverlapNoTrim(ds: seq<real>, audio: seq<bool>, includeAudio: bool, k: nat)
    requires k <= |ds| == |audio|
    ensures forall f :: f in FiltersUpTo(ds, audio, 0.0, includeAudio, k) ==>
      !f.VideoTrim? && !f.AudioTrim?
  {
    if k > 0 {
      NoOverlapNoTrim(ds, audio, includeAudio, k - 1);
    }
  }

  // ---------------------------------------------------------------- create_transition_points

  /** The offsets `create_transition_points` extracts at: `a_end` and `b_start`, defaulting to -1.0 and 1.0. */
  function TransitionOffsets(points: Option<map<string, real>>): (offsets: (real, real))
    ensures points.None? ==> offsets == (-1.0, 1.0)
    ensures points.Some? ==>
      && offsets.0 == (if "a_end" in points.value then points.value["a_end"] else -1.0)
      && offsets.1 == (if "b_start" in points.value then points.value["b_start"] else 1.0)
  {
    var p := points.GetOr(map["a_end" := -1.0, "b_start" := 1.0]);
    (if "a_end" in p then p["a_end"] else -1.0, if "b_start" in p then p["b_start"] else 1.0)
  }

  /**
   * `create_transition_points`: a frame near the end of `a`, then one near the
   * start of `b`. `defaultPath` names a stored frame from the video it comes
   * from and the target time, so each frame's name carries its own video's stem.
   */
  function CreateTransitionPoints(a: VideoFile, b: VideoFile, points: Option<map<string, real>>,
                                  defaultPath: (string, real) -> string, render: real -> string)
    : (r: Result<(string, string)>)
    ensures var offsets := TransitionOffsets(points);
      var fa := ExtractFrame(a, offsets.0, None, t => defaultPath(a.path, t), render);
      var fb := ExtractFrame(b, offsets.1, None, t => defaultPath(b.path, t), render);
      && (fa.Err? ==> r == Err(fa.error))
      && (fa.Ok? && fb.Err? ==> r == Err(fb.error))
      && (fa.Ok? && fb.Ok? ==> r == Ok((fa.value, fb.value)))
    ensures r.Ok? ==> var offsets := TransitionOffsets(points);
      && r.value.0 == defaultPath(a.path, TargetTime(Duration(a.fps, a.frameCount), offsets.0))
      && r.value.1 == defaultPath(b.path, TargetTime(Duration(b.fps, b.frameCount), offsets.1))
  {
    var offsets := TransitionOffsets(points);
    var fa :- ExtractFrame(a, offsets.0, None, t => defaultPath(a.path, t), render);
    var fb :- ExtractFrame(b, offsets.1, None, t => defaultPath(b.path, t), render);
    Ok((fa, fb))
  }

  /** With the default offsets the first frame lands one second before `a`'s end (or at its start) and the second one second into `b` (or at its end). */
  lemma DefaultTransitionTimes(a: VideoFile, b: VideoFile)
    requires a.frameCount >= 0 && b.frameCount >= 0
    ensures var da := Duration(a.fps, a.frameCount);
      TargetTime(da, TransitionOffsets(None).0) == (if da > 1.0 then da - 1.0 else 0.0)
    ensures var db := Duration(b.fps, b.frameCount);
      TargetTime(db, TransitionOffsets(None).1) == (if db < 1.0 then db else 1.0)
  {
  }
}
