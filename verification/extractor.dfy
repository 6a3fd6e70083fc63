/**
 * Frame extraction (veo_tools/process/extractor.py): the duration a capture
 * reports, where an offset lands in the video, and which frames
 * `extract_frames` keeps. The video file is a value: whether it exists, the
 * frame rate and frame count the capture reports, and which frame positions
 * can be read. Output file names are a parameter, since they embed the target
 * time formatted to one decimal.
 */
module Extractor {
  import opened Wrappers

  /** What OpenCV reports for one video path. */
  datatype VideoFile = VideoFile(
    path: string,
    onDisk: bool,
    fps: real,
    frameCount: int,
    width: int,
    height: int,
    readable: int -> bool)

  /** The dictionary `get_video_info` returns. */
  datatype VideoInfo = VideoInfo(fps: real, frameCount: int, width: int, height: int, duration: real)

  function NotFoundMessage(path: string): string {
    "Video not found: " + path
  }

  /** `total_frames / fps if fps > 0 else 0`. */
  function Duration(fps: real, frameCount: int): (d: real)
    ensures fps <= 0.0 ==> d == 0.0
    ensures frameCount >= 0 ==> d >= 0.0
  {
    if fps > 0.0 then frameCount as real / fps else 0.0
  }

  /** At a positive frame rate the duration spans exactly the frame count. */
  lemma DurationSpansFrames(fps: real, frameCount: int)
    requires fps > 0.0
    ensures Duration(fps, frameCount) * fps == frameCount as real
  {
  }

  /**
   * The target time of an offset: a negative offset counts back from the end
   * and stops at 0, a non-negative one counts from the start and stops at the
   * end.
   */
  function TargetTime(duration: real, offset: real): real {
    if offset < 0.0 then
      (if duration + offset > 0.0 then duration + offset else 0.0)
    else
      (if duration < offset then duration else offset)
  }

  /** On a video of non-negative duration every offset lands inside the video. */
  lemma TargetTimeInside(duration: real, offset: real)
    requires duration >= 0.0
    ensures 0.0 <= TargetTime(duration, offset) <= duration
    ensures offset < 0.0 && -offset <= duration ==> TargetTime(duration, offset) == duration + offset
    ensures 0.0 <= offset <= duration ==> TargetTime(duration, offset) == offset
    ensures offset < 0.0 && -offset > duration ==> TargetTime(duration, offset) == 0.0
    ensures offset > duration ==> TargetTime(duration, offset) == duration
  {
  }

  /** Python's `int()` on a float: truncation toward zero. */
  function Trunc(x: real): (n: int)
    ensures x >= 0.0 ==> n as real <= x < n as real + 1.0
    ensures x < 0.0 ==> n as real - 1.0 < x <= n as real
  {
    if x >= 0.0 then x.Floor else -((-x).Floor)
  }

  /** `int(target_time * fps)`: the frame the capture is positioned on. */
  function TargetFrame(file: VideoFile, offset: real): int {
    Trunc(TargetTime(Duration(file.fps, file.frameCount), offset) * file.fps)
  }

  /** A positioned frame never lies beyond the frame count. */
  lemma TargetFrameInside(file: VideoFile, offset: real)
    requires file.fps > 0.0 && file.frameCount >= 0
    ensures 0 <= TargetFrame(file, offset) <= file.frameCount
  {
    var d := Duration(file.fps, file.frameCount);
    var t := TargetTime(d, offset);
    TargetTimeInside(d, offset);
    DurationSpansFrames(file.fps, file.frameCount);
    assert (d - t) * file.fps >= 0.0;
    assert t * file.fps >= 0.0;
    assert t * file.fps <= file.frameCount as real;
  }

  /** `get_video_info`: the capture's properties and the derived duration, or FileNotFoundError. */
  function GetVideoInfo(file: VideoFile): (r: Result<VideoInfo>)
    ensures r.Err? <==> !file.onDisk
    ensures r.Err? ==> r.error == FileNotFoundError(NotFoundMessage(file.path))
    ensures r.Ok? ==> r.value.fps == file.fps && r.value.frameCount == file.frameCount
    ensures r.Ok? ==> r.value.width == file.width && r.value.height == file.height
    ensures r.Ok? ==> r.value.duration == Duration(file.fps, file.frameCount)
  {
    if !file.onDisk then Err(FileNotFoundError(NotFoundMessage(file.path)))
    else Ok(VideoInfo(file.fps, file.frameCount, file.width, file.height, Duration(file.fps, file.frameCount)))
  }

  /**
   * `extract_frame`. `output` is the caller's output path, or None;
   * `defaultPath` names the stored frame for a target time and `render` is the
   * one-decimal rendering of a time used in the error message.
   */
  function ExtractFrame(file: VideoFile, offset: real, output: Option<string>,
                        defaultPath: real -> string, render: real -> string): (r: Result<string>)
    ensures r.Err? <==> !file.onDisk || !file.readable(TargetFrame(file, offset))
    ensures !file.onDisk ==> r == Err(FileNotFoundError(NotFoundMessage(file.path)))
    ensures var t := TargetTime(Duration(file.fps, file.frameCount), offset);
      file.onDisk && !file.readable(TargetFrame(file, offset)) ==>
        r == Err(RuntimeError("Failed to extract frame at " + render(t) + "s"))
    ensures r.Ok? ==> r.value == output.GetOr(defaultPath(TargetTime(Duration(file.fps, file.frameCount), offset)))
  {
    if !file.onDisk then Err(FileNotFoundError(NotFoundMessage(file.path)))
    else
      var t := TargetTime(Duration(file.fps, file.frameCount), offset);
      if !file.readable(TargetFrame(file, offset)) then Err(RuntimeError("Failed to extract frame at " + render(t) + "s"))
      else Ok(output.GetOr(defaultPath(t)))
  }

  /** Whether the frame an offset lands on can be read, offset by offset. */
  function ReadFlags(file: VideoFile, times: seq<real>): (flags: seq<bool>)
    ensures |flags| == |times|
    ensures forall i :: 0 <= i < |times| ==> flags[i] == file.readable(TargetFrame(file, times[i]))
  {
    seq(|times|, i requires 0 <= i < |times| => file.readable(TargetFrame(file, times[i])))
  }

  /** The positions among the first `k` flags that are set, in increasing order. */
  function Kept(flags: seq<bool>, k: nat): (idx: seq<nat>)
    requires k <= |flags|
    ensures |idx| <= k
    ensures forall j :: 0 <= j < |idx| ==> idx[j] < k && flags[idx[j]]
  {
    if k == 0 then []
    else Kept(flags, k - 1) + (if flags[k - 1] then [k - 1] else [])
  }

  predicate Increasing(s: seq<nat>) {
    forall a, b :: 0 <= a < b < |s| ==> s[a] < s[b]
  }

  lemma IncreasingAppend(s: seq<nat>, x: nat)
    requires Increasing(s) && forall j :: 0 <= j < |s| ==> s[j] < x
    ensures Increasing(s + [x])
  {
    var t := s + [x];
    forall a, b | 0 <= a < b < |t|
      ensures t[a] < t[b]
    {
      if b < |s| {
        assert t[a] == s[a] && t[b] == s[b];
      }
    }
  }

  /** The kept positions are strictly increasing. */
  lemma {:induction false} KeptInOrder(flags: seq<bool>, k: nat)
    requires k <= |flags|
    ensures Increasing(Kept(flags, k))
  {
    if k > 0 {
      KeptInOrder(flags, k - 1);
      if flags[k - 1] {
        IncreasingAppend(Kept(flags, k - 1), k - 1);
      } else {
        assert Kept(flags, k) == Kept(flags, k - 1);
      }
    }
  }

  /** Every set flag among the first `k` is kept. */
  lemma {:induction false} KeptComplete(flags: seq<bool>, k: nat, i: nat)
    requires i < k <= |flags| && flags[i]
    ensures i in Kept(flags, k)
  {
    if i < k - 1 {
      KeptComplete(flags, k - 1, i);
    }
  }

  /** When every flag is set, every position is kept. */
  lemma {:induction false} AllSetAllKept(flags: seq<bool>, k: nat)
    requires k <= |flags|
    requires forall i :: 0 <= i < k ==> flags[i]
    ensures |Kept(flags, k)| == k
  {
    if k > 0 {
      AllSetAllKept(flags, k - 1);
    }
  }

  /**
   * `extract_frames`: one output path per readable offset, in the order of
   * `times`; unreadable offsets are skipped. `nameFor(i, t)` is the path for
   * offset `i` landing at time `t`.
   */
  method ExtractFrames(file: VideoFile, times: seq<real>, nameFor: (nat, real) -> string)
    returns (r: Result<seq<string>>)
    ensures r.Err? <==> !file.onDisk
    ensures r.Err? ==> r.error == FileNotFoundError(NotFoundMessage(file.path))
    ensures r.Ok? ==> var idx := Kept(ReadFlags(file, times), |times|);
      && |r.value| == |idx|
      && forall j :: 0 <= j < |idx| ==>
           r.value[j] == nameFor(idx[j], TargetTime(Duration(file.fps, file.frameCount), times[idx[j]]))
  {
    if !file.onDisk {
      return Err(FileNotFoundError(NotFoundMessage(file.path)));
    }
    var duration := Duration(file.fps, file.frameCount);
    ghost var flags := ReadFlags(file, times);
    var frames: seq<string> := [];
    var i := 0;
    while i < |times|
      invariant i <= |times|
      invariant |frames| == |Kept(flags, i)|
      invariant forall j :: 0 <= j < |frames| ==>
        frames[j] == nameFor(Kept(flags, i)[j], TargetTime(duration, times[Kept(flags, i)[j]]))
    {
      var target := TargetTime(duration, times[i]);
      var read := file.readable(TargetFrame(file, times[i]));
      assert read == flags[i];
      if read {
        frames := frames + [nameFor(i, target)];
      }
      i := i + 1;
    }
    return Ok(frames);
  }
}
