/**
 * The video pipeline: sample frames with the external media tool, send them
 * with the prompt to the remote model, and wrap the outcome in the response
 * envelope. The media tool, its duration probe and the remote model are
 * inputs (`Externals`); what the code decides around them is modelled.
 */
module AnalysisPipeline {
  import opened Wrappers
  import opened Strings
  import opened Values
  import CoachingPrompt

  /** Frames sampled per video. */
  const FramesToExtract: int := 10
  /** Longest stretch of video analysed, in seconds. */
  const MaxVideoDuration: int := 120

  // ---------------------------------------------------------------------
  // Exceptions and the external collaborators
  // ---------------------------------------------------------------------

  /** Which `except` clause of the pipeline catches an exception:
      FileNotFoundError, RuntimeError, the model client's APIError, or any
      other Exception. */
  datatype ErrorKind = FileNotFound | Runtime | Api | Other

  /** A raised exception: its category and `str(e)`. */
  datatype Exception = Exception(kind: ErrorKind, message: string)

  /** The outcome of probing the video's duration. */
  datatype Probe = Duration(seconds: real) | ProbeRaised(exception: Exception)

  /** A file the media tool wrote into the scratch directory, with its
      content already base64-encoded. */
  datatype FrameFile = FrameFile(name: string, data: string)

  /** What the media tool is asked for: the input path, the sampling
      interval in seconds and the number of frames. */
  datatype FrameRequest = FrameRequest(input: string, interval: real, count: int)

  /** A run of the media tool: its exit code, its stderr and the files it
      left in the scratch directory (in directory order); or an exception
      from launching it or from its timeout. */
  datatype ToolRun =
    | Exited(code: int, stderr: string, files: seq<FrameFile>)
    | ToolRaised(exception: Exception)

  /** One block of the user message sent to the model. */
  datatype Block =
    | Image(sourceType: string, mediaType: string, data: string)
    | Text(text: string)

  /** The model's reply: the text of its first content block, or an exception. */
  datatype Reply = Answer(text: string) | ReplyRaised(exception: Exception)

  /** Everything outside the process that the pipeline consults. */
  datatype Externals = Externals(
    probe: Probe,
    tool: FrameRequest -> ToolRun,
    remote: seq<Block> -> Reply)

  // ---------------------------------------------------------------------
  // Sampling plan
  // ---------------------------------------------------------------------

  /** The duration actually analysed: longer videos are cut to the cap. */
  function EffectiveDuration(probed: real): (r: real)
    ensures r <= probed && r <= MaxVideoDuration as real
    ensures r == probed || r == MaxVideoDuration as real
  {
    if probed > MaxVideoDuration as real then MaxVideoDuration as real else probed
  }

  /** The request handed to the media tool: `num_frames` frames, one every
      `duration / num_frames` seconds. */
  function FrameRequestFor(videoPath: string, probed: real, numFrames: int): (r: FrameRequest)
    requires numFrames != 0
    ensures r.input == videoPath && r.count == numFrames
    ensures r.interval * numFrames as real == EffectiveDuration(probed)
  {
    FrameRequest(videoPath, EffectiveDuration(probed) / numFrames as real, numFrames)
  }

  /** The requested frames span exactly the analysed duration, which is the
      probed one capped at 120 seconds; the frame count is unchanged. */
  lemma SamplingPlan(videoPath: string, probed: real, numFrames: int)
    requires numFrames > 0
    ensures var q := FrameRequestFor(videoPath, probed, numFrames);
            && q.input == videoPath && q.count == numFrames
            && q.interval * numFrames as real == EffectiveDuration(probed)
            && q.interval * numFrames as real <= MaxVideoDuration as real
            && (probed > MaxVideoDuration as real ==> q.interval * numFrames as real == MaxVideoDuration as real)
            && (probed <= MaxVideoDuration as real ==> q.interval * numFrames as real == probed)
  {
  }

  // ---------------------------------------------------------------------
  // Frame files: glob "frame_*.jpg", then sort by name
  // ---------------------------------------------------------------------

  /** The name matches the glob pattern `frame_*.jpg`. */
  predicate IsFrameFileName(name: string) {
    |name| >= 10 && name[..6] == "frame_" && name[|name| - 4..] == ".jpg"
  }

  /** The files of a listing that match `frame_*.jpg`, in listing order. */
  function FrameFilesIn(listing: seq<FrameFile>): (r: seq<FrameFile>)
    ensures forall f :: f in r ==> f in listing && IsFrameFileName(f.name)
    ensures forall f :: f in listing && IsFrameFileName(f.name) ==> f in r
    ensures forall f: FrameFile :: IsFrameFileName(f.name) ==> multiset(r)[f] == multiset(listing)[f]
    ensures multiset(r) <= multiset(listing)
  {
    if listing == [] then []
    else
      assert listing == [listing[0]] + listing[1..];
      (if IsFrameFileName(listing[0].name) then [listing[0]] else [])
      + FrameFilesIn(listing[1..])
  }

  /** Python's `<=` on strings: code-point lexicographic order. */
  predicate NameLeq(a: string, b: string)
    decreases |a|
  {
    a == [] || (b != [] && (a[0] < b[0] || (a[0] == b[0] && NameLeq(a[1..], b[1..]))))
  }

  lemma {:induction false} NameLeqTotal(a: string, b: string)
    ensures NameLeq(a, b) || NameLeq(b, a)
    decreases |a|
  {
    if a != [] && b != [] && a[0] == b[0] {
      NameLeqTotal(a[1..], b[1..]);
    }
  }

  predicate SortedByName(fs: seq<FrameFile>) {
    forall i :: 0 <= i < |fs| - 1 ==> NameLeq(fs[i].name, fs[i + 1].name)
  }

  /** Inserts `f` into a sorted sequence, before the first name not smaller than its own. */
  function InsertByName(f: FrameFile, fs: seq<FrameFile>): (r: seq<FrameFile>)
    requires SortedByName(fs)
    ensures SortedByName(r)
    ensures multiset(r) == multiset(fs) + multiset{f}
    ensures |r| == |fs| + 1 && (r[0] == f || (fs != [] && r[0] == fs[0]))
  {
    if fs == [] || NameLeq(f.name, fs[0].name) then [f] + fs
    else
      NameLeqTotal(f.name, fs[0].name);
      assert fs == [fs[0]] + fs[1..];
      [fs[0]] + InsertByName(f, fs[1..])
  }

  /** `sorted(files)`: the same files, in ascending name order. */
  function SortByName(fs: seq<FrameFile>): (r: seq<FrameFile>)
    ensures SortedByName(r)
    ensures multiset(r) == multiset(fs)
  {
    if fs == [] then []
    else
      assert fs == [fs[0]] + fs[1..];
      InsertByName(fs[0], SortByName(fs[1..]))
  }

  /** The encoded contents of the files, in the same order. */
  function Payloads(fs: seq<FrameFile>): (r: seq<string>)
    ensures |r| == |fs| && forall i :: 0 <= i < |fs| ==> r[i] == fs[i].data
  {
    seq(|fs|, i requires 0 <= i < |fs| => fs[i].data)
  }

  // ---------------------------------------------------------------------
  // extract_frames
  // ---------------------------------------------------------------------

  const NoFramesMessage: string := "No frames were extracted. Check video format."

  /** What `extract_frames(video_path, num_frames)` returns or raises. */
  function ExtractFramesResult(videoPath: string, pathExists: bool, numFrames: int,
                               probe: Probe, tool: FrameRequest -> ToolRun): (r: Result<seq<string>, Exception>)
    ensures r.Ok? ==> pathExists && probe.Duration? && numFrames != 0 && |r.value| > 0
  {
    if !pathExists then Err(Exception(FileNotFound, "Video not found: " + videoPath))
    else match probe
      case ProbeRaised(e) => Err(e)
      case Duration(probed) =>
        if numFrames == 0 then
          // `duration / num_frames` with the int cap or the probed float
          Err(Exception(Other, if probed > MaxVideoDuration as real then "division by zero"
                               else "float division by zero"))
        else match tool(FrameRequestFor(videoPath, probed, numFrames))
          case ToolRaised(e) => Err(e)
          case Exited(code, stderr, listing) =>
            if code != 0 then Err(Exception(Runtime, "FFmpeg failed: " + stderr))
            else
              var frameFiles := SortByName(FrameFilesIn(listing));
              if frameFiles == [] then Err(Exception(Runtime, NoFramesMessage))
              else Ok(Payloads(frameFiles))
  }

  /** `extract_frames`: the checks in order, then one encoded frame per
      frame file, appended in name order. */
  method ExtractFrames(videoPath: string, pathExists: bool, numFrames: int,
                       probe: Probe, tool: FrameRequest -> ToolRun)
    returns (r: Result<seq<string>, Exception>)
    ensures r == ExtractFramesResult(videoPath, pathExists, numFrames, probe, tool)
    ensures r.Ok? ==> |r.value| > 0
  {
    if !pathExists {
      return Err(Exception(FileNotFound, "Video not found: " + videoPath));
    }
    if probe.ProbeRaised? {
      return Err(probe.exception);
    }
    var duration := probe.seconds;
    if duration > MaxVideoDuration as real {
      duration := MaxVideoDuration as real;
    }
    if numFrames == 0 {
      return Err(Exception(Other, if probe.seconds > MaxVideoDuration as real then "division by zero"
                                  else "float division by zero"));
    }
    var interval := duration / numFrames as real;
    assert duration == EffectiveDuration(probe.seconds);
    assert FrameRequest(videoPath, interval, numFrames) == FrameRequestFor(videoPath, probe.seconds, numFrames);
    var run := tool(FrameRequest(videoPath, interval, numFrames));
    if run.ToolRaised? {
      return Err(run.exception);
    }
    if run.code != 0 {
      return Err(Exception(Runtime, "FFmpeg failed: " + run.stderr));
    }
    var frameFiles := SortByName(FrameFilesIn(run.files));
    if frameFiles == [] {
      return Err(Exception(Runtime, NoFramesMessage));
    }
    assert ExtractFramesResult(videoPath, pathExists, numFrames, probe, tool) == Ok(Payloads(frameFiles));
    var frames := LoadFrames(frameFiles);
    r := Ok(frames);
  }

  /** The loop of `extract_frames` that appends each file's encoded content. */
  method LoadFrames(frameFiles: seq<FrameFile>) returns (frames: seq<string>)
    ensures frames == Payloads(frameFiles)
  {
    frames := [];
    for i := 0 to |frameFiles|
      invariant |frames| == i
      invariant forall k :: 0 <= k < i ==> frames[k] == frameFiles[k].data
    {
      frames := frames + [frameFiles[i].data];
    }
  }

  /** When `extract_frames` succeeds and when it fails, and with what. */
  lemma ExtractFramesOutcome(videoPath: string, pathExists: bool, numFrames: int,
                             probe: Probe, tool: FrameRequest -> ToolRun)
    ensures var r := ExtractFramesResult(videoPath, pathExists, numFrames, probe, tool);
      // a missing file is reported before anything is probed or run
      && (!pathExists ==> r == Err(Exception(FileNotFound, "Video not found: " + videoPath)))
      && (pathExists && probe.ProbeRaised? ==> r == Err(probe.exception))
      && (pathExists && probe.Duration? && numFrames == 0 ==> r.Err? && r.error.kind == Other)
      && (pathExists && probe.Duration? && numFrames != 0 ==>
            var run := tool(FrameRequestFor(videoPath, probe.seconds, numFrames));
            && (run.ToolRaised? ==> r == Err(run.exception))
            && (run.Exited? && run.code != 0 ==> r == Err(Exception(Runtime, "FFmpeg failed: " + run.stderr)))
            && (run.Exited? && run.code == 0 && FrameFilesIn(run.files) == [] ==>
                  r == Err(Exception(Runtime, NoFramesMessage)))
            && (run.Exited? && run.code == 0 && FrameFilesIn(run.files) != [] ==>
                  r.Ok? && |r.value| == |FrameFilesIn(run.files)|))
  {
    if pathExists && probe.Duration? && numFrames != 0 {
      var run := tool(FrameRequestFor(videoPath, probe.seconds, numFrames));
      if run.Exited? && run.code == 0 {
        var matching := FrameFilesIn(run.files);
        assert |SortByName(matching)| == |matching| by {
          assert |multiset(SortByName(matching))| == |multiset(matching)|;
        }
      }
    }
  }

  /** On success the frames are the contents of the files named `frame_*.jpg`,
      each exactly once, in ascending name order. */
  lemma ExtractedFramesInNameOrder(videoPath: string, pathExists: bool, numFrames: int,
                                   probe: Probe, tool: FrameRequest -> ToolRun)
    requires ExtractFramesResult(videoPath, pathExists, numFrames, probe, tool).Ok?
    ensures pathExists && probe.Duration? && numFrames != 0
    ensures var run := tool(FrameRequestFor(videoPath, probe.seconds, numFrames));
            var frames := ExtractFramesResult(videoPath, pathExists, numFrames, probe, tool).value;
            && run.Exited? && run.code == 0
            && exists fs: seq<FrameFile> ::
                 && SortedByName(fs)
                 && multiset(fs) == multiset(FrameFilesIn(run.files))
                 && |frames| == |fs| > 0
                 && forall i :: 0 <= i < |fs| ==> frames[i] == fs[i].data
  {
    var run := tool(FrameRequestFor(videoPath, probe.seconds, numFrames));
    var fs := SortByName(FrameFilesIn(run.files));
    assert SortedByName(fs) && multiset(fs) == multiset(FrameFilesIn(run.files));
  }

  // ---------------------------------------------------------------------
  // The user message: frames, labels, prompt
  // ---------------------------------------------------------------------

  function ImageBlock(data: string): Block {
    Image("base64", "image/jpeg", data)
  }

  /** The text block "[Frame k]" that follows the k-th image. */
  function FrameLabel(k: int): Block {
    Text("[Frame " + Decimal(k) + "]")
  }

  /** The image and label blocks for the frames, as the loop appends them. */
  function FrameBlocks(frames: seq<string>): seq<Block>
    decreases |frames|
  {
    if frames == [] then []
    else FrameBlocks(frames[..|frames| - 1])
         + [ImageBlock(frames[|frames| - 1]), FrameLabel(|frames|)]
  }

  lemma {:induction false} FrameBlocksLength(frames: seq<string>)
    ensures |FrameBlocks(frames)| == 2 * |frames|
    decreases |frames|
  {
    if frames != [] {
      FrameBlocksLength(frames[..|frames| - 1]);
    }
  }

  /** Block 2i is frame i unchanged, block 2i+1 is its label "[Frame i+1]". */
  lemma {:induction false} FrameBlocksAt(frames: seq<string>, i: nat)
    requires i < |frames|
    ensures |FrameBlocks(frames)| == 2 * |frames|
    ensures FrameBlocks(frames)[2 * i] == ImageBlock(frames[i])
    ensures FrameBlocks(frames)[2 * i + 1] == FrameLabel(i + 1)
    decreases |frames|
  {
    FrameBlocksLength(frames);
    var init := frames[..|frames| - 1];
    FrameBlocksLength(init);
    if i < |frames| - 1 {
      FrameBlocksAt(init, i);
    }
  }

  /** The whole user message: frames with labels, then the prompt. */
  function Content(frames: seq<string>, strokeType: string, info: Option<Dict>): seq<Block> {
    FrameBlocks(frames) + [Text(CoachingPrompt.BuildUserPrompt(|frames|, strokeType, info))]
  }

  /** For n frames the message has 2n+1 blocks, frames and labels
      interleaved in order, and ends with the prompt for n frames. */
  lemma ContentLayout(frames: seq<string>, strokeType: string, info: Option<Dict>)
    ensures var c := Content(frames, strokeType, info);
            && |c| == 2 * |frames| + 1
            && (forall i :: 0 <= i < |frames| ==>
                  c[2 * i] == ImageBlock(frames[i]) && c[2 * i + 1] == FrameLabel(i + 1))
            && c[2 * |frames|] == Text(CoachingPrompt.BuildUserPrompt(|frames|, strokeType, info))
  {
    FrameBlocksLength(frames);
    forall i | 0 <= i < |frames|
      ensures Content(frames, strokeType, info)[2 * i] == ImageBlock(frames[i])
      ensures Content(frames, strokeType, info)[2 * i + 1] == FrameLabel(i + 1)
    {
      FrameBlocksAt(frames, i);
    }
  }

  /** The content-building loop of `analyze_frames_with_claude`. */
  method BuildContent(frames: seq<string>, strokeType: string, info: Option<Dict>)
    returns (content: seq<Block>)
    ensures content == Content(frames, strokeType, info)
  {
    content := [];
    for i := 0 to |frames|
      invariant content == FrameBlocks(frames[..i])
    {
      assert frames[..i + 1][..i] == frames[..i];
      content := content + [ImageBlock(frames[i]), FrameLabel(i + 1)];
    }
    assert frames[..|frames|] == frames;
    var userPrompt := CoachingPrompt.BuildUserPrompt(|frames|, strokeType, info);
    content := content + [Text(userPrompt)];
  }

  /** What `analyze_frames_with_claude` returns or raises. */
  function RemoteAnalysis(frames: seq<string>, strokeType: string, info: Option<Dict>,
                          remote: seq<Block> -> Reply): Result<string, Exception>
  {
    match remote(Content(frames, strokeType, info))
    case Answer(text) => Ok(text)
    case ReplyRaised(e) => Err(e)
  }

  /** `analyze_frames_with_claude`: build the message, send it once. */
  method AnalyzeFrames(frames: seq<string>, strokeType: string, info: Option<Dict>,
                       remote: seq<Block> -> Reply)
    returns (r: Result<string, Exception>)
    ensures r == RemoteAnalysis(frames, strokeType, info, remote)
  {
    var content := BuildContent(frames, strokeType, info);
    var reply := remote(content);
    r := if reply.Answer? then Ok(reply.text) else Err(reply.exception);
  }

  // ---------------------------------------------------------------------
  // analyze_tennis_video: the response envelope
  // ---------------------------------------------------------------------

  /** The text that precedes `str(e)` in the envelope's error. */
  function ErrorPrefix(kind: ErrorKind): (r: string)
    ensures |r| > 2 && r[|r| - 2..] == ": "
    ensures r[0] == 'V' <==> kind == FileNotFound
    ensures r[0] == 'P' <==> kind == Runtime
    ensures r[0] == 'C' <==> kind == Api
    ensures r[0] == 'U' <==> kind == Other
  {
    match kind
    case FileNotFound => "Video file not found: "
    case Runtime => "Processing error: "
    case Api => "Claude API error: "
    case Other => "Unexpected error: "
  }

  function ErrorText(e: Exception): string {
    ErrorPrefix(e.kind) + e.message
  }

  /** The error text determines both the category and the message. */
  lemma ErrorTextInjective(e1: Exception, e2: Exception)
    requires ErrorText(e1) == ErrorText(e2)
    ensures e1 == e2
  {
    assert ErrorText(e1)[0] == ErrorPrefix(e1.kind)[0];
    assert ErrorText(e2)[0] == ErrorPrefix(e2.kind)[0];
    var p := ErrorPrefix(e1.kind);
    assert e1.message == ErrorText(e1)[|p|..];
    assert e2.message == ErrorText(e2)[|p|..];
  }

  /** `student_info.get("name", "Student") if student_info else "Student"` */
  function StudentName(info: Option<Dict>): (v: Value)
    ensures info.Some? && |info.value| > 0 && "name" in info.value ==> v == info.value["name"]
    ensures info == None || info == Some(map[]) || "name" !in info.value ==> v == Str("Student")
  {
    match info
    case Some(d) => if |d| > 0 then Get(d, "name", Str("Student")) else Str("Student")
    case None => Str("Student")
  }

  function SuccessEnvelope(analysis: string, frames: seq<string>, strokeType: string,
                           info: Option<Dict>): (r: Dict)
    ensures r.Keys == {"success", "analysis", "frames_analyzed", "stroke_type", "student_name", "error"}
    ensures r["success"] == Bool(true) && r["error"] == Null
    ensures r["analysis"] == Str(analysis) && r["frames_analyzed"] == Int(|frames|)
    ensures r["stroke_type"] == Str(strokeType) && r["student_name"] == StudentName(info)
  {
    map[
      "success" := Bool(true),
      "analysis" := Str(analysis),
      "frames_analyzed" := Int(|frames|),
      "stroke_type" := Str(strokeType),
      "student_name" := StudentName(info),
      "error" := Null
    ]
  }

  function FailureEnvelope(e: Exception): (r: Dict)
    ensures r.Keys == {"success", "error", "analysis"}
    ensures r["success"] == Bool(false) && r["analysis"] == Null && r["error"] == Str(ErrorText(e))
  {
    map["success" := Bool(false), "error" := Str(ErrorText(e)), "analysis" := Null]
  }

  /** `analyze_tennis_video(video_path, stroke_type, student_info)`: extract
      the default number of frames, ask the model, wrap the outcome. */
  function AnalyzeTennisVideo(videoPath: string, pathExists: bool, strokeType: string,
                              info: Option<Dict>, ext: Externals): (r: Dict)
    ensures "success" in r && "error" in r && "analysis" in r
    ensures r["success"] == Bool(true) || r["success"] == Bool(false)
  {
    match ExtractFramesResult(videoPath, pathExists, FramesToExtract, ext.probe, ext.tool)
    case Err(e) => FailureEnvelope(e)
    case Ok(frames) =>
      match RemoteAnalysis(frames, strokeType, info, ext.remote)
      case Err(e) => FailureEnvelope(e)
      case Ok(analysis) => SuccessEnvelope(analysis, frames, strokeType, info)
  }

  /** The envelope succeeds exactly when frames were extracted and the model
      answered; it then reports the frames and echoes the request, and
      otherwise carries only success, error and analysis. */
  lemma AnalyzeOutcome(videoPath: string, pathExists: bool, strokeType: string,
                       info: Option<Dict>, ext: Externals)
    ensures var r := AnalyzeTennisVideo(videoPath, pathExists, strokeType, info, ext);
            var x := ExtractFramesResult(videoPath, pathExists, FramesToExtract, ext.probe, ext.tool);
            && "success" in r && "error" in r && "analysis" in r
            && (r["success"] == Bool(true) <==>
                  x.Ok? && RemoteAnalysis(x.value, strokeType, info, ext.remote).Ok?)
            && (r["success"] == Bool(true) ==>
                  && r.Keys == {"success", "analysis", "frames_analyzed", "stroke_type", "student_name", "error"}
                  && r["analysis"] == Str(RemoteAnalysis(x.value, strokeType, info, ext.remote).value)
                  && r["frames_analyzed"] == Int(|x.value|) && 0 < |x.value|
                  && r["stroke_type"] == Str(strokeType)
                  && r["student_name"] == StudentName(info)
                  && r["error"] == Null)
            && (r["success"] != Bool(true) ==>
                  && r.Keys == {"success", "error", "analysis"}
                  && r["success"] == Bool(false)
                  && r["analysis"] == Null
                  && exists e :: r["error"] == Str(ErrorText(e))
                                 && (x.Err? ==> e == x.error)
                                 && (x.Ok? ==> e == RemoteAnalysis(x.value, strokeType, info, ext.remote).error))
  {
    var x := ExtractFramesResult(videoPath, pathExists, FramesToExtract, ext.probe, ext.tool);
    var r := AnalyzeTennisVideo(videoPath, pathExists, strokeType, info, ext);
    if x.Ok? {
      ExtractFramesOutcome(videoPath, pathExists, FramesToExtract, ext.probe, ext.tool);
      var a := RemoteAnalysis(x.value, strokeType, info, ext.remote);
      if a.Err? {
        assert r == FailureEnvelope(a.error);
      } else {
        assert r == SuccessEnvelope(a.value, x.value, strokeType, info);
      }
    } else {
      assert r == FailureEnvelope(x.error);
    }
  }

  /** A missing upload fails with the not-found message whatever the tools would do. */
  lemma MissingVideo(videoPath: string, strokeType: string, info: Option<Dict>, ext: Externals)
    ensures var r := AnalyzeTennisVideo(videoPath, false, strokeType, info, ext);
            && r.Keys == {"success", "error", "analysis"}
            && r["success"] == Bool(false) && r["analysis"] == Null
            && r["error"] == Str("Video file not found: " + ("Video not found: " + videoPath))
  {
    var e := Exception(FileNotFound, "Video not found: " + videoPath);
    assert ExtractFramesResult(videoPath, false, FramesToExtract, ext.probe, ext.tool) == Err(e);
    assert ErrorText(e) == "Video file not found: " + ("Video not found: " + videoPath);
  }

  // ---------------------------------------------------------------------
  // estimate_cost_per_analysis: token counts
  // ---------------------------------------------------------------------

  datatype TokenEstimate = TokenEstimate(inputTokens: int, outputTokens: int)

  const ImageTokens: int := 1600
  const SystemTokens: int := 800
  const ResponseTokens: int := 500

  /** Images at 1600 tokens each plus 800 for the system prompt in; 500 out. */
  function EstimateTokens(numFrames: int): TokenEstimate {
    TokenEstimate(numFrames * ImageTokens + SystemTokens, ResponseTokens)
  }

  /** Each extra frame costs exactly one image's worth of input tokens, and
      the frame count can be read back from the input estimate. */
  lemma TokensPerFrame(numFrames: int)
    ensures EstimateTokens(numFrames + 1).inputTokens == EstimateTokens(numFrames).inputTokens + ImageTokens
    ensures EstimateTokens(numFrames + 1).outputTokens == EstimateTokens(numFrames).outputTokens
    ensures (EstimateTokens(numFrames).inputTokens - SystemTokens) / ImageTokens == numFrames
  {
  }

  lemma DefaultEstimate()
    ensures EstimateTokens(FramesToExtract) == TokenEstimate(16800, 500)
  {
  }
}
