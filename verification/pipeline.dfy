/**
  The `POST /transcribe` handler of `main.py` as a pure function. The
  results of the foreign calls (saving the upload, the ffmpeg subprocess,
  the transcription service, writing the transcript) are inputs; the
  handler's answer is the HTTP response together with the list of foreign
  calls it made, in order.
 */
module Pipeline {
  import opened PyStrings
  import opened PosixPath
  import opened MediaTypes

  const TranscriptFileName := "transcript.txt"
  const TranscriptMediaType := "text/plain"
  const NoFilenameDetail := "No filename provided."
  const UnsupportedPrefix := "Unsupported file type: "
  const FfmpegErrorPrefix := "FFmpeg error: "
  const TranscriptionFailedPrefix := "Transcription failed: "
  const UnexpectedErrorPrefix := "Unexpected error: "
  /** What Python's text-mode `write` raises (a `TypeError`) when handed `None`. */
  const WriteNoneMessage := "write() argument must be str, not None"

  /** An exception escaping a step: whether it is a `RuntimeError` (or subclass) and its `str()`. */
  datatype Raised = Raised(isRuntimeError: bool, message: string)

  /** Outcome of a file-system step inside the `try` block. */
  datatype StepResult = Done | Failed(exc: Raised)

  /** What `subprocess.run` gives back for the ffmpeg command, or the exception it raised. */
  datatype FfmpegRun = Exited(returnCode: int, stderr: string) | FfmpegRaised(exc: Raised)

  /** The finished transcript object (`status`, `text`, `error`), or the exception the client raised. */
  datatype TranscriberReply =
    | Reply(status: string, text: Option<string>, error: string)
    | TranscriberRaised(exc: Raised)

  /** Everything outside the handler that its answer depends on. */
  datatype World = World(
    tmpDir: string,
    supportedListing: string,
    saveUpload: StepResult,
    ffmpeg: FfmpegRun,
    transcriber: TranscriberReply,
    writeTranscript: StepResult)

  /** The foreign calls the handler makes. */
  datatype Call =
    | CreateWorkspace
    | SaveUpload(path: string)
    | RunFfmpeg(input: string, output: string)
    | Transcribe(audio: string)
    | WriteTranscript(path: string)

  datatype Response =
    | FileDownload(path: string, filename: string, mediaType: string, body: string)
    | HttpError(status: int, detail: string)

  datatype Handled = Handled(response: Response, calls: seq<Call>)

  /** A step that either yields a value or raises. */
  datatype Outcome<T> = Ok(value: T) | Err(exc: Raised)

  /** The audio file ffmpeg writes for a video: `video_path.rsplit(".", 1)[0] + ".mp3"`. */
  function ExtractedAudioPath(videoPath: string): (r: string)
    ensures |r| >= 4 && r[|r| - 4..] == ".mp3"
  {
    RSplitOnceHead(videoPath, '.') + ".mp3"
  }

  /** Once `splitext` finds an extension, the derived audio path is the path with that extension replaced by `.mp3`. */
  lemma ExtractedAudioPathReplacesExtension(videoPath: string)
    requires SplitExt(videoPath).ext != ""
    ensures ExtractedAudioPath(videoPath) == SplitExt(videoPath).root + ".mp3"
    ensures SplitExt(ExtractedAudioPath(videoPath)) == Split(SplitExt(videoPath).root, ".mp3")
  {
    RootGetsAnyExtension(videoPath, ".mp3");
  }

  /** `extract_audio_from_video`: a non-zero exit status becomes a `RuntimeError` carrying ffmpeg's stderr. */
  function ExtractAudio(videoPath: string, run: FfmpegRun): (r: Outcome<string>)
    ensures r.Ok? <==> run.Exited? && run.returnCode == 0
    ensures r.Ok? ==> r.value == ExtractedAudioPath(videoPath)
    ensures run.Exited? && run.returnCode != 0 ==> r == Err(Raised(true, FfmpegErrorPrefix + run.stderr))
    ensures run.FfmpegRaised? ==> r == Err(run.exc)
  {
    match run
    case FfmpegRaised(exc) => Err(exc)
    case Exited(code, stderr) =>
      if code != 0 then Err(Raised(true, FfmpegErrorPrefix + stderr))
      else Ok(ExtractedAudioPath(videoPath))
  }

  /** `transcribe_audio`: an `"error"` status becomes a `RuntimeError`; otherwise the text, possibly `None`, is returned as is. */
  function TranscribeAudio(reply: TranscriberReply): (r: Outcome<Option<string>>)
    ensures r.Ok? <==> reply.Reply? && reply.status != "error"
    ensures r.Ok? ==> r.value == reply.text
    ensures reply.Reply? && reply.status == "error" ==> r == Err(Raised(true, TranscriptionFailedPrefix + reply.error))
    ensures reply.TranscriberRaised? ==> r == Err(reply.exc)
  {
    match reply
    case TranscriberRaised(exc) => Err(exc)
    case Reply(status, text, error) =>
      if status == "error" then Err(Raised(true, TranscriptionFailedPrefix + error))
      else Ok(text)
  }

  /** The two `except` clauses: a `RuntimeError` passes its message through, anything else is prefixed. */
  function ErrorResponse(exc: Raised): (r: Response)
    ensures r.HttpError? && r.status == 500
    ensures exc.isRuntimeError ==> r.detail == exc.message
    ensures !exc.isRuntimeError ==> |r.detail| == |UnexpectedErrorPrefix| + |exc.message|
    ensures !exc.isRuntimeError ==> r.detail[..|UnexpectedErrorPrefix|] == UnexpectedErrorPrefix
    ensures !exc.isRuntimeError ==> r.detail[|UnexpectedErrorPrefix|..] == exc.message
  {
    if exc.isRuntimeError then HttpError(500, exc.message)
    else HttpError(500, UnexpectedErrorPrefix + exc.message)
  }

  /** The calls after the audio path is known, when every step succeeds. */
  function FinishingCalls(audio: string, world: World): seq<Call> {
    [Transcribe(audio), WriteTranscript(OutputPath(world))]
  }

  /** The part of the `try` block after the audio path is known: transcribe, write, respond. */
  function TranscribeAndRespond(audio: string, world: World): (r: Handled)
    ensures r.calls != [] && r.calls <= FinishingCalls(audio, world)
    ensures r.response.FileDownload? || r.response.status == 500
    ensures r.response.FileDownload? ==>
      && r.calls == FinishingCalls(audio, world)
      && r.response == FileDownload(OutputPath(world), TranscriptFileName, TranscriptMediaType, r.response.body)
      && world.transcriber.Reply? && world.transcriber.status != "error"
      && world.transcriber.text == Some(r.response.body)
  {
    var outputPath := OutputPath(world);
    match TranscribeAudio(world.transcriber)
    case Err(exc) => Handled(ErrorResponse(exc), [Transcribe(audio)])
    case Ok(text) =>
      var calls := [Transcribe(audio), WriteTranscript(outputPath)];
      if world.writeTranscript.Failed? then Handled(ErrorResponse(world.writeTranscript.exc), calls)
      else if text.None? then Handled(ErrorResponse(Raised(false, WriteNoneMessage)), calls)
      else Handled(FileDownload(outputPath, TranscriptFileName, TranscriptMediaType, text.value), calls)
  }

  /** The calls after the upload is saved, when every step succeeds. */
  function ProcessingCalls(input: string, kind: MediaKind, world: World): seq<Call> {
    if kind == Video then [RunFfmpeg(input, ExtractedAudioPath(input))] + FinishingCalls(ExtractedAudioPath(input), world)
    else FinishingCalls(input, world)
  }

  /** The `try` block, once the upload has been saved to `input`. */
  function ProcessSaved(input: string, kind: MediaKind, world: World): (r: Handled)
    ensures r.calls != [] && r.calls <= ProcessingCalls(input, kind, world)
    ensures r.response.FileDownload? || r.response.status == 500
    ensures r.response.FileDownload? ==>
      && r.calls == ProcessingCalls(input, kind, world)
      && r.response == FileDownload(OutputPath(world), TranscriptFileName, TranscriptMediaType, r.response.body)
      && world.transcriber.Reply? && world.transcriber.status != "error"
      && world.transcriber.text == Some(r.response.body)
  {
    if kind == Video then
      match ExtractAudio(input, world.ffmpeg)
      case Err(exc) => Handled(ErrorResponse(exc), [RunFfmpeg(input, ExtractedAudioPath(input))])
      case Ok(audio) =>
        var rest := TranscribeAndRespond(audio, world);
        Handled(rest.response, [RunFfmpeg(input, audio)] + rest.calls)
    else
      TranscribeAndRespond(input, world)
  }

  /** The calls of a run in which every step succeeds: the linear pipeline of the handler. */
  function PlannedCalls(input: string, kind: MediaKind, world: World): seq<Call> {
    [CreateWorkspace, SaveUpload(input)] + ProcessingCalls(input, kind, world)
  }

  /**
    The path the upload is saved under: `os.path.join(tmp_dir, file.filename)`.
    It ends with the client's filename as given: an absolute name replaces
    the workspace, and a relative one, `..` and `/` included, follows the
    workspace path.
   */
  function InputPath(world: World, filename: string): (r: string)
    ensures |filename| <= |r| && r[|r| - |filename|..] == filename
    ensures filename != "" && filename[0] == '/' ==> r == filename
    ensures filename != "" && filename[0] != '/' && world.tmpDir != "" && world.tmpDir[|world.tmpDir| - 1] != '/' ==>
      r == world.tmpDir + "/" + filename
  {
    Join(world.tmpDir, filename)
  }

  /** The transcript file: `os.path.join(tmp_dir, "transcript.txt")`, named `transcript.txt` inside the workspace. */
  function OutputPath(world: World): (r: string)
    ensures world.tmpDir == "" || world.tmpDir[|world.tmpDir| - 1] == '/' ==> r == world.tmpDir + TranscriptFileName
    ensures world.tmpDir != "" && world.tmpDir[|world.tmpDir| - 1] != '/' ==> r == world.tmpDir + "/" + TranscriptFileName
  {
    Join(world.tmpDir, TranscriptFileName)
  }

  /** The handler for an accepted upload, from `mkdtemp` on: save it at the joined path, then process it. */
  function RunAccepted(name: string, kind: MediaKind, world: World): (r: Handled)
    ensures |r.calls| >= 2 && r.calls <= PlannedCalls(InputPath(world, name), kind, world)
    ensures r.response.FileDownload? || r.response.status == 500
    ensures r.response.FileDownload? ==>
      && r.calls == PlannedCalls(InputPath(world, name), kind, world)
      && r.response == FileDownload(OutputPath(world), TranscriptFileName, TranscriptMediaType, r.response.body)
      && world.transcriber.Reply? && world.transcriber.status != "error"
      && world.transcriber.text == Some(r.response.body)
  {
    var input := InputPath(world, name);
    var setup := [CreateWorkspace, SaveUpload(input)];
    if world.saveUpload.Failed? then Handled(ErrorResponse(world.saveUpload.exc), setup)
    else
      var rest := ProcessSaved(input, kind, world);
      Handled(rest.response, setup + rest.calls)
  }

  /** The `POST /transcribe` handler. */
  function Handle(filename: Option<string>, world: World): (r: Handled)
    ensures r.response.HttpError? && r.response.status == 400 <==> Validate(filename).Rejected?
    ensures r.response.FileDownload? || r.response.status == 400 || r.response.status == 500
    ensures r.calls == [] <==> Validate(filename).Rejected?
    ensures Validate(filename).Accepted? ==>
      var v := Validate(filename);
      r.calls <= PlannedCalls(InputPath(world, v.filename), v.kind, world)
    ensures r.response.FileDownload? ==>
      var v := Validate(filename);
      && r.calls == PlannedCalls(InputPath(world, v.filename), v.kind, world)
      && r.response == FileDownload(OutputPath(world), TranscriptFileName, TranscriptMediaType, r.response.body)
      && world.transcriber.Reply? && world.transcriber.status != "error"
      && world.transcriber.text == Some(r.response.body)
  {
    match Validate(filename)
    case Rejected(NoFilename) => Handled(HttpError(400, NoFilenameDetail), [])
    case Rejected(UnsupportedType(ext)) =>
      Handled(HttpError(400, UnsupportedPrefix + ext + ". Supported: " + world.supportedListing), [])
    case Accepted(name, ext, kind) => RunAccepted(name, kind, world)
  }
}
