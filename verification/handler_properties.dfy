/**
  What the upload handler promises, stated over every filename and every
  behaviour of the foreign calls.
 */
module HandlerProperties {
  import opened PyStrings
  import opened PosixPath
  import opened MediaTypes
  import opened Pipeline

  /** An accepted upload of the given kind. */
  predicate AcceptedAs(name: string, kind: MediaKind) {
    Validate(Some(name)).Accepted? && Validate(Some(name)).kind == kind
  }

  /** The audio file ffmpeg is asked to write for an accepted video. */
  function AudioPathFor(world: World, name: string): string {
    ExtractedAudioPath(InputPath(world, name))
  }

  /** After validation and a successful save, the handler's answer is that of the rest of the `try` block. */
  lemma HandleAfterSave(name: string, world: World)
    requires Validate(Some(name)).Accepted?
    requires world.saveUpload.Done?
    ensures var rest := ProcessSaved(InputPath(world, name), Validate(Some(name)).kind, world);
      Handle(Some(name), world) == Handled(rest.response, [CreateWorkspace, SaveUpload(InputPath(world, name))] + rest.calls)
  {
  }

  /** For a video, ffmpeg exits with status 0; for audio it is not run at all. */
  predicate FfmpegSucceedsFor(name: string, world: World) {
    AcceptedAs(name, Video) ==> world.ffmpeg.Exited? && world.ffmpeg.returnCode == 0
  }

  /** A missing or empty filename is refused with 400 before any foreign call. */
  lemma MissingFilenameRejected(filename: Option<string>, world: World)
    requires filename == None || filename == Some("")
    ensures Handle(filename, world) == Handled(HttpError(400, NoFilenameDetail), [])
  {
  }

  /** An unsupported extension, including none at all, is refused with 400 before any foreign call. */
  lemma UnsupportedTypeRejected(name: string, world: World)
    requires name != ""
    requires Extension(name) !in AudioExtensions + VideoExtensions
    ensures Handle(Some(name), world).calls == []
    ensures Handle(Some(name), world).response.HttpError?
    ensures Handle(Some(name), world).response.status == 400
    ensures UnsupportedPrefix + Extension(name) <= Handle(Some(name), world).response.detail
  {
    var detail := UnsupportedPrefix + Extension(name) + ". Supported: " + world.supportedListing;
    assert detail == (UnsupportedPrefix + Extension(name)) + (". Supported: " + world.supportedListing);
  }

  /** The status is 400 exactly when validation refuses the filename; every accepted upload ends in 200 or 500. */
  lemma StatusClassification(filename: Option<string>, world: World)
    ensures Handle(filename, world).response.HttpError? && Handle(filename, world).response.status == 400
      <==> filename == None || filename == Some("") || Extension(filename.value) !in AudioExtensions + VideoExtensions
    ensures Validate(filename).Accepted? ==>
      Handle(filename, world).response.FileDownload? || Handle(filename, world).response.status == 500
  {
  }

  /** The calls an audio upload makes once saved: a transcription of the saved file, then possibly the write. */
  lemma AudioCallsAfterSave(input: string, world: World)
    ensures var calls := ProcessSaved(input, Audio, world).calls;
      && calls != [] && calls[0] == Transcribe(input)
      && forall i :: 0 <= i < |calls| ==> !calls[i].RunFfmpeg?
  {
    var calls := ProcessSaved(input, Audio, world).calls;
    var finishing := FinishingCalls(input, world);
    assert calls <= finishing;
    forall i | 0 <= i < |calls|
      ensures !calls[i].RunFfmpeg?
    {
      assert calls[i] == finishing[i];
    }
  }

  /** An accepted audio upload is transcribed from the saved file itself, and ffmpeg is never run. */
  lemma AudioTranscribedInPlace(name: string, world: World)
    requires AcceptedAs(name, Audio)
    requires world.saveUpload.Done?
    ensures var calls := Handle(Some(name), world).calls;
      && |calls| >= 3
      && calls[0] == CreateWorkspace
      && calls[1] == SaveUpload(InputPath(world, name))
      && calls[2] == Transcribe(InputPath(world, name))
      && forall i :: 0 <= i < |calls| ==> !calls[i].RunFfmpeg?
  {
    var input := InputPath(world, name);
    HandleAfterSave(name, world);
    AudioCallsAfterSave(input, world);
    AudioAfterSetup(input, ProcessSaved(input, Audio, world).calls);
  }

  /** With the two set-up calls in front, the transcription of the saved file is third and ffmpeg still absent. */
  lemma AudioAfterSetup(input: string, rest: seq<Call>)
    requires rest != [] && rest[0] == Transcribe(input)
    requires forall i :: 0 <= i < |rest| ==> !rest[i].RunFfmpeg?
    ensures var calls := [CreateWorkspace, SaveUpload(input)] + rest;
      && |calls| >= 3
      && calls[0] == CreateWorkspace
      && calls[1] == SaveUpload(input)
      && calls[2] == Transcribe(input)
      && forall i :: 0 <= i < |calls| ==> !calls[i].RunFfmpeg?
  {
    var calls := [CreateWorkspace, SaveUpload(input)] + rest;
    forall i | 2 <= i < |calls|
      ensures !calls[i].RunFfmpeg?
    {
      assert calls[i] == rest[i - 2];
    }
  }

  /** The calls a video upload makes once saved: ffmpeg first, and only its output is transcribed, second. */
  lemma VideoCallsAfterSave(input: string, world: World)
    ensures var calls := ProcessSaved(input, Video, world).calls;
      && calls != [] && calls[0] == RunFfmpeg(input, ExtractedAudioPath(input))
      && forall i :: 0 <= i < |calls| && calls[i].Transcribe? ==> i == 1 && calls[i].audio == ExtractedAudioPath(input)
  {
    var calls := ProcessSaved(input, Video, world).calls;
    var audio := ExtractedAudioPath(input);
    var planned := [RunFfmpeg(input, audio)] + FinishingCalls(audio, world);
    assert calls <= planned;
    forall i | 0 <= i < |calls| && calls[i].Transcribe?
      ensures i == 1 && calls[i].audio == audio
    {
      assert calls[i] == planned[i];
    }
  }

  /** Putting the two set-up calls in front shifts the position of every later call by two. */
  lemma VideoAfterSetup(input: string, audio: string, rest: seq<Call>)
    requires rest != [] && rest[0] == RunFfmpeg(input, audio)
    requires forall i :: 0 <= i < |rest| && rest[i].Transcribe? ==> i == 1 && rest[i].audio == audio
    ensures var calls := [CreateWorkspace, SaveUpload(input)] + rest;
      && |calls| >= 3
      && calls[2] == RunFfmpeg(input, audio)
      && forall i :: 0 <= i < |calls| && calls[i].Transcribe? ==> i == 3 && calls[i].audio == audio
  {
    var calls := [CreateWorkspace, SaveUpload(input)] + rest;
    forall i | 0 <= i < |calls| && calls[i].Transcribe?
      ensures i == 3 && calls[i].audio == audio
    {
      assert calls[i] == rest[i - 2];
    }
  }

  /** An accepted video upload runs ffmpeg right after saving it, and transcribes ffmpeg's output, never anything else. */
  lemma VideoExtractedBeforeTranscription(name: string, world: World)
    requires AcceptedAs(name, Video)
    requires world.saveUpload.Done?
    ensures var input := InputPath(world, name);
      var calls := Handle(Some(name), world).calls;
      && |calls| >= 3
      && calls[0] == CreateWorkspace
      && calls[1] == SaveUpload(input)
      && calls[2] == RunFfmpeg(input, AudioPathFor(world, name))
      && forall i :: 0 <= i < |calls| && calls[i].Transcribe? ==> i == 3 && calls[i].audio == AudioPathFor(world, name)
  {
    var input := InputPath(world, name);
    HandleAfterSave(name, world);
    VideoCallsAfterSave(input, world);
    VideoAfterSetup(input, ExtractedAudioPath(input), ProcessSaved(input, Video, world).calls);
  }

  /**
    For an accepted video the saved path keeps the upload's extension, and
    ffmpeg's output is that path with the extension replaced by `.mp3`: the
    same directory, the same stem.
   */
  lemma VideoAudioPathReplacesExtension(name: string, world: World)
    requires AcceptedAs(name, Video)
    ensures SplitExt(InputPath(world, name)) == Split(Join(world.tmpDir, SplitExt(name).root), SplitExt(name).ext)
    ensures AudioPathFor(world, name) == Join(world.tmpDir, SplitExt(name).root) + ".mp3"
    ensures SplitExt(AudioPathFor(world, name)) == Split(Join(world.tmpDir, SplitExt(name).root), ".mp3")
  {
    AcceptedHasExtension(name);
    JoinKeepsExtension(world.tmpDir, name);
    ExtractedAudioPathReplacesExtension(InputPath(world, name));
  }

  /** A failing ffmpeg aborts the pipeline with 500 and its stderr; the transcription service is never called. */
  lemma FfmpegFailureAborts(name: string, world: World, code: int, stderr: string)
    requires AcceptedAs(name, Video)
    requires world.saveUpload.Done?
    requires world.ffmpeg == Exited(code, stderr) && code != 0
    ensures Handle(Some(name), world).response == HttpError(500, FfmpegErrorPrefix + stderr)
    ensures Handle(Some(name), world).calls
      == [CreateWorkspace, SaveUpload(InputPath(world, name)), RunFfmpeg(InputPath(world, name), AudioPathFor(world, name))]
  {
    var input := InputPath(world, name);
    HandleAfterSave(name, world);
    FfmpegFailureAfterSave(input, world, code, stderr);
    assert [CreateWorkspace, SaveUpload(input)] + [RunFfmpeg(input, ExtractedAudioPath(input))]
      == [CreateWorkspace, SaveUpload(input), RunFfmpeg(input, ExtractedAudioPath(input))];
  }

  /** Once the upload is saved, a failing ffmpeg ends the `try` block with its stderr. */
  lemma FfmpegFailureAfterSave(input: string, world: World, code: int, stderr: string)
    requires world.ffmpeg == Exited(code, stderr) && code != 0
    ensures ProcessSaved(input, Video, world)
      == Handled(HttpError(500, FfmpegErrorPrefix + stderr), [RunFfmpeg(input, ExtractedAudioPath(input))])
  {
  }

  /** A transcription reported as failed gives 500 with the service's message; no transcript is written. */
  lemma TranscriptionErrorReported(name: string, world: World, text: Option<string>, error: string)
    requires Validate(Some(name)).Accepted?
    requires world.saveUpload.Done?
    requires Validate(Some(name)).kind == Video ==> world.ffmpeg.Exited? && world.ffmpeg.returnCode == 0
    requires world.transcriber == Reply("error", text, error)
    ensures Handle(Some(name), world).response == HttpError(500, TranscriptionFailedPrefix + error)
    ensures var calls := Handle(Some(name), world).calls;
      calls != [] && calls[|calls| - 1].Transcribe?
  {
    var input := InputPath(world, name);
    var kind := Validate(Some(name)).kind;
    HandleAfterSave(name, world);
    TranscriptionErrorAfterSave(input, kind, world, text, error);
    var rest := ProcessSaved(input, kind, world).calls;
    assert ([CreateWorkspace, SaveUpload(input)] + rest)[2 + |rest| - 1] == rest[|rest| - 1];
  }

  /** Once the upload is saved, a transcription reported as failed ends the `try` block right after the service call. */
  lemma TranscriptionErrorAfterSave(input: string, kind: MediaKind, world: World, text: Option<string>, error: string)
    requires kind == Video ==> world.ffmpeg.Exited? && world.ffmpeg.returnCode == 0
    requires world.transcriber == Reply("error", text, error)
    ensures ProcessSaved(input, kind, world).response == HttpError(500, TranscriptionFailedPrefix + error)
    ensures var calls := ProcessSaved(input, kind, world).calls;
      calls != [] && calls[|calls| - 1].Transcribe?
  {
  }

  /**
    When every step succeeds the response is the file `transcript.txt` in
    the workspace, served as `text/plain`, whose body is the service's text
    exactly; all planned calls were made, in order.
   */
  lemma SuccessReturnsTranscriptVerbatim(name: string, world: World, status: string, text: string, error: string)
    requires Validate(Some(name)).Accepted?
    requires world.saveUpload.Done? && world.writeTranscript.Done?
    requires Validate(Some(name)).kind == Video ==> world.ffmpeg.Exited? && world.ffmpeg.returnCode == 0
    requires world.transcriber == Reply(status, Some(text), error) && status != "error"
    ensures Handle(Some(name), world).response
      == FileDownload(Join(world.tmpDir, "transcript.txt"), "transcript.txt", "text/plain", text)
    ensures Handle(Some(name), world).calls == PlannedCalls(InputPath(world, name), Validate(Some(name)).kind, world)
  {
  }

  /** A service that completes without text makes the write raise a `TypeError`, reported as unexpected. */
  lemma MissingTextIsUnexpected(name: string, world: World, status: string, error: string)
    requires Validate(Some(name)).Accepted?
    requires world.saveUpload.Done? && world.writeTranscript.Done?
    requires Validate(Some(name)).kind == Video ==> world.ffmpeg.Exited? && world.ffmpeg.returnCode == 0
    requires world.transcriber == Reply(status, None, error) && status != "error"
    ensures Handle(Some(name), world).response == HttpError(500, UnexpectedErrorPrefix + WriteNoneMessage)
  {
  }

  /**
    Any exception other than a `RuntimeError`, whichever step of the `try`
    block raises it first (saving the upload, running ffmpeg, calling the
    transcription service, writing the transcript), gives 500 with
    `Unexpected error: ` before its message.
   */
  lemma OtherExceptionsUnexpected(name: string, world: World, message: string)
    requires Validate(Some(name)).Accepted?
    ensures world.saveUpload == Failed(Raised(false, message)) ==>
      && Handle(Some(name), world).response == HttpError(500, UnexpectedErrorPrefix + message)
      && Handle(Some(name), world).calls == [CreateWorkspace, SaveUpload(InputPath(world, name))]
    ensures world.saveUpload.Done? && AcceptedAs(name, Video) && world.ffmpeg == FfmpegRaised(Raised(false, message)) ==>
      Handle(Some(name), world).response == HttpError(500, UnexpectedErrorPrefix + message)
    ensures (world.saveUpload.Done? && FfmpegSucceedsFor(name, world)
      && world.transcriber == TranscriberRaised(Raised(false, message))) ==>
      Handle(Some(name), world).response == HttpError(500, UnexpectedErrorPrefix + message)
    ensures (world.saveUpload.Done? && FfmpegSucceedsFor(name, world)
      && world.transcriber.Reply? && world.transcriber.status != "error"
      && world.writeTranscript == Failed(Raised(false, message))) ==>
      Handle(Some(name), world).response == HttpError(500, UnexpectedErrorPrefix + message)
  {
  }

  /** `transcript.txt` has the extension `.txt`. */
  lemma TranscriptNameExtension()
    ensures SplitExt(TranscriptFileName) == Split("transcript", ".txt")
  {
    var p := TranscriptFileName;
    assert p[0] == 't';
    assert ExtensionDotAt(p, 10);
    SplitExtAt(p, 10);
  }

  /** The transcript file's extension, wherever the workspace is. */
  lemma OutputPathExtension(world: World)
    ensures SplitExt(OutputPath(world)) == Split(Join(world.tmpDir, "transcript"), ".txt")
  {
    TranscriptNameExtension();
    JoinKeepsExtension(world.tmpDir, TranscriptFileName);
  }

  /**
    The saved path is the filename as given, appended to the workspace path:
    an absolute filename replaces the workspace directory, and a relative one
    follows the workspace path and one `/` unless that path is empty or
    already ends in one. Only a name without `/` stays directly in the
    workspace; `..` components are kept and may lead out of it.
   */
  lemma SavedPathDependsOnAbsoluteName(name: string, world: World)
    requires name != ""
    ensures name[0] == '/' ==> InputPath(world, name) == name
    ensures name[0] != '/' ==> world.tmpDir <= InputPath(world, name)
    ensures name[0] != '/' && world.tmpDir != "" && world.tmpDir[|world.tmpDir| - 1] != '/' ==>
      InputPath(world, name) == world.tmpDir + "/" + name
    ensures name[0] != '/' && (world.tmpDir == "" || world.tmpDir[|world.tmpDir| - 1] == '/') ==>
      InputPath(world, name) == world.tmpDir + name
    ensures '/' !in name ==> '/' !in InputPath(world, name)[|InputPath(world, name)| - |name|..]
  {
  }

  /**
    A relative name that climbs out of the workspace is accepted and saved
    through `..`: `../x.mp4` is a video, and its saved path is the workspace
    path followed by `/../x.mp4`, which names a file beside the workspace.
   */
  lemma ParentDirectoryNameEscapes(world: World)
    ensures Validate(Some("../x.mp4")) == Accepted("../x.mp4", ".mp4", Video)
    ensures world.tmpDir != "" && world.tmpDir[|world.tmpDir| - 1] != '/' ==>
      InputPath(world, "../x.mp4") == world.tmpDir + "/../x.mp4"
  {
    ParentNameExtension();
    assert ".mp4" in VideoExtensions;
    var name := "../x.mp4";
    assert name[0] == '.';
    assert world.tmpDir + "/" + name == world.tmpDir + "/../x.mp4";
  }

  /**
    The files of one request never coincide: the transcript is not the saved
    upload, and for a video the extracted audio is neither the upload nor the
    transcript, so no step overwrites another's file.
   */
  lemma WorkspaceFilesDistinct(name: string, world: World)
    requires Validate(Some(name)).Accepted?
    ensures InputPath(world, name) != OutputPath(world)
    ensures AcceptedAs(name, Video) ==> AudioPathFor(world, name) != InputPath(world, name)
    ensures AcceptedAs(name, Video) ==> AudioPathFor(world, name) != OutputPath(world)
  {
    var ext := SplitExt(name).ext;
    AcceptedHasExtension(name);
    SupportedRawExtension(ext);
    JoinKeepsExtension(world.tmpDir, name);
    OutputPathExtension(world);
    assert SplitExt(InputPath(world, name)).ext == ext;
    if AcceptedAs(name, Video) {
      VideoAudioPathReplacesExtension(name, world);
    }
  }
}
