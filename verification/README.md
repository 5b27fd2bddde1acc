# Upload-to-transcript handler, modelled in Dafny

The service in `main.py` accepts one uploaded audio or video file on
`POST /transcribe`, extracts an mp3 track with ffmpeg when the upload is a
video, sends the audio to the AssemblyAI transcription service, and answers
with the transcript as the download `transcript.txt`. This project models the
decision logic of that handler as pure functions:

- `PyStrings` — the Python string behaviour the handler uses: `str.rfind`,
  `str.rsplit(".", 1)[0]`, `str.lower()` on ASCII letters, and `None`.
- `PosixPath` — `os.path.splitext` and two-argument `os.path.join` under
  POSIX rules, with an independent reference definition of "the extension"
  (`ExtensionDotAt`) and proofs that `SplitExt` agrees with it.
- `MediaTypes` — the audio and video extension sets and the two 400 checks.
- `Pipeline` — `extract_audio_from_video`, `transcribe_audio`, the two
  `except` clauses and the handler `Handle`. The handler returns its HTTP
  response together with the foreign calls it made, in order.
- `HandlerProperties` — end-to-end properties of `Handle` over every
  filename and every behaviour of the foreign calls.

The foreign calls are inputs, gathered in `Pipeline.World`:
- the workspace directory `mkdtemp` returned;
- whether saving the upload raised;
- ffmpeg's exit status and stderr, or the exception `subprocess.run` raised;
- the transcript's `status`, `text` (possibly `None`) and `error`, or the exception the client raised;
- whether writing `transcript.txt` raised.

An exception is modelled by its `str()` and by whether it is a
`RuntimeError`. That flag decides which `except` clause applies.

Three behaviours of the code as written are stated as lemmas:
- `SavedPathDependsOnAbsoluteName`: `os.path.join` lets an absolute upload
  filename replace the workspace directory, so the upload is saved outside it.
- `ParentDirectoryNameEscapes`: a relative filename keeps its `..` and `/`
  components, so `../x.mp4` is accepted and saved beside the workspace, not in it.
- `MissingTextIsUnexpected`: a completed transcript whose `text` is `None`
  makes `f.write` raise `TypeError`. The caller gets the `Unexpected error: `
  response.

## Model

| member | source | states |
|---|---|---|
| PyStrings.RFind | main.py:22 | the index of the last occurrence of the character, or -1 when it does not occur: it holds the character and nothing after it does |
| PyStrings.RSplitOnceHead | main.py:22 | `rsplit(c, 1)[0]` is the prefix before the last `c`: no `c` follows it, and without any `c` it is the whole string |
| PyStrings.Lower | main.py:53 | ASCII lowering keeps the length, leaves no capital and changes no non-letter, and each character keeps its letter up to case |
| PyStrings.RFindLower | main.py:53 | lowering does not move the last `.` or `/` of a path |
| PosixPath.SplitExt | main.py:53 | `splitext` returns parts whose concatenation is the path; the extension is empty or a dot followed by no further dot or slash |
| PosixPath.SplitExtCharacterized | main.py:53 | `splitext` finds an extension exactly when some dot is the last dot, is in the final component, and has a non-dot character before it in that component; it then splits at that dot |
| PosixPath.SplitExtAt | main.py:53 | wherever the reference definition puts the extension dot, `splitext` splits there |
| PosixPath.SplitExtFindsDot | main.py:53 | a non-empty extension from `splitext` starts at a dot that meets the reference definition |
| PosixPath.SplitExtUnderPrefix | main.py:53-63 | the extension belongs to the final component: any prefix leaves it unchanged and only extends the root |
| PosixPath.RootGetsAnyExtension | main.py:22 | the root of a path with an extension, followed by any well-formed extension, splits back into that root and that extension |
| PosixPath.SplitExtLower | main.py:53 | splitting the lowered path gives the lowered root and the lowered extension |
| PosixPath.Join | main.py:63 | `os.path.join(a, b)` ends in `b`; an absolute `b` is the whole result; otherwise the result is `a + b` when `a` is empty or ends in `/`, and `a + "/" + b` in every other case |
| PosixPath.JoinKeepsExtension | main.py:63 | joining a filename that has an extension onto the workspace keeps that extension and joins the root |
| MediaTypes.ExtensionSetsWellFormed | main.py:14-15 | the audio and video sets are disjoint and hold only lower-case dot-extensions |
| MediaTypes.SupportedRawExtension | main.py:14-15 | an extension that lowers into the sets is not `.txt`; one that lowers to a video extension is not `.mp3` |
| MediaTypes.Extension | main.py:53 | the extension the handler checks is empty or starts with a dot, and holds no ASCII capital |
| MediaTypes.Classify | main.py:55-70 | an extension is classed audio exactly when it is in the audio set, video exactly when in the video set, and refused exactly when in neither |
| MediaTypes.Validate | main.py:50-59 | refusal for a missing filename exactly when the name is `None` or empty; acceptance exactly when the lowered extension is in the union; an accepted upload is classed by its extension |
| MediaTypes.NoExtensionRejected | main.py:53-59 | a non-empty name with no extension dot is refused as unsupported, with extension `""` |
| MediaTypes.AcceptedHasExtension | main.py:53-59 | an accepted name has a non-empty extension whose dot meets the reference definition |
| MediaTypes.ExtensionIgnoresCase | main.py:53 | two names equal up to ASCII case have the same checked extension |
| MediaTypes.ValidateIgnoresCase | main.py:53-70 | two names equal up to ASCII case are both accepted or both refused, and as the same kind |
| MediaTypes.HiddenNameRejected | main.py:53-59 | `.mp3` has no extension and is refused |
| MediaTypes.LastDotUpperCaseVideo | main.py:53-70 | `a.b.MP4` is accepted as a video with extension `.mp4` |
| MediaTypes.NoDotRejected | main.py:53-59 | every non-empty name without a dot is refused as unsupported, with extension `""` |
| Pipeline.ExtractedAudioPath | main.py:22 | the audio path always ends in `.mp3` |
| Pipeline.ExtractedAudioPathReplacesExtension | main.py:22 | for a path with an extension, the audio path is the `splitext` root followed by `.mp3`, and `splitext` of it gives back that root and `.mp3` |
| Pipeline.ExtractAudio | main.py:20-31 | extraction succeeds exactly when ffmpeg exits with 0, yielding the derived audio path; a non-zero exit raises a `RuntimeError` with `FFmpeg error: ` and the stderr; an exception is passed on |
| Pipeline.TranscribeAudio | main.py:34-43 | transcription succeeds exactly when the status is not `"error"`, yielding the text unchanged; an `"error"` status raises a `RuntimeError` with `Transcription failed: ` and the error |
| Pipeline.ErrorResponse | main.py:89-92 | every escaped exception gives 500; a `RuntimeError` gives its message as detail, anything else `Unexpected error: ` followed by the message |
| Pipeline.TranscribeAndRespond | main.py:76-87 | the calls are a non-empty prefix of transcribe-then-write; the answer is a download or a 500; a download is `transcript.txt` in the workspace, `text/plain`, with exactly the service's text |
| Pipeline.ProcessSaved | main.py:69-87 | the calls are a non-empty prefix of the planned ones (ffmpeg first for a video); a download means every planned call was made and the body is the service's text |
| Pipeline.InputPath | main.py:63 | the saved path ends with the client's filename; an absolute filename is the whole path; a relative one, after a workspace path that is not empty and does not end in `/`, is that path, one `/` and the name as given, `..` and `/` included |
| Pipeline.OutputPath | main.py:79 | the transcript path is the workspace directory, one `/` unless the directory already ends in one, and `transcript.txt` |
| Pipeline.RunAccepted | main.py:61-92 | the calls from `mkdtemp` on are a prefix of the linear plan holding at least the workspace creation and the save; the answer is a download or a 500; a download means the plan ran to the end and the body is the service's text |
| Pipeline.Handle | main.py:46-92 | status 400 exactly when validation refuses, and then no foreign call is made; otherwise 200 or 500 and the calls are a prefix of the linear plan; a download means the plan ran to the end and the body is the service's text |
| HandlerProperties.MissingFilenameRejected | main.py:50-51 | a missing or empty filename gives 400 `No filename provided.` and no foreign call |
| HandlerProperties.UnsupportedTypeRejected | main.py:53-59 | an unsupported extension gives 400 with detail starting `Unsupported file type: ` and the extension, and no foreign call |
| HandlerProperties.StatusClassification | main.py:50-92 | 400 exactly when the name is missing, empty or has an unsupported lowered extension; every accepted upload ends in 200 or 500 |
| HandlerProperties.AudioCallsAfterSave | main.py:70-76 | for audio, the first call after saving transcribes the saved file, and ffmpeg is never run |
| HandlerProperties.AudioTranscribedInPlace | main.py:70-76 | an accepted audio upload is saved and then transcribed from that very path; ffmpeg is never run |
| HandlerProperties.VideoCallsAfterSave | main.py:70-76 | for video, the first call after saving runs ffmpeg, and the only transcription is of ffmpeg's output, second |
| HandlerProperties.VideoExtractedBeforeTranscription | main.py:70-76 | an accepted video is saved, then ffmpeg runs on it, and only ffmpeg's output is transcribed, as the fourth call |
| HandlerProperties.VideoAudioPathReplacesExtension | main.py:22-71 | the saved video keeps the upload's extension; ffmpeg's output is the workspace path with that extension replaced by `.mp3`, the same stem |
| HandlerProperties.FfmpegFailureAborts | main.py:28-30 | a non-zero ffmpeg exit gives 500 `FFmpeg error: ` plus stderr, and the transcription service is not called |
| HandlerProperties.TranscriptionErrorReported | main.py:41-42 | an `"error"` status gives 500 `Transcription failed: ` plus the service's error, and no transcript is written |
| HandlerProperties.SuccessReturnsTranscriptVerbatim | main.py:79-87 | when every step succeeds the answer is the workspace's `transcript.txt`, `text/plain`, with exactly the service's text, after every planned call |
| HandlerProperties.MissingTextIsUnexpected | main.py:80-92 | a completed transcript without text gives 500 `Unexpected error: write() argument must be str, not None` |
| HandlerProperties.OtherExceptionsUnexpected | main.py:65-92 | a non-`RuntimeError` raised first by any step of the `try` block (the save, ffmpeg, the transcription service or the transcript write) gives 500 `Unexpected error: ` plus its message; raised by the save, it comes after the two set-up calls only |
| HandlerProperties.SavedPathDependsOnAbsoluteName | main.py:63 | an absolute upload filename is itself the saved path; a relative one gives the workspace path, then one `/` unless that path is empty or already ends in one, then the name as given; the last component is the name itself only when the name has no `/` |
| HandlerProperties.ParentDirectoryNameEscapes | main.py:53-66 | `../x.mp4` is accepted as a video and, in a workspace path without a trailing `/`, saved at that path followed by `/../x.mp4`, outside the workspace |
| HandlerProperties.TranscriptNameExtension | main.py:79 | `transcript.txt` splits into `transcript` and `.txt` |
| HandlerProperties.OutputPathExtension | main.py:79 | in every workspace the transcript path splits into the workspace's `transcript` and the extension `.txt` |
| HandlerProperties.WorkspaceFilesDistinct | main.py:63-79 | the transcript path is never the saved upload; a video's mp3 is neither the saved video nor the transcript |

## Left out

- FastAPI routing, the async signature, `UploadFile` streaming and the sending of `FileResponse` are framework plumbing. The download is modelled by its path, file name, media type and body.
- `tempfile.mkdtemp`, `open`, `shutil.copyfileobj` and the transcript write are file-system I/O. Their outcomes are inputs. A failure of `mkdtemp`, which happens before the `try` block and gives the framework's own 500, is not modelled.
- The ffmpeg subprocess is a foreign call. Its fixed options (`-vn -acodec libmp3lame -q:a 2 -y`) are not modelled; the call is recorded by its input and output paths.
- The AssemblyAI client, its configuration (speech models, language detection) and the network call are foreign calls. The transcript object is reduced to `status`, `text` and `str(error)`.
- When `text` is `None` and opening the transcript file also fails, the open failure is the one reported. That is the order of the two statements.
- `load_dotenv` and the global API key are process configuration.
- The set listing in the unsupported-type detail depends on Python's string hashing, so its text is an input (`World.supportedListing`). `UnsupportedTypeRejected` states only the detail's prefix.
- PyStrings.Lower: lowers ASCII capitals only. Python's `str.lower()` also folds other scripts; for example KELVIN SIGN lowers to `k`, so `clip.mKv` (with KELVIN SIGN, U+212A, as its second-last character) lowers in Python to `clip.mkv`, a video, and is refused here.
- Only POSIX path rules are modelled (`/` as the only separator); Windows `ntpath` rules are not.
- The `/health` endpoint returns a constant and is not modelled.
