/**
  Upload validation in `main.py`: the filename must be present, and its
  lower-cased `splitext` extension must be one of the supported audio or
  video extensions.
 */
module MediaTypes {
  import opened PyStrings
  import opened PosixPath

  const AudioExtensions: set<string> := {".mp3", ".wav", ".m4a", ".flac", ".ogg", ".aac", ".wma"}
  const VideoExtensions: set<string> := {".mp4", ".mkv", ".avi", ".mov", ".webm", ".flv", ".wmv"}

  datatype MediaKind = Audio | Video

  /** Why an upload is refused with status 400. */
  datatype Rejection = NoFilename | UnsupportedType(ext: string)

  datatype Validation =
    | Accepted(filename: string, ext: string, kind: MediaKind)
    | Rejected(reason: Rejection)

  /** Every supported extension is a dot followed by lower-case letters and digits. */
  predicate WellFormedExtension(ext: string) {
    && |ext| >= 2
    && ext[0] == '.'
    && forall k :: 1 <= k < |ext| ==> 'a' <= ext[k] <= 'z' || '0' <= ext[k] <= '9'
  }

  /** The two sets share no member and hold only well-formed, already lower-case extensions. */
  lemma ExtensionSetsWellFormed()
    ensures AudioExtensions !! VideoExtensions
    ensures forall e :: e in AudioExtensions + VideoExtensions ==> WellFormedExtension(e) && Lower(e) == e
  {
    forall e | e in AudioExtensions + VideoExtensions
      ensures WellFormedExtension(e) && Lower(e) == e
    {
      assert WellFormedExtension(e);
      assert forall k :: 0 <= k < |e| ==> !IsAsciiUpper(e[k]);
    }
  }

  /** The extension the handler tests: `os.path.splitext(filename)[1].lower()`. */
  function Extension(filename: string): (ext: string)
    ensures ext == "" || ext[0] == '.'
    ensures |ext| <= |filename|
    ensures forall k :: 0 <= k < |ext| ==> !IsAsciiUpper(ext[k])
  {
    Lower(SplitExt(filename).ext)
  }

  /**
    Which set an accepted extension belongs to. The handler tests video
    membership and treats everything else that passed validation as audio;
    the sets being disjoint, that is exactly audio membership.
   */
  function Classify(ext: string): (k: Option<MediaKind>)
    ensures k == Some(Audio) <==> ext in AudioExtensions
    ensures k == Some(Video) <==> ext in VideoExtensions
    ensures k == None <==> ext !in AudioExtensions + VideoExtensions
  {
    ExtensionSetsWellFormed();
    if ext !in AudioExtensions && ext !in VideoExtensions then None
    else if ext in VideoExtensions then Some(Video)
    else Some(Audio)
  }

  /** The two 400 checks at the head of the upload handler. */
  function Validate(filename: Option<string>): (r: Validation)
    ensures r == Rejected(NoFilename) <==> filename == None || filename == Some("")
    ensures r.Accepted? <==> filename.Some? && Extension(filename.value) in AudioExtensions + VideoExtensions
    ensures r.Accepted? ==> filename == Some(r.filename) && r.ext == Extension(r.filename)
    ensures r.Accepted? ==> Classify(r.ext) == Some(r.kind)
    ensures r.Rejected? && r.reason.UnsupportedType? ==>
      filename.Some? && filename.value != "" && r.reason.ext == Extension(filename.value)
  {
    if filename.None? || filename.value == "" then Rejected(NoFilename)
    else
      var ext := Extension(filename.value);
      match Classify(ext)
      case None => Rejected(UnsupportedType(ext))
      case Some(kind) => Accepted(filename.value, ext, kind)
  }

  /**
    A raw extension that lowers into the supported sets is not `.txt`, and
    one that lowers to a video extension is not `.mp3`.
   */
  lemma SupportedRawExtension(ext: string)
    requires Lower(ext) in AudioExtensions + VideoExtensions
    ensures ext != ".txt"
    ensures Lower(ext) in VideoExtensions ==> ext != ".mp3"
  {
    ExtensionSetsWellFormed();
    if ext == ".txt" {
      LowerFixesLowercase(".txt");
    }
    if ext == ".mp3" {
      LowerFixesLowercase(".mp3");
    }
  }

  /** A filename without an extension in the `splitext` sense is refused. */
  lemma NoExtensionRejected(filename: string)
    requires filename != ""
    requires forall i :: !ExtensionDotAt(filename, i)
    ensures Validate(Some(filename)) == Rejected(UnsupportedType(""))
  {
    SplitExtCharacterized(filename);
  }

  /** An accepted filename has a non-empty raw extension, and that is what was lowered. */
  lemma AcceptedHasExtension(filename: string)
    requires Validate(Some(filename)).Accepted?
    ensures SplitExt(filename).ext != ""
    ensures ExtensionDotAt(filename, |SplitExt(filename).root|)
    ensures Lower(SplitExt(filename).ext) in AudioExtensions + VideoExtensions
  {
    SplitExtFindsDot(filename);
  }

  /** The extension depends on the filename only up to ASCII case. */
  lemma ExtensionIgnoresCase(f: string, g: string)
    requires Lower(f) == Lower(g)
    ensures Extension(f) == Extension(g)
  {
    SplitExtLower(f);
    SplitExtLower(g);
  }

  /** Validation depends on the filename only up to ASCII case. */
  lemma ValidateIgnoresCase(f: string, g: string)
    requires Lower(f) == Lower(g)
    ensures Validate(Some(f)).Accepted? <==> Validate(Some(g)).Accepted?
    ensures Validate(Some(f)).Accepted? ==> Validate(Some(f)).kind == Validate(Some(g)).kind
  {
    ExtensionIgnoresCase(f, g);
  }

  /** `.mp3` is a hidden file name without an extension, so it is refused. */
  lemma HiddenNameRejected()
    ensures Validate(Some(".mp3")) == Rejected(UnsupportedType(""))
  {
    var p := ".mp3";
    assert p[0] == '.' && p[1] == 'm' && p[2] == 'p' && p[3] == '3';
    assert RFind(p, '/') == -1 by { RFindUnique(p, '/', -1); }
    assert RFind(p, '.') == 0 by { RFindUnique(p, '.', 0); }
    assert OnlyDots(p, 0, 0);
  }

  /** Only the last dot counts and case is ignored: `a.b.MP4` is a video. */
  lemma LastDotUpperCaseVideo()
    ensures Validate(Some("a.b.MP4")) == Accepted("a.b.MP4", ".mp4", Video)
  {
    LastDotUpperCaseExtension();
    assert ".mp4" in VideoExtensions;
  }

  /** The extension of `a.b.MP4` is `.mp4`. */
  lemma LastDotUpperCaseExtension()
    ensures Extension("a.b.MP4") == ".mp4"
  {
    var p := "a.b.MP4";
    assert p[0] == 'a' && p[1] == '.' && p[2] == 'b' && p[3] == '.' && p[4] == 'M' && p[5] == 'P' && p[6] == '4';
    assert RFind(p, '/') == -1 by { RFindUnique(p, '/', -1); }
    assert RFind(p, '.') == 3 by { RFindUnique(p, '.', 3); }
    assert !OnlyDots(p, 0, 3) by { assert p[0] == 'a'; }
    assert SplitExt(p).ext == ".MP4";
    UpperMp4Lowers();
  }

  /** Lowering `.MP4` gives the supported `.mp4`. */
  lemma UpperMp4Lowers()
    ensures Lower(".MP4") == ".mp4"
  {
    var e := ".MP4";
    assert e[0] == '.' && e[1] == 'M' && e[2] == 'P' && e[3] == '4';
    var l := Lower(e);
    assert l[0] == '.' && l[1] == 'm' && l[2] == 'p' && l[3] == '4';
  }

  /** A name without any dot is refused as unsupported, with the empty extension. */
  lemma NoDotRejected(filename: string)
    requires filename != "" && '.' !in filename
    ensures Validate(Some(filename)) == Rejected(UnsupportedType(""))
  {
    NoExtensionRejected(filename);
  }

  /** The extension of `../x.mp4` is `.mp4`: the dots of `..` lie in an earlier component. */
  lemma ParentNameExtension()
    ensures Extension("../x.mp4") == ".mp4"
  {
    var p := "../x.mp4";
    assert p[0] == '.' && p[1] == '.' && p[2] == '/' && p[3] == 'x' && p[4] == '.' && p[5] == 'm' && p[6] == 'p' && p[7] == '4';
    assert RFind(p, '/') == 2 by { RFindUnique(p, '/', 2); }
    assert RFind(p, '.') == 4 by { RFindUnique(p, '.', 4); }
    assert !OnlyDots(p, 3, 4) by { assert p[3] == 'x'; }
    assert SplitExt(p).ext == ".mp4";
    LowerFixesLowercase(".mp4");
  }
}
