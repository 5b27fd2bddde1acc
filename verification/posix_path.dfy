/**
  `os.path.splitext` and two-argument `os.path.join` as Python's `posixpath`
  defines them: `/` separates components and `.` introduces an extension.
 */
module PosixPath {
  import opened PyStrings

  /** The pair `os.path.splitext` returns; `root + ext` is always the original path. */
  datatype Split = Split(root: string, ext: string)

  /** Every character of `p[lo..hi]` is a dot: the leading-dot scan of `splitext`. */
  predicate OnlyDots(p: string, lo: int, hi: int)
    requires 0 <= lo <= hi <= |p|
  {
    forall k :: lo <= k < hi ==> p[k] == '.'
  }

  /**
    `os.path.splitext(p)`: the extension starts at the last `.` when that dot
    lies in the final component and is preceded, within that component, by
    something other than dots; otherwise the extension is empty.
   */
  function SplitExt(p: string): (r: Split)
    ensures r.root + r.ext == p
    ensures r.ext == "" || r.ext[0] == '.'
    ensures forall k :: 1 <= k < |r.ext| ==> r.ext[k] != '.' && r.ext[k] != '/'
  {
    var sepIndex := RFind(p, '/');
    var dotIndex := RFind(p, '.');
    if dotIndex > sepIndex && !OnlyDots(p, sepIndex + 1, dotIndex) then
      Split(p[..dotIndex], p[dotIndex..])
    else
      Split(p, "")
  }

  /**
    Reference definition, independent of the scan above: position `i` starts
    the extension of `p` when it holds the last dot of `p`, no `/` follows
    it, and the same component has a character other than `.` before it.
   */
  ghost predicate ExtensionDotAt(p: string, i: int) {
    && 0 <= i < |p|
    && p[i] == '.'
    && (forall k :: i < k < |p| ==> p[k] != '.' && p[k] != '/')
    && (exists k :: 0 <= k < i && p[k] != '.' && p[k] != '/' && (forall m :: k < m < i ==> p[m] != '/'))
  }

  /** Wherever the reference definition places an extension, `SplitExt` splits there. */
  lemma SplitExtAt(p: string, i: int)
    requires ExtensionDotAt(p, i)
    ensures SplitExt(p) == Split(p[..i], p[i..])
  {
    var sepIndex := RFind(p, '/');
    RFindUnique(p, '.', i);
    var k :| 0 <= k < i && p[k] != '.' && p[k] != '/' && (forall m :: k < m < i ==> p[m] != '/');
    assert sepIndex < k;
    assert !OnlyDots(p, sepIndex + 1, i);
  }

  /** Whenever `SplitExt` finds an extension, its dot satisfies the reference definition. */
  lemma SplitExtFindsDot(p: string)
    requires SplitExt(p).ext != ""
    ensures ExtensionDotAt(p, |SplitExt(p).root|)
  {
    var sepIndex := RFind(p, '/');
    var dotIndex := RFind(p, '.');
    assert |SplitExt(p).root| == dotIndex;
    var k :| sepIndex + 1 <= k < dotIndex && p[k] != '.';
    assert p[k] != '/';
  }

  /** `SplitExt` finds an extension exactly when the reference definition has one, and it is that one. */
  lemma SplitExtCharacterized(p: string)
    ensures SplitExt(p).ext != "" <==> exists i :: ExtensionDotAt(p, i)
    ensures forall i :: ExtensionDotAt(p, i) ==> SplitExt(p) == Split(p[..i], p[i..])
  {
    forall i | ExtensionDotAt(p, i)
      ensures SplitExt(p) == Split(p[..i], p[i..])
    {
      SplitExtAt(p, i);
    }
    if SplitExt(p).ext != "" {
      SplitExtFindsDot(p);
    }
  }

  /** The reference definition only looks at the final component, so a prefix shifts it. */
  lemma ExtensionDotUnderPrefix(prefix: string, p: string, i: int)
    requires ExtensionDotAt(p, i)
    ensures ExtensionDotAt(prefix + p, |prefix| + i)
  {
    var q := prefix + p;
    var j := |prefix| + i;
    var k :| 0 <= k < i && p[k] != '.' && p[k] != '/' && (forall m :: k < m < i ==> p[m] != '/');
    assert q[|prefix| + k] == p[k];
    forall m | |prefix| + k < m < j
      ensures q[m] != '/'
    {
      assert q[m] == p[m - |prefix|];
    }
    forall m | j < m < |q|
      ensures q[m] != '.' && q[m] != '/'
    {
      assert q[m] == p[m - |prefix|];
    }
  }

  /** An extension belongs to the final component: putting any prefix before the path keeps it. */
  lemma SplitExtUnderPrefix(prefix: string, p: string)
    requires SplitExt(p).ext != ""
    ensures SplitExt(prefix + p) == Split(prefix + SplitExt(p).root, SplitExt(p).ext)
  {
    var i := |SplitExt(p).root|;
    SplitExtFindsDot(p);
    var q := prefix + p;
    ExtensionDotUnderPrefix(prefix, p, i);
    SplitExtAt(q, |prefix| + i);
    assert q[..|prefix| + i] == prefix + p[..i];
    assert q[|prefix| + i..] == p[i..];
  }

  /** The root of a path with an extension, followed by any well-formed extension, splits back into that root and that extension. */
  lemma RootGetsAnyExtension(p: string, ext: string)
    requires SplitExt(p).ext != ""
    requires |ext| > 0 && ext[0] == '.'
    requires forall k :: 1 <= k < |ext| ==> ext[k] != '.' && ext[k] != '/'
    ensures SplitExt(SplitExt(p).root + ext) == Split(SplitExt(p).root, ext)
  {
    var i := |SplitExt(p).root|;
    SplitExtFindsDot(p);
    var root := p[..i];
    var q := root + ext;
    var k :| 0 <= k < i && p[k] != '.' && p[k] != '/' && (forall m :: k < m < i ==> p[m] != '/');
    assert q[k] == p[k];
    assert forall m :: k < m < i ==> q[m] == p[m];
    assert forall m :: i < m < |q| ==> q[m] == ext[m - i];
    assert ExtensionDotAt(q, i);
    SplitExtAt(q, i);
    assert q[..i] == root;
    assert q[i..] == ext;
  }

  /** Lowering turns no character into a dot and no dot into anything else. */
  lemma OnlyDotsLower(p: string, lo: int, hi: int)
    requires 0 <= lo <= hi <= |p|
    ensures OnlyDots(Lower(p), lo, hi) <==> OnlyDots(p, lo, hi)
  {
    forall k | lo <= k < hi
      ensures Lower(p)[k] == '.' <==> p[k] == '.'
    {
      assert IsAsciiLetter(p[k]) ==> IsAsciiLetter(Lower(p)[k]);
    }
  }

  /**
    Splitting the ASCII-lowered path gives the lowered parts: `.` and `/`
    are not letters, so lowering moves neither.
   */
  lemma SplitExtLower(p: string)
    ensures SplitExt(Lower(p)) == Split(Lower(SplitExt(p).root), Lower(SplitExt(p).ext))
  {
    var lp := Lower(p);
    RFindLower(p, '/');
    RFindLower(p, '.');
    var sepIndex := RFind(p, '/');
    var dotIndex := RFind(p, '.');
    assert RFind(lp, '/') == sepIndex && RFind(lp, '.') == dotIndex;
    if dotIndex > sepIndex {
      OnlyDotsLower(p, sepIndex + 1, dotIndex);
    }
    if dotIndex > sepIndex && !OnlyDots(p, sepIndex + 1, dotIndex) {
      assert SplitExt(p) == Split(p[..dotIndex], p[dotIndex..]);
      assert SplitExt(lp) == Split(lp[..dotIndex], lp[dotIndex..]);
      LowerSplitsAt(p, dotIndex);
    } else {
      assert SplitExt(p) == Split(p, "");
      assert SplitExt(lp) == Split(lp, "");
    }
  }

  /** Two-argument `os.path.join(a, b)`: an absolute `b` discards `a`; otherwise one `/` separates them. */
  function Join(a: string, b: string): (r: string)
    ensures |b| <= |r| && r[|r| - |b|..] == b
    ensures |b| > 0 && b[0] == '/' ==> r == b
    ensures !(|b| > 0 && b[0] == '/') ==> a <= r
    ensures |r| <= |a| + 1 + |b|
    ensures !(|b| > 0 && b[0] == '/') && (a == "" || a[|a| - 1] == '/') ==> r == a + b
    ensures !(|b| > 0 && b[0] == '/') && a != "" && a[|a| - 1] != '/' ==> r == a + "/" + b
  {
    if |b| > 0 && b[0] == '/' then b
    else if a == "" || a[|a| - 1] == '/' then a + b
    else a + "/" + b
  }

  /** Joining a relative or absolute name onto a directory keeps the name's extension. */
  lemma JoinKeepsExtension(dir: string, name: string)
    requires SplitExt(name).ext != ""
    ensures SplitExt(Join(dir, name)) == Split(Join(dir, SplitExt(name).root), SplitExt(name).ext)
  {
    var s := SplitExt(name);
    SplitExtFindsDot(name);
    assert s.root != "" && s.root[0] == name[0];
    if name[0] != '/' {
      var prefix := if dir == "" || dir[|dir| - 1] == '/' then dir else dir + "/";
      assert Join(dir, name) == prefix + name;
      assert Join(dir, s.root) == prefix + s.root;
      SplitExtUnderPrefix(prefix, name);
    }
  }
}
