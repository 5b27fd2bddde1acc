/**
  The few pieces of Python's `str` behaviour that the upload handler relies
  on: `None`, `str.rfind` for one character, `str.rsplit(c, 1)[0]` and
  `str.lower()` restricted to ASCII letters.
 */
module PyStrings {

  /** Python's optional value: a string or `None`. */
  datatype Option<T> = None | Some(value: T)

  /** Index of the last occurrence of `c` in `s`, or -1 when there is none (`s.rfind(c)`). */
  function RFind(s: string, c: char): (r: int)
    ensures -1 <= r < |s|
    ensures r >= 0 ==> s[r] == c
    ensures forall k :: r < k < |s| ==> s[k] != c
    decreases |s|
  {
    if |s| == 0 then -1
    else if s[|s| - 1] == c then |s| - 1
    else RFind(s[..|s| - 1], c)
  }

  /** The contract of `RFind` pins its result down: any index with the same two properties is it. */
  lemma RFindUnique(s: string, c: char, r: int)
    requires -1 <= r < |s|
    requires r >= 0 ==> s[r] == c
    requires forall k :: r < k < |s| ==> s[k] != c
    ensures RFind(s, c) == r
  {
  }

  /** Everything before the last `c`, or all of `s` when `c` does not occur: `s.rsplit(c, 1)[0]`. */
  function RSplitOnceHead(s: string, c: char): (r: string)
    ensures r <= s
    ensures c !in s ==> r == s
    ensures c in s ==> |r| < |s| && s[|r|] == c && c !in s[|r| + 1..]
  {
    var i := RFind(s, c);
    if i < 0 then
      assert forall k :: 0 <= k < |s| ==> s[k] != c;
      s
    else
      s[..i]
  }

  predicate IsAsciiUpper(ch: char) {
    'A' <= ch <= 'Z'
  }

  predicate IsAsciiLetter(ch: char) {
    'A' <= ch <= 'Z' || 'a' <= ch <= 'z'
  }

  /** Lower-cases one ASCII capital; every other character is left alone. */
  function LowerChar(ch: char): (r: char)
    ensures !IsAsciiUpper(r)
    ensures IsAsciiLetter(r) <==> IsAsciiLetter(ch)
    ensures !IsAsciiUpper(ch) ==> r == ch
    ensures IsAsciiUpper(ch) ==> r as int - ch as int == 'a' as int - 'A' as int
  {
    if IsAsciiUpper(ch) then (ch as int - 'A' as int + 'a' as int) as char else ch
  }

  /** `s.lower()`, restricted to the ASCII alphabet. */
  function Lower(s: string): (r: string)
    ensures |r| == |s|
    ensures forall i :: 0 <= i < |r| ==> !IsAsciiUpper(r[i])
    ensures forall i :: 0 <= i < |s| && !IsAsciiLetter(s[i]) ==> r[i] == s[i]
    ensures forall i :: 0 <= i < |s| ==> LowerChar(s[i]) == r[i]
  {
    seq(|s|, i requires 0 <= i < |s| => LowerChar(s[i]))
  }

  /** A string without ASCII capitals is its own lower-case form. */
  lemma LowerFixesLowercase(s: string)
    requires forall k :: 0 <= k < |s| ==> !IsAsciiUpper(s[k])
    ensures Lower(s) == s
  {
  }

  /** Lowering commutes with cutting a string in two. */
  lemma LowerSplitsAt(s: string, i: int)
    requires 0 <= i <= |s|
    ensures Lower(s)[..i] == Lower(s[..i])
    ensures Lower(s)[i..] == Lower(s[i..])
  {
    assert forall k :: 0 <= k < i ==> Lower(s)[..i][k] == Lower(s[..i])[k];
    assert forall k :: 0 <= k < |s| - i ==> Lower(s)[i..][k] == Lower(s[i..])[k];
  }

  /**
    Lowering moves no character that is not a letter, so the last `c` of the
    lowered string is where the last `c` of the original was.
   */
  lemma RFindLower(s: string, c: char)
    requires !IsAsciiLetter(c)
    ensures RFind(Lower(s), c) == RFind(s, c)
  {
    var r := RFind(s, c);
    forall k | r < k < |s|
      ensures Lower(s)[k] != c
    {
      assert IsAsciiLetter(s[k]) ==> IsAsciiLetter(Lower(s)[k]);
    }
    RFindUnique(Lower(s), c, r);
  }
}
