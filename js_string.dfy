/** The parts of JavaScript's `String.prototype` that the application relies on:
    `toLowerCase`, `includes`, `startsWith` and `trim`. */
module JsString {
  import Wrappers

  /** JavaScript truthiness of an optional string: `undefined`, `null` and
      `''` are falsy, every other string is truthy. */
  predicate Present(v: Wrappers.Option<string>) {
    v.Some? && v.value != ""
  }

  /** Lower-cases one character. Only the ASCII letters are mapped; JavaScript's
      full Unicode case mapping is not part of this model. */
  function LowerChar(c: char): char {
    if 'A' <= c <= 'Z' then (c as int + 32) as char else c
  }

  /** `s.toLowerCase()`, restricted to ASCII letters. */
  function ToLower(s: string): (r: string)
    ensures |r| == |s|
  {
    seq(|s|, i requires 0 <= i < |s| => LowerChar(s[i]))
  }

  /** Lower-casing twice is lower-casing once. */
  lemma ToLowerIdempotent(s: string)
    ensures ToLower(ToLower(s)) == ToLower(s)
  {
    assert forall i :: 0 <= i < |s| ==> ToLower(ToLower(s))[i] == ToLower(s)[i];
  }

  /** Lower-casing keeps exactly the empty string empty. */
  lemma ToLowerEmpty(s: string)
    ensures ToLower(s) == "" <==> s == ""
  {
  }

  /** `sub` occurs in `s` starting at offset `i`. */
  predicate OccursAt(s: string, sub: string, i: int) {
    0 <= i <= |s| - |sub| && s[i..i + |sub|] == sub
  }

  /** `s.includes(sub)`: `sub` occurs in `s` at some offset. */
  predicate Includes(s: string, sub: string) {
    exists i :: 0 <= i <= |s| - |sub| && OccursAt(s, sub, i)
  }

  /** The empty string occurs in every string (`s.includes('')` is true). */
  lemma IncludesEmpty(s: string)
    ensures Includes(s, "")
  {
    assert OccursAt(s, "", 0);
  }

  /** Occurrence is transitive: what occurs inside an occurrence occurs in the whole. */
  lemma IncludesTransitive(s: string, mid: string, sub: string)
    requires Includes(s, mid) && Includes(mid, sub)
    ensures Includes(s, sub)
  {
    var i :| 0 <= i <= |s| - |mid| && OccursAt(s, mid, i);
    var j :| 0 <= j <= |mid| - |sub| && OccursAt(mid, sub, j);
    assert forall k :: 0 <= k < |sub| ==> s[i + j + k] == mid[j + k] == sub[k];
    assert OccursAt(s, sub, i + j);
  }

  /** An occurrence past offset `n` is an occurrence in the text from `n` on. */
  lemma OccursAtShift(s: string, sub: string, n: nat, i: nat)
    requires n <= |s| && OccursAt(s, sub, n + i)
    ensures OccursAt(s[n..], sub, i)
  {
    assert s[n..][i..i + |sub|] == s[n + i..n + i + |sub|];
  }

  /** An occurrence in `s` is an occurrence in `p + s`, shifted by `|p|`. */
  lemma OccursAtPrepend(p: string, s: string, sub: string, i: nat)
    requires OccursAt(s, sub, i)
    ensures OccursAt(p + s, sub, |p| + i)
  {
    assert (p + s)[|p| + i..|p| + i + |sub|] == s[i..i + |sub|];
  }

  /** `s.startsWith(prefix)`. */
  predicate StartsWith(s: string, prefix: string) {
    |prefix| <= |s| && s[..|prefix|] == prefix
  }

  /** A prefix is in particular an occurrence. */
  lemma StartsWithIncludes(s: string, prefix: string)
    requires StartsWith(s, prefix)
    ensures Includes(s, prefix)
  {
    assert OccursAt(s, prefix, 0);
  }

  /** The characters `String.prototype.trim` removes: the white-space and
      line-terminator code points of ECMAScript (tab, line feed, vertical tab,
      form feed, carriage return, space, no-break space, the Unicode space
      separators, line and paragraph separator, byte-order mark). */
  predicate IsJsWhitespace(c: char) {
    var n := c as int;
    (9 <= n <= 13) || n == 0x20 || n == 0xA0 || n == 0x1680 || (0x2000 <= n <= 0x200A)
    || n == 0x2028 || n == 0x2029 || n == 0x202F || n == 0x205F || n == 0x3000 || n == 0xFEFF
  }

  predicate AllWhitespace(s: string) {
    forall i :: 0 <= i < |s| ==> IsJsWhitespace(s[i])
  }

  /** `s.trimStart()`: drops the leading white space. */
  function TrimStart(s: string): (r: string)
    ensures |r| <= |s| && r == s[|s| - |r|..]
    ensures AllWhitespace(s[..|s| - |r|])
    ensures r != [] ==> !IsJsWhitespace(r[0])
  {
    if s != [] && IsJsWhitespace(s[0]) then
      var r := TrimStart(s[1..]);
      assert s[1..][..|s[1..]| - |r|] == s[1..|s| - |r|];
      r
    else s
  }

  /** `s.trimEnd()`: drops the trailing white space. */
  function TrimEnd(s: string): (r: string)
    ensures |r| <= |s| && r == s[..|r|]
    ensures AllWhitespace(s[|r|..])
    ensures r != [] ==> !IsJsWhitespace(r[|r| - 1])
  {
    if s != [] && IsJsWhitespace(s[|s| - 1]) then
      var r := TrimEnd(s[..|s| - 1]);
      WhitespaceThenOneMore(s, |r|);
      r
    else s
  }

  /** White space from `k` up to the last character, followed by a white-space
      last character, is white space from `k` to the end. */
  lemma WhitespaceThenOneMore(s: string, k: nat)
    requires k < |s| && AllWhitespace(s[..|s| - 1][k..]) && IsJsWhitespace(s[|s| - 1])
    ensures AllWhitespace(s[k..])
  {
    forall i | 0 <= i < |s| - k ensures IsJsWhitespace(s[k..][i]) {
      if k + i < |s| - 1 {
        assert s[k..][i] == s[..|s| - 1][k..][i];
      }
    }
  }

  /** `s.trim()`. */
  function Trim(s: string): (r: string) {
    TrimEnd(TrimStart(s))
  }

  /** What `trim` returns is a contiguous piece of its input with white space only
      around it and none at either of its own ends. */
  lemma TrimIsInfix(s: string)
    ensures var r := Trim(s);
      exists lo :: OccursAt(s, r, lo) && AllWhitespace(s[..lo]) && AllWhitespace(s[lo + |r|..])
    ensures Trim(s) != [] ==> !IsJsWhitespace(Trim(s)[0]) && !IsJsWhitespace(Trim(s)[|Trim(s)| - 1])
  {
    var t := TrimStart(s);
    var r := TrimEnd(t);
    var lo := |s| - |t|;
    SliceOfSlice(s, lo, |r|);
    assert OccursAt(s, r, lo);
    TrimEndsAreNotWhitespace(s);
  }

  /** The first and last characters of a non-empty `trim` result are not white space. */
  lemma TrimEndsAreNotWhitespace(s: string)
    ensures Trim(s) != [] ==> !IsJsWhitespace(Trim(s)[0]) && !IsJsWhitespace(Trim(s)[|Trim(s)| - 1])
  {
    var t := TrimStart(s);
    var r := TrimEnd(t);
    if r != [] {
      assert r[0] == t[0];
    }
  }

  /** Slicing a suffix again is slicing the original. */
  lemma SliceOfSlice(s: string, lo: nat, k: nat)
    requires lo + k <= |s|
    ensures s[lo..][..k] == s[lo..lo + k] && s[lo..][k..] == s[lo + k..]
  {
  }

  /** `s.trim()` is empty exactly when `s` is all white space. */
  lemma TrimEmptyIffBlank(s: string)
    ensures Trim(s) == "" <==> AllWhitespace(s)
  {
    var t := TrimStart(s);
    if t == [] {
      assert s[..|s| - |t|] == s;
    } else {
      var r := TrimEnd(t);
      assert t[|r|..] != [] ==> IsJsWhitespace(t[|r|..][0]);
      assert t[0] == s[|s| - |t|];
    }
  }

  /** `s.replace(c, replacement)` with a one-character pattern: only the first
      occurrence of `c` is replaced; without one, `s` is returned unchanged. */
  function ReplaceFirst(s: string, c: char, replacement: string): (r: string)
    ensures c !in s ==> r == s
    ensures c in s ==> |r| == |s| - 1 + |replacement|
  {
    if s == [] then []
    else if s[0] == c then replacement + s[1..]
    else [s[0]] + ReplaceFirst(s[1..], c, replacement)
  }

  /** The occurrence replaced is the first: everything before it and after it
      is kept. */
  lemma {:induction false} ReplaceFirstAt(s: string, c: char, replacement: string, i: nat)
    requires i < |s| && s[i] == c && c !in s[..i]
    ensures ReplaceFirst(s, c, replacement) == s[..i] + replacement + s[i + 1..]
  {
    if i > 0 {
      assert s[0] in s[..i];
      assert s[1..][..i - 1] == s[1..i];
      assert c !in s[1..][..i - 1];
      ReplaceFirstAt(s[1..], c, replacement, i - 1);
      assert s[..i] == [s[0]] + s[1..][..i - 1];
      assert s[1..][i - 1 + 1..] == s[i + 1..];
    }
  }
}
