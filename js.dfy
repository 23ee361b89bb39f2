/** JavaScript values and the String.prototype operations the judge relies on.
    Strings are sequences of `char`; every character the judge treats specially
    lies in the Basic Multilingual Plane, so a UTF-16 code unit and a `char`
    coincide for them. */
module Js {

  datatype Option<+T> = None | Some(value: T) {
    function GetOr(default: T): T {
      if Some? then value else default
    }
  }

  datatype Result<+T, +E> = Ok(value: T) | Err(error: E)

  /** A string-valued property used as a condition: `undefined` and `""` are falsy. */
  predicate Truthy(v: Option<string>) {
    v.Some? && v.value != ""
  }

  /** `a || b` where `a` is a string that is always present. */
  function Or(a: string, b: string): string {
    if a != "" then a else b
  }

  /** `${v}` in a template literal: `undefined` renders as the word itself. */
  function Interpolate(v: Option<string>): string {
    if v.Some? then v.value else "undefined"
  }

  // ---------------------------------------------------------------------------
  // String.prototype.trim, ECMA-262 (2024), section 22.1.3.32: TrimString(S, start+end)
  // removes leading and trailing WhiteSpace (section 12.2) and LineTerminator
  // (section 12.3) code points.
  // ---------------------------------------------------------------------------

  /** WhiteSpace: TAB, VT, FF, ZWNBSP and the Space_Separator (Zs) code points. */
  const WhiteSpace: set<char> := {
    '\t', '\U{B}', '\U{C}', '\U{FEFF}', ' ', '\U{A0}', '\U{1680}',
    '\U{2000}', '\U{2001}', '\U{2002}', '\U{2003}', '\U{2004}', '\U{2005}',
    '\U{2006}', '\U{2007}', '\U{2008}', '\U{2009}', '\U{200A}',
    '\U{202F}', '\U{205F}', '\U{3000}'
  }

  /** LineTerminator: LF, CR, LINE SEPARATOR, PARAGRAPH SEPARATOR. */
  const LineTerminators: set<char> := {'\n', '\r', '\U{2028}', '\U{2029}'}

  /** The same code points by range, the form the proofs use. */
  predicate IsTrimmable(c: char) {
    || '\t' <= c <= '\r'
    || c == ' ' || c == '\U{A0}' || c == '\U{1680}'
    || '\U{2000}' <= c <= '\U{200A}'
    || c == '\U{2028}' || c == '\U{2029}' || c == '\U{202F}' || c == '\U{205F}' || c == '\U{3000}'
    || c == '\U{FEFF}'
  }

  /** The ranges hold exactly WhiteSpace and LineTerminator. */
  lemma TrimmableIsWhiteSpaceOrLineTerminator(c: char)
    ensures IsTrimmable(c) <==> c in WhiteSpace || c in LineTerminators
  {
  }

  /** Every character of `s` is removed by trim. */
  predicate IsBlank(s: string) {
    forall i :: 0 <= i < |s| ==> IsTrimmable(s[i])
  }

  /** Neither end of `s` can be trimmed. */
  predicate IsTrimmed(s: string) {
    s == [] || (!IsTrimmable(s[0]) && !IsTrimmable(s[|s| - 1]))
  }

  /** Removes the leading trimmable characters. */
  function TrimStart(s: string): string {
    if s == [] || !IsTrimmable(s[0]) then s else TrimStart(s[1..])
  }

  /** Removes the trailing trimmable characters. */
  function TrimEnd(s: string): string {
    if s == [] || !IsTrimmable(s[|s| - 1]) then s else TrimEnd(s[..|s| - 1])
  }

  /** `TrimStart(s)` is the longest suffix of `s` that does not start with a
      trimmable character. */
  lemma {:induction false} TrimStartShape(s: string)
    ensures var r := TrimStart(s);
      && |r| <= |s| && r == s[|s| - |r|..]
      && IsBlank(s[..|s| - |r|])
      && (r == [] || !IsTrimmable(r[0]))
  {
    if s != [] && IsTrimmable(s[0]) {
      TrimStartShape(s[1..]);
      var r := TrimStart(s[1..]);
      assert s[..|s| - |r|] == [s[0]] + s[1..][..|s| - 1 - |r|];
    }
  }

  /** `TrimEnd(s)` is the longest prefix of `s` that does not end with a
      trimmable character. */
  lemma {:induction false} TrimEndShape(s: string)
    ensures var r := TrimEnd(s);
      && |r| <= |s| && r == s[..|r|]
      && IsBlank(s[|r|..])
      && (r == [] || !IsTrimmable(r[|r| - 1]))
  {
    if s != [] && IsTrimmable(s[|s| - 1]) {
      TrimEndShape(s[..|s| - 1]);
      var r := TrimEnd(s[..|s| - 1]);
      assert s[|r|..] == s[..|s| - 1][|r|..] + [s[|s| - 1]];
    }
  }

  /** `r` is what is left of `s` once the blank `s[..i]` and the blank tail after
      `r` are cut off. */
  predicate IsTrimOf(s: string, r: string, i: int) {
    0 <= i <= |s| - |r| && r == s[i..i + |r|] && IsBlank(s[..i]) && IsBlank(s[i + |r|..])
  }

  /** Cutting a blank head off `s`, leaving `t`, and then a blank tail off
      `t`, leaving `r`, gives a trimmed slice of `s` that is empty only when
      `s` is blank. */
  lemma TrimOfParts(s: string, t: string, r: string)
    requires |t| <= |s| && t == s[|s| - |t|..] && IsBlank(s[..|s| - |t|]) && (t == [] || !IsTrimmable(t[0]))
    requires |r| <= |t| && r == t[..|r|] && IsBlank(t[|r|..]) && (r == [] || !IsTrimmable(r[|r| - 1]))
    ensures IsTrimmed(r)
    ensures IsTrimOf(s, r, |s| - |t|)
    ensures r == [] <==> IsBlank(s)
  {
    var i := |s| - |t|;
    assert s[i..] == t;
    assert s[i..i + |r|] == r by {
      assert s[i..i + |r|] == s[i..][..|r|];
    }
    assert s[i + |r|..] == t[|r|..] by {
      assert s[i + |r|..] == s[i..][|r|..];
    }
    if r == [] {
      assert s == s[..i] + t[|r|..];
      BlankConcat(s[..i], t[|r|..]);
    } else {
      assert r[0] == t[0] && s[i] == t[0];
    }
  }

  /** `s.trim()`: leading, then trailing trimmable characters removed. */
  function Trim(s: string): string {
    TrimEnd(TrimStart(s))
  }

  /** `s.trim()` is the slice of `s` left once blank characters are cut from
      both ends; it is empty exactly when `s` is blank. */
  lemma TrimShape(s: string)
    ensures IsTrimmed(Trim(s))
    ensures exists i :: IsTrimOf(s, Trim(s), i)
    ensures Trim(s) == [] <==> IsBlank(s)
  {
    var t := TrimStart(s);
    TrimStartShape(s);
    TrimEndShape(t);
    TrimOfParts(s, t, TrimEnd(t));
  }

  lemma {:induction false} TrimStartBlankPrefix(pre: string, s: string)
    requires IsBlank(pre)
    ensures TrimStart(pre + s) == TrimStart(s)
  {
    if pre == [] {
      assert pre + s == s;
    } else {
      assert IsTrimmable((pre + s)[0]);
      assert (pre + s)[1..] == pre[1..] + s;
      assert IsBlank(pre[1..]) by {
        forall k | 0 <= k < |pre| - 1 ensures IsTrimmable(pre[1..][k]) {
          assert pre[1..][k] == pre[k + 1];
        }
      }
      TrimStartBlankPrefix(pre[1..], s);
    }
  }

  lemma {:induction false} TrimEndBlankSuffix(s: string, post: string)
    requires IsBlank(post)
    ensures TrimEnd(s + post) == TrimEnd(s)
  {
    if post == [] {
      assert s + post == s;
    } else {
      var n := |post| - 1;
      assert IsTrimmable((s + post)[|s + post| - 1]);
      assert (s + post)[..|s + post| - 1] == s + post[..n];
      assert IsBlank(post[..n]) by {
        forall k | 0 <= k < n ensures IsTrimmable(post[..n][k]) {
          assert post[..n][k] == post[k];
        }
      }
      TrimEndBlankSuffix(s, post[..n]);
    }
  }

  lemma {:induction false} TrimStartAppend(s: string, post: string)
    requires !IsBlank(s)
    ensures TrimStart(s + post) == TrimStart(s) + post
  {
    assert s != [];
    if IsTrimmable(s[0]) {
      assert (s + post)[1..] == s[1..] + post;
      TrimStartAppend(s[1..], post);
    }
  }

  lemma BlankConcat(a: string, b: string)
    requires IsBlank(a) && IsBlank(b)
    ensures IsBlank(a + b)
  {
  }

  /** Trimming ignores blank padding on both sides: the comparison at the heart of
      the judge is insensitive to leading and trailing white space. */
  lemma {:induction false} TrimIgnoresPadding(pre: string, s: string, post: string)
    requires IsBlank(pre) && IsBlank(post)
    ensures Trim(pre + s + post) == Trim(s)
  {
    assert pre + s + post == pre + (s + post);
    TrimStartBlankPrefix(pre, s + post);
    if IsBlank(s) {
      BlankConcat(s, post);
      TrimShape(s);
      TrimShape(s + post);
    } else {
      TrimStartAppend(s, post);
      TrimEndBlankSuffix(TrimStart(s), post);
    }
  }

  /** Trimming twice is trimming once. */
  lemma TrimIdempotent(s: string)
    ensures Trim(Trim(s)) == Trim(s)
  {
    var r := Trim(s);
    TrimShape(s);
    assert TrimStart(r) == r;
    assert TrimEnd(r) == r;
  }

  // ---------------------------------------------------------------------------
  // String.prototype.includes and String.prototype.split
  // ---------------------------------------------------------------------------

  /** `t` occurs in `s` starting at index `i`. */
  predicate OccursAt(s: string, t: string, i: int) {
    0 <= i <= |s| - |t| && s[i..i + |t|] == t
  }

  /** `s.includes(t)`: `t` occurs in `s` at some position. */
  predicate Includes(s: string, t: string) {
    exists i :: 0 <= i <= |s| - |t| && OccursAt(s, t, i)
  }

  /** Text found in a suffix is found in the whole string. */
  lemma IncludesSuffix(pre: string, s: string, t: string)
    requires Includes(s, t)
    ensures Includes(pre + s, t)
  {
    var i :| 0 <= i <= |s| - |t| && OccursAt(s, t, i);
    assert (pre + s)[|pre| + i..|pre| + i + |t|] == s[i..i + |t|];
    assert OccursAt(pre + s, t, |pre| + i);
  }

  /** Text found in a prefix is found in the whole string. */
  lemma IncludesPrefix(s: string, post: string, t: string)
    requires Includes(s, t)
    ensures Includes(s + post, t)
  {
    var i :| 0 <= i <= |s| - |t| && OccursAt(s, t, i);
    assert (s + post)[i..i + |t|] == s[i..i + |t|];
    assert OccursAt(s + post, t, i);
  }

  /** `t` occurs in `s` only if `t`'s first character does. */
  lemma IncludesNeedsFirstChar(s: string, t: string)
    requires t != [] && t[0] !in s
    ensures !Includes(s, t)
  {
  }

  /** A string containing a non-blank string does not trim to nothing. */
  lemma IncludesNonBlank(s: string, t: string)
    requires Includes(s, t) && !IsBlank(t)
    ensures Trim(s) != ""
  {
    var i :| 0 <= i <= |s| - |t| && OccursAt(s, t, i);
    var k :| 0 <= k < |t| && !IsTrimmable(t[k]);
    assert s[i + k] == s[i..i + |t|][k] == t[k];
    TrimShape(s);
  }

  /** `s.split(sep)[0]`: the text before the first `sep`, or all of `s`. */
  function SplitHead(s: string, sep: char): (r: string)
    ensures |r| <= |s| && r == s[..|r|]
    ensures sep !in r
    ensures |r| < |s| ==> s[|r|] == sep
  {
    if s == [] || s[0] == sep then []
    else [s[0]] + SplitHead(s[1..], sep)
  }
}
