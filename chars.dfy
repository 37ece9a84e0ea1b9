/**
 * Character classes used by the form rules, written out instead of as
 * regular expressions: ASCII letters and digits, ASCII upper-casing, and
 * the whitespace that `String.prototype.trim` removes.
 */
module Chars {

  predicate IsLower(c: char) { 'a' <= c <= 'z' }
  predicate IsUpper(c: char) { 'A' <= c <= 'Z' }
  predicate IsDigit(c: char) { '0' <= c <= '9' }

  /** The class `[a-zA-Z0-9]`. */
  predicate IsAlnum(c: char) { IsLower(c) || IsUpper(c) || IsDigit(c) }

  predicate AllAlnum(s: string) {
    forall k :: 0 <= k < |s| ==> IsAlnum(s[k])
  }

  /** `toUpperCase` on a letter or digit. */
  function ToUpper(c: char): (u: char)
    ensures IsAlnum(c) ==> IsAlnum(u) && !IsLower(u)
    ensures !IsLower(c) ==> u == c
  {
    if IsLower(c) then (c as int - 32) as char else c
  }

  /** The line terminators, which `.` in a regular expression does not match. */
  predicate IsLineTerminator(c: char) {
    c == '\n' || c == '\r' || c == '\U{2028}' || c == '\U{2029}'
  }

  /** The WhiteSpace and LineTerminator characters that `trim` strips. */
  predicate IsTrimmed(c: char) {
    || IsLineTerminator(c)
    || c == ' ' || c == '\t' || c == '\U{000B}' || c == '\U{000C}'
    || c == '\U{00A0}' || c == '\U{FEFF}' || c == '\U{1680}'
    || ('\U{2000}' <= c <= '\U{200A}') || c == '\U{202F}' || c == '\U{205F}' || c == '\U{3000}'
  }

  /** Nothing but whitespace (or nothing at all). */
  predicate IsBlank(s: string) {
    forall k {:trigger IsTrimmed(s[k])} :: 0 <= k < |s| ==> IsTrimmed(s[k])
  }

  function TrimStart(s: string): (r: string)
    ensures |r| <= |s| && r == s[|s| - |r|..]
    ensures r == [] || !IsTrimmed(r[0])
  {
    if s != [] && IsTrimmed(s[0]) then TrimStart(s[1..]) else s
  }

  function TrimEnd(s: string): (r: string)
    ensures |r| <= |s| && r == s[..|r|]
    ensures r == [] || !IsTrimmed(r[|r| - 1])
  {
    if s != [] && IsTrimmed(s[|s| - 1]) then TrimEnd(s[..|s| - 1]) else s
  }

  /** `TrimStart` strips only whitespace. */
  lemma {:induction false} TrimStartStrips(s: string)
    ensures forall k :: 0 <= k < |s| - |TrimStart(s)| ==> IsTrimmed(s[k])
  {
    if s != [] && IsTrimmed(s[0]) {
      TrimStartStrips(s[1..]);
      assert forall k :: 1 <= k < |s| ==> s[k] == s[1..][k - 1];
    }
  }

  /** `TrimEnd` strips only whitespace. */
  lemma {:induction false} TrimEndStrips(s: string)
    ensures forall k :: |TrimEnd(s)| <= k < |s| ==> IsTrimmed(s[k])
  {
    if s != [] && IsTrimmed(s[|s| - 1]) {
      TrimEndStrips(s[..|s| - 1]);
      assert forall k :: 0 <= k < |s| - 1 ==> s[k] == s[..|s| - 1][k];
    }
  }

  /**
   * `String.prototype.trim`: whitespace removed from both ends. It is
   * empty exactly when `s` is blank, and otherwise starts and ends with a
   * non-whitespace character.
   */
  function Trim(s: string): (r: string)
    ensures |r| <= |s|
    ensures r == [] <==> IsBlank(s)
    ensures r != [] ==> !IsTrimmed(r[0]) && !IsTrimmed(r[|r| - 1])
  {
    TrimBlank(s);
    TrimEnd(TrimStart(s))
  }

  lemma TrimBlank(s: string)
    ensures TrimEnd(TrimStart(s)) == [] <==> IsBlank(s)
  {
    var t := TrimStart(s);
    var i := |s| - |t|;
    TrimStartStrips(s);
    TrimEndStrips(t);
    assert forall k :: i <= k < |s| ==> s[k] == t[k - i];
    if t != [] && TrimEnd(t) != [] {
      assert !IsTrimmed(s[i]);
    }
  }

  /** What `Trim` keeps is a slice of `s`, and everything it removed from either end is whitespace. */
  lemma TrimSlice(s: string)
    ensures var i := |s| - |TrimStart(s)|; var r := Trim(s);
      && i + |r| <= |s| && r == s[i..i + |r|]
      && (forall k :: 0 <= k < i ==> IsTrimmed(s[k]))
      && (forall k :: i + |r| <= k < |s| ==> IsTrimmed(s[k]))
  {
    var t := TrimStart(s);
    var i := |s| - |t|;
    var r := TrimEnd(t);
    TrimStartStrips(s);
    TrimEndStrips(t);
    assert t == s[i..];
    assert forall k :: i + |r| <= k < |s| ==> s[k] == t[k - i];
  }

  /** A string whose ends are not whitespace trims to itself. */
  lemma TrimKeeps(s: string)
    requires s != [] && !IsTrimmed(s[0]) && !IsTrimmed(s[|s| - 1])
    ensures Trim(s) == s
  {
  }

  /** The letters and digits of a string, in order (what `match(/[a-zA-Z0-9]/g)` collects). */
  function Alnums(s: string): (r: string)
    ensures AllAlnum(r) && |r| <= |s|
    ensures AllAlnum(s) ==> r == s
    ensures forall c :: c in r <==> c in s && IsAlnum(c)
  {
    if s == [] then []
    else
      var rest := Alnums(s[1..]);
      assert forall c :: c in s <==> c == s[0] || c in s[1..];
      if IsAlnum(s[0]) then [s[0]] + rest else rest
  }

  /**
   * `Alnums` is the in-order filter: it keeps a single character exactly
   * when it is a letter or digit, and filtering a concatenation
   * concatenates the filtered parts, so order and repetitions are kept.
   */
  lemma {:induction false} AlnumsFilters(a: string, b: string)
    ensures Alnums(a + b) == Alnums(a) + Alnums(b)
    ensures |a| == 1 ==> Alnums(a) == if IsAlnum(a[0]) then a else []
  {
    if a == [] {
      assert a + b == b;
    } else {
      assert (a + b)[0] == a[0];
      assert (a + b)[1..] == a[1..] + b;
      AlnumsFilters(a[1..], b);
    }
  }
}
