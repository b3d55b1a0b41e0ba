/**
 The parts of JavaScript's string built-ins that the colour dispatcher relies on:
 String.prototype.trim, String.prototype.toLowerCase and the `length` property,
 which counts UTF-16 code units. Strings are sequences of Unicode scalar values.
 */
module JsString {

  /** The WhiteSpace and LineTerminator code points of ECMA-262, which `trim` removes:
      TAB, VT, FF, SPACE, NBSP, ZWNBSP, every space separator (category Zs),
      LF, CR, LINE SEPARATOR and PARAGRAPH SEPARATOR. */
  predicate IsWhitespace(c: char) {
    || c == '\U{9}' || c == '\U{B}' || c == '\U{C}' || c == ' ' || c == '\U{A0}' || c == '\U{FEFF}'
    || c == '\U{1680}' || ('\U{2000}' <= c <= '\U{200A}') || c == '\U{202F}' || c == '\U{205F}'
    || c == '\U{3000}'
    || c == '\U{A}' || c == '\U{D}' || c == '\U{2028}' || c == '\U{2029}'
  }

  predicate AllWhitespace(s: string) {
    forall i :: 0 <= i < |s| ==> IsWhitespace(s[i])
  }

  /** Neither end of `s` is whitespace (the empty string counts as trimmed). */
  predicate Trimmed(s: string) {
    s == [] || (!IsWhitespace(s[0]) && !IsWhitespace(s[|s| - 1]))
  }

  /** The number of whitespace characters at the start of `s`. */
  function LeadingSpace(s: string): (k: nat)
    ensures k <= |s|
    ensures forall i :: 0 <= i < k ==> IsWhitespace(s[i])
    ensures k < |s| ==> !IsWhitespace(s[k])
  {
    if s != [] && IsWhitespace(s[0]) then 1 + LeadingSpace(s[1..]) else 0
  }

  /** The number of whitespace characters at the end of `s`. */
  function TrailingSpace(s: string): (k: nat)
    ensures k <= |s|
    ensures forall i :: |s| - k <= i < |s| ==> IsWhitespace(s[i])
    ensures k < |s| ==> !IsWhitespace(s[|s| - 1 - k])
  {
    if s != [] && IsWhitespace(s[|s| - 1]) then 1 + TrailingSpace(s[..|s| - 1]) else 0
  }

  /** String.prototype.trim: `s` without the whitespace at both of its ends. The result
      is trimmed and is empty exactly when `s` is all whitespace; TrimSplit and TrimPadded
      show it is the one trimmed infix of `s` that only whitespace surrounds. */
  function Trim(s: string): (r: string)
    ensures Trimmed(r)
    ensures |r| <= |s|
    ensures r == [] <==> AllWhitespace(s)
  {
    var i := LeadingSpace(s);
    if i == |s| then [] else s[i..|s| - TrailingSpace(s)]
  }

  lemma AllWhitespaceAppend(a: string, b: string)
    requires AllWhitespace(a) && AllWhitespace(b)
    ensures AllWhitespace(a + b)
  {
  }

  /** `s` is its trimmed form with whitespace on both sides. */
  lemma TrimSplit(s: string) returns (p: string, q: string)
    ensures s == p + Trim(s) + q
    ensures AllWhitespace(p) && AllWhitespace(q)
  {
    var i := LeadingSpace(s);
    if i == |s| {
      p, q := s, [];
      assert s == p + [] + q;
    } else {
      var j := |s| - TrailingSpace(s);
      assert i < j by {
        assert !IsWhitespace(s[i]);
      }
      p, q := s[..i], s[j..];
      assert AllWhitespace(p) by {
        assert forall k :: 0 <= k < i ==> p[k] == s[k];
      }
      assert AllWhitespace(q) by {
        assert forall k :: 0 <= k < |q| ==> q[k] == s[j + k];
      }
      assert Trim(s) == s[i..j];
      Slices(s, i, j);
    }
  }

  lemma Slices(s: string, i: nat, j: nat)
    requires i <= j <= |s|
    ensures s == s[..i] + s[i..j] + s[j..]
  {
  }

  lemma {:induction false} LeadingSpacePadded(w: string, x: string)
    requires AllWhitespace(w)
    requires x == [] || !IsWhitespace(x[0])
    ensures LeadingSpace(w + x) == |w|
  {
    if w != [] {
      assert (w + x)[1..] == w[1..] + x;
      LeadingSpacePadded(w[1..], x);
    }
  }

  lemma {:induction false} TrailingSpacePadded(x: string, w: string)
    requires AllWhitespace(w)
    requires x == [] || !IsWhitespace(x[|x| - 1])
    ensures TrailingSpace(x + w) == |w|
  {
    if w != [] {
      assert (x + w)[..|x + w| - 1] == x + w[..|w| - 1];
      TrailingSpacePadded(x, w[..|w| - 1]);
    }
  }

  /** Whatever whitespace surrounds a trimmed string, `trim` returns exactly that string. */
  lemma TrimPadded(p: string, m: string, q: string)
    requires AllWhitespace(p) && AllWhitespace(q)
    requires Trimmed(m)
    ensures Trim(p + m + q) == m
  {
    var s := p + m + q;
    if m == [] {
      assert s == p + q;
      AllWhitespaceAppend(p, q);
    } else {
      assert s == p + (m + q);
      LeadingSpacePadded(p, m + q);
      assert s == (p + m) + q;
      TrailingSpacePadded(p + m, q);
      assert s[|p|..|s| - |q|] == m;
    }
  }

  lemma Regroup(p: string, a: string, m: string, b: string, q: string)
    ensures p + (a + m + b) + q == (p + a) + m + (b + q)
  {
  }

  /** Adding whitespace at either end does not change what `trim` returns. */
  lemma TrimIgnoresPadding(p: string, s: string, q: string)
    requires AllWhitespace(p) && AllWhitespace(q)
    ensures Trim(p + s + q) == Trim(s)
  {
    var a, b := TrimSplit(s);
    var m := Trim(s);
    Regroup(p, a, m, b, q);
    AllWhitespaceAppend(p, a);
    AllWhitespaceAppend(b, q);
    TrimPadded(p + a, m, b + q);
  }

  /** Trimming twice is trimming once. */
  lemma TrimIdempotent(s: string)
    ensures Trim(Trim(s)) == Trim(s)
  {
  }

  /** The capitals this model lowers: A-Z, the Latin-1 capitals U+00C0-U+00DE except
      U+00D7, and KELVIN SIGN U+212A. Other cased letters are not covered (see README,
      "Left out"). */
  predicate IsUpper(c: char) {
    ('A' <= c <= 'Z') || ('\U{C0}' <= c <= '\U{DE}' && c != '\U{D7}') || c == '\U{212A}'
  }

  /** The lower-case form of one code point: the capitals of `IsUpper` move to their
      lower-case partner, a letter of Basic Latin or Latin-1; every other code point stays. */
  function LowerChar(c: char): (r: char)
    ensures !IsUpper(r)
    ensures !IsUpper(c) ==> r == c
    ensures IsUpper(c) ==> ('a' <= r <= 'z') || ('\U{DF}' < r <= '\U{FE}' && r != '\U{F7}')
    ensures IsWhitespace(r) <==> IsWhitespace(c)
  {
    if c == '\U{212A}' then 'k'
    else if IsUpper(c) then (c as int + 0x20) as char
    else c
  }

  /** The part of String.prototype.toLowerCase described under "Left out" in the README:
      `LowerChar` applied to each code point. */
  function ToLower(s: string): (r: string)
    ensures |r| == |s|
    ensures forall i :: 0 <= i < |s| ==> r[i] == LowerChar(s[i])
  {
    if s == [] then [] else [LowerChar(s[0])] + ToLower(s[1..])
  }

  /** Lower-casing a lower-cased string changes nothing. */
  lemma ToLowerIdempotent(s: string)
    ensures ToLower(ToLower(s)) == ToLower(s)
  {
  }

  /** Lower-casing distributes over concatenation. */
  lemma ToLowerAppend(a: string, b: string)
    ensures ToLower(a + b) == ToLower(a) + ToLower(b)
  {
    var l, r := ToLower(a + b), ToLower(a) + ToLower(b);
    assert |l| == |r|;
    forall i | 0 <= i < |l|
      ensures l[i] == r[i]
    {
      if i < |a| {
        assert (a + b)[i] == a[i];
      } else {
        assert (a + b)[i] == b[i - |a|];
      }
    }
  }

  lemma LowerPreservesWhitespace(s: string)
    ensures AllWhitespace(ToLower(s)) <==> AllWhitespace(s)
  {
  }

  lemma LowerPreservesTrimmed(s: string)
    ensures Trimmed(ToLower(s)) <==> Trimmed(s)
  {
  }

  /** Lower-casing and trimming commute, so the order `trim().toLowerCase()` is immaterial. */
  lemma TrimToLowerCommute(s: string)
    ensures ToLower(Trim(s)) == Trim(ToLower(s))
  {
    var p, q := TrimSplit(s);
    var m := Trim(s);
    LowerPreservesWhitespace(p);
    LowerPreservesWhitespace(q);
    LowerPreservesTrimmed(m);
    ToLowerAppend(p + m, q);
    ToLowerAppend(p, m);
    TrimPadded(ToLower(p), ToLower(m), ToLower(q));
  }

  /** Number of UTF-16 code units that encode `c`. */
  function Utf16Units(c: char): nat {
    if c as int > 0xFFFF then 2 else 1
  }

  /** The JavaScript `length` of a string: its number of UTF-16 code units. It equals
      the number of code points exactly when none lies outside the Basic Multilingual Plane. */
  function Utf16Length(s: string): (n: nat)
    ensures |s| <= n <= 2 * |s|
    ensures n == |s| <==> forall i :: 0 <= i < |s| ==> s[i] as int <= 0xFFFF
  {
    if s == [] then 0 else Utf16Units(s[0]) + Utf16Length(s[1..])
  }
}
