/** The three string primitives the router relies on, with Python's meaning:
    `str.strip()` without arguments, `str.lower()`, and the substring test `w in t`. */
module Text {

  /** The characters for which Python's `str.isspace()` holds; `str.strip()`
      without arguments removes exactly these from both ends. */
  predicate IsSpace(c: char) {
    || ('\t' <= c <= '\r')
    || ('\U{1C}' <= c <= '\U{1F}')
    || c == ' '
    || c == '\U{85}'
    || c == '\U{A0}'
    || c == '\U{1680}'
    || ('\U{2000}' <= c <= '\U{200A}')
    || c == '\U{2028}'
    || c == '\U{2029}'
    || c == '\U{202F}'
    || c == '\U{205F}'
    || c == '\U{3000}'
  }

  /** Python's `s.lstrip()`: drops the leading whitespace. */
  function TrimStart(s: string): string {
    if |s| > 0 && IsSpace(s[0]) then TrimStart(s[1..]) else s
  }

  /** Python's `s.rstrip()`: drops the trailing whitespace. */
  function TrimEnd(s: string): string {
    if |s| > 0 && IsSpace(s[|s| - 1]) then TrimEnd(s[..|s| - 1]) else s
  }

  /** Python's `s.strip()`. */
  function Trim(s: string): string {
    TrimEnd(TrimStart(s))
  }

  /** What remains after dropping leading whitespace is a suffix of `s` that
      is empty or starts with a non-space, and everything dropped is space. */
  lemma {:induction false} TrimStartSpec(s: string)
    ensures |TrimStart(s)| <= |s| && TrimStart(s) == s[|s| - |TrimStart(s)|..]
    ensures forall i :: 0 <= i < |s| - |TrimStart(s)| ==> IsSpace(s[i])
    ensures TrimStart(s) == [] || !IsSpace(TrimStart(s)[0])
  {
    if |s| > 0 && IsSpace(s[0]) {
      TrimStartSpec(s[1..]);
    }
  }

  /** What remains after dropping trailing whitespace is a prefix of `s` that
      is empty or ends with a non-space, and everything dropped is space. */
  lemma {:induction false} TrimEndSpec(s: string)
    ensures |TrimEnd(s)| <= |s| && TrimEnd(s) == s[..|TrimEnd(s)|]
    ensures forall i :: |TrimEnd(s)| <= i < |s| ==> IsSpace(s[i])
    ensures TrimEnd(s) == [] || !IsSpace(TrimEnd(s)[|TrimEnd(s)| - 1])
  {
    if |s| > 0 && IsSpace(s[|s| - 1]) {
      TrimEndSpec(s[..|s| - 1]);
    }
  }

  /** `s[lo..hi]` is what stripping `s` leaves: only spaces lie outside it,
      and a non-empty middle neither starts nor ends with a space. */
  ghost predicate StripsTo(s: string, lo: int, hi: int) {
    && 0 <= lo <= hi <= |s|
    && (forall i :: 0 <= i < lo ==> IsSpace(s[i]))
    && (forall i :: hi <= i < |s| ==> IsSpace(s[i]))
    && (lo < hi ==> !IsSpace(s[lo]) && !IsSpace(s[hi - 1]))
  }

  /** `strip()` cuts the input where the stripping contract says, and leaves
      nothing exactly when the input is all whitespace. */
  lemma TrimSpec(s: string)
    ensures exists lo, hi :: StripsTo(s, lo, hi) && Trim(s) == s[lo..hi]
    ensures Trim(s) == [] <==> forall i :: 0 <= i < |s| ==> IsSpace(s[i])
  {
    var t := TrimStart(s);
    TrimStartSpec(s);
    TrimEndSpec(t);
    var r := TrimEnd(t);
    var lo := |s| - |t|;
    assert r == s[lo..lo + |r|];
    assert StripsTo(s, lo, lo + |r|);
  }

  /** The stripping contract determines the result: any two cuts that meet
      it leave the same middle. */
  lemma {:induction false} StripIsUnique(s: string, lo: int, hi: int, lo': int, hi': int)
    requires StripsTo(s, lo, hi) && StripsTo(s, lo', hi')
    ensures s[lo..hi] == s[lo'..hi']
  {
    if forall i :: 0 <= i < |s| ==> IsSpace(s[i]) {
      assert lo == hi && lo' == hi';
    } else {
      var k :| 0 <= k < |s| && !IsSpace(s[k]);
      assert lo <= k < hi && lo' <= k < hi';
      assert lo == lo' && hi == hi';
    }
  }

  /** A string with no space at either end is its own stripping. */
  lemma {:induction false} TrimUnpadded(s: string)
    requires s == [] || (!IsSpace(s[0]) && !IsSpace(s[|s| - 1]))
    ensures Trim(s) == s
  {
    assert StripsTo(s, 0, |s|);
    TrimSpec(s);
    var lo, hi :| StripsTo(s, lo, hi) && Trim(s) == s[lo..hi];
    StripIsUnique(s, 0, |s|, lo, hi);
  }

  /** Stripping removes exactly the whitespace padding around an unpadded
      middle. */
  lemma {:induction false} TrimPadded(p: string, s: string, q: string)
    requires forall i :: 0 <= i < |p| ==> IsSpace(p[i])
    requires forall i :: 0 <= i < |q| ==> IsSpace(q[i])
    requires s != [] && !IsSpace(s[0]) && !IsSpace(s[|s| - 1])
    ensures Trim(p + s + q) == s
  {
    var t := p + s + q;
    assert StripsTo(t, |p|, |p| + |s|);
    TrimSpec(t);
    var lo, hi :| StripsTo(t, lo, hi) && Trim(t) == t[lo..hi];
    StripIsUnique(t, |p|, |p| + |s|, lo, hi);
    assert t[|p|..|p| + |s|] == s;
  }

  /** Stripping twice changes nothing more. */
  lemma {:induction false} TrimIdempotent(s: string)
    ensures Trim(Trim(s)) == Trim(s)
  {
    var r := Trim(s);
    TrimSpec(s);
    var lo, hi :| StripsTo(s, lo, hi) && r == s[lo..hi];
    TrimUnpadded(r);
  }

  /** Python's `str.lower()` on one character: ASCII capitals, and the Kelvin
      sign, whose lower case is the ASCII letter `k`. */
  function LowerChar(c: char): char {
    if 'A' <= c <= 'Z' then (c as int + 32) as char
    else if c == '\U{212A}' then 'k'
    else c
  }

  /** The ASCII capitals and the Kelvin sign of Python's `s.lower()`, mapped
      character by character. */
  function Lower(s: string): string {
    seq(|s|, i requires 0 <= i < |s| => LowerChar(s[i]))
  }

  /** Lowering is idempotent, and a lowered string has no ASCII capital left. */
  lemma LowerIsIdempotent(s: string)
    ensures Lower(Lower(s)) == Lower(s)
    ensures forall i :: 0 <= i < |s| ==> !('A' <= Lower(s)[i] <= 'Z')
  {
  }

  /** Lowering works piecewise on a concatenation. */
  lemma LowerConcat(a: string, b: string)
    ensures Lower(a + b) == Lower(a) + Lower(b)
  {
  }

  /** `w` sits in `t` starting at index `i`. */
  ghost predicate OccursAt(w: string, t: string, i: int) {
    0 <= i && i + |w| <= |t| && t[i..i + |w|] == w
  }

  /** The meaning of Python's `w in t` for strings: some slice of `t` is `w`. */
  ghost predicate Contains(t: string, w: string) {
    exists i :: OccursAt(w, t, i)
  }

  /** Python's `w in t` as a left-to-right scan of the start positions. */
  function Occurs(w: string, t: string): bool
    decreases |t|
  {
    if w <= t then true
    else if |t| == 0 then false
    else Occurs(w, t[1..])
  }

  /** The scan finds `w` exactly when `w` is a substring of `t`. */
  lemma {:induction false} OccursIffContains(w: string, t: string)
    ensures Occurs(w, t) <==> Contains(t, w)
    decreases |t|
  {
    if w <= t {
      assert OccursAt(w, t, 0);
    } else {
      assert !OccursAt(w, t, 0);
      if |t| > 0 {
        OccursIffContains(w, t[1..]);
        forall i | OccursAt(w, t[1..], i) ensures OccursAt(w, t, i + 1) {
          assert t[1..][i..i + |w|] == t[i + 1..i + 1 + |w|];
        }
        forall i | OccursAt(w, t, i) ensures OccursAt(w, t[1..], i - 1) {
          assert i != 0;
          assert t[1..][i - 1..i - 1 + |w|] == t[i..i + |w|];
        }
      }
    }
  }

  /** A word with a character the text lacks is not a substring of it. */
  lemma AbsentCharBlocks(w: string, t: string, j: nat)
    requires j < |w| && w[j] !in t
    ensures !Contains(t, w)
  {
    forall i ensures !OccursAt(w, t, i) {
      if 0 <= i && i + |w| <= |t| {
        assert t[i..i + |w|][j] == t[i + j];
      }
    }
  }

  /** A substring stays a substring when text is added on either side. */
  lemma {:induction false} ContainsInContext(p: string, t: string, q: string, w: string)
    requires Contains(t, w)
    ensures Contains(p + t + q, w)
  {
    var i :| OccursAt(w, t, i);
    assert (p + t + q)[|p| + i..|p| + i + |w|] == t[i..i + |w|];
    assert OccursAt(w, p + t + q, |p| + i);
  }
}
