/** The few Python string operations the scripts rely on, written out over
    `seq<char>`: `str.isspace`, `strip`/`lstrip`, `startswith`, the `in`
    operator, `str.replace`, ASCII `upper`, `' '.join`, and the literal,
    case-insensitive search and substitution that `re.escape` plus
    `re.IGNORECASE` give. */
module Text {

  /** Python's `str.isspace()` for one character (the characters that
      `strip()` removes and that `\s` matches). */
  predicate IsSpace(c: char) {
    c == ' ' || ('\t' <= c <= '\r') || ('\U{1c}' <= c <= '\U{1f}')
    || c == '\U{85}' || c == '\U{a0}' || c == '\U{1680}'
    || ('\U{2000}' <= c <= '\U{200a}') || c == '\U{2028}' || c == '\U{2029}'
    || c == '\U{202f}' || c == '\U{205f}' || c == '\U{3000}'
  }

  /** The characters at which Python's `str.splitlines()` breaks a line. */
  predicate IsLineBreak(c: char) {
    ('\n' <= c <= '\r') || ('\U{1c}' <= c <= '\U{1e}')
    || c == '\U{85}' || c == '\U{2028}' || c == '\U{2029}'
  }

  /** `s.lstrip()`: `s` without its leading whitespace. */
  function LStrip(s: string): string {
    if |s| > 0 && IsSpace(s[0]) then LStrip(s[1..]) else s
  }

  /** What `lstrip` leaves is the suffix of `s` after a run of whitespace,
      and it does not start with whitespace. */
  lemma {:induction false} LStripSpec(s: string)
    ensures var r := LStrip(s);
      && |r| <= |s| && r == s[|s| - |r|..]
      && (forall i :: 0 <= i < |s| - |r| ==> IsSpace(s[i]))
      && (r != [] ==> !IsSpace(r[0]))
  {
    if |s| > 0 && IsSpace(s[0]) {
      LStripSpec(s[1..]);
      var r := LStrip(s);
      assert s[1..][|s| - 1 - |r|..] == s[|s| - |r|..];
      forall i | 1 <= i < |s| - |r| ensures IsSpace(s[i]) {
        assert s[1..][i - 1] == s[i];
      }
    }
  }

  /** `s.rstrip()`: `s` without its trailing whitespace. */
  function RStrip(s: string): string {
    if |s| > 0 && IsSpace(s[|s| - 1]) then RStrip(s[..|s| - 1]) else s
  }

  /** What `rstrip` leaves is the prefix of `s` before a run of whitespace,
      and it does not end in whitespace. */
  lemma {:induction false} RStripSpec(s: string)
    ensures var r := RStrip(s);
      && |r| <= |s| && r == s[..|r|]
      && (forall i :: |r| <= i < |s| ==> IsSpace(s[i]))
      && (r != [] ==> !IsSpace(r[|r| - 1]))
  {
    if |s| > 0 && IsSpace(s[|s| - 1]) {
      var t := s[..|s| - 1];
      RStripSpec(t);
      var r := RStrip(s);
      assert t[..|r|] == s[..|r|];
      forall i | |r| <= i < |s| - 1 ensures IsSpace(s[i]) {
        assert t[i] == s[i];
      }
    }
  }

  /** `s.strip()`. */
  function Strip(s: string): string {
    RStrip(LStrip(s))
  }

  /** `s.lstrip(c)` for a single character `c`. */
  function LStripChar(s: string, c: char): string {
    if |s| > 0 && s[0] == c then LStripChar(s[1..], c) else s
  }

  /** What `lstrip(c)` leaves is the suffix of `s` after a run of `c`, and
      it does not start with `c`. */
  lemma {:induction false} LStripCharSpec(s: string, c: char)
    ensures var r := LStripChar(s, c);
      && |r| <= |s| && r == s[|s| - |r|..]
      && (forall i :: 0 <= i < |s| - |r| ==> s[i] == c)
      && (r != [] ==> r[0] != c)
  {
    if |s| > 0 && s[0] == c {
      LStripCharSpec(s[1..], c);
      var r := LStripChar(s, c);
      assert s[1..][|s| - 1 - |r|..] == s[|s| - |r|..];
      forall i | 1 <= i < |s| - |r| ensures s[i] == c {
        assert s[1..][i - 1] == s[i];
      }
    }
  }

  /** `s.startswith(p)`. */
  predicate StartsWith(s: string, p: string) {
    |p| <= |s| && s[..|p|] == p
  }

  /** A concatenation starts with its first part. */
  lemma StartsWithConcat(a: string, b: string)
    ensures StartsWith(a + b, a)
  {
    assert (a + b)[..|a|] == a;
  }

  /** A prefix of a prefix is a prefix. */
  lemma StartsWithTrans(s: string, p: string, q: string)
    requires StartsWith(s, p) && StartsWith(p, q)
    ensures StartsWith(s, q)
  {
    assert s[..|q|] == s[..|p|][..|q|];
  }

  /** `p in s`: `p` occurs in `s` at some position. */
  predicate Contains(s: string, p: string)
    decreases |s|
  {
    StartsWith(s, p) || (|s| > 0 && Contains(s[1..], p))
  }

  /** `s.replace(p, r)`: every leftmost non-overlapping occurrence of `p`
      replaced by `r`; an empty `p` puts `r` around every character. */
  function ReplaceAll(s: string, p: string, r: string): string
    decreases |s|
  {
    if p == [] then Interleave(s, r)
    else if s == [] then []
    else if StartsWith(s, p) then r + ReplaceAll(s[|p|..], p, r)
    else [s[0]] + ReplaceAll(s[1..], p, r)
  }

  /** What replacing the empty string does: `r` before every character of
      `s` and once more at the end. */
  function Interleave(s: string, r: string): string {
    if s == [] then r else r + [s[0]] + Interleave(s[1..], r)
  }

  function UpperChar(c: char): char {
    if 'a' <= c <= 'z' then (c as int - 32) as char else c
  }

  function LowerChar(c: char): char {
    if 'A' <= c <= 'Z' then (c as int + 32) as char else c
  }

  /** `s.upper()` on ASCII letters. */
  function Upper(s: string): (r: string)
    ensures |r| == |s|
    ensures forall i :: 0 <= i < |s| ==> r[i] == UpperChar(s[i])
  {
    seq(|s|, i requires 0 <= i < |s| => UpperChar(s[i]))
  }

  /** Equality up to ASCII case, as `re.IGNORECASE` compares literals. */
  predicate EqualsIgnoreCase(a: string, b: string) {
    |a| == |b| && forall i :: 0 <= i < |a| ==> LowerChar(a[i]) == LowerChar(b[i])
  }

  predicate StartsWithIgnoreCase(s: string, p: string) {
    |p| <= |s| && EqualsIgnoreCase(s[..|p|], p)
  }

  /** `re.search(re.escape(p), s, re.IGNORECASE)` finds a match. */
  predicate ContainsIgnoreCase(s: string, p: string)
    decreases |s|
  {
    StartsWithIgnoreCase(s, p) || (|s| > 0 && ContainsIgnoreCase(s[1..], p))
  }

  /** `re.sub(re.escape(p), r, s, flags=re.IGNORECASE)` for a replacement
      `r` without backslashes: every leftmost non-overlapping match of `p`,
      in any ASCII case, replaced by `r`. */
  function ReplaceAllIgnoreCase(s: string, p: string, r: string): string
    decreases |s|
  {
    if p == [] then Interleave(s, r)
    else if s == [] then []
    else if StartsWithIgnoreCase(s, p) then r + ReplaceAllIgnoreCase(s[|p|..], p, r)
    else [s[0]] + ReplaceAllIgnoreCase(s[1..], p, r)
  }

  /** `sep.join(xs)`. */
  function Join(sep: string, xs: seq<string>): string {
    if xs == [] then ""
    else if |xs| == 1 then xs[0]
    else xs[0] + sep + Join(sep, xs[1..])
  }

  /** `"".join(xs)`. */
  function Concat(xs: seq<string>): string {
    if xs == [] then "" else xs[0] + Concat(xs[1..])
  }

  lemma ConcatAppend(xs: seq<string>, ys: seq<string>)
    ensures Concat(xs + ys) == Concat(xs) + Concat(ys)
  {
    if xs != [] {
      assert (xs + ys)[1..] == xs[1..] + ys;
      ConcatAppend(xs[1..], ys);
    } else {
      assert xs + ys == ys;
    }
  }

  /** An occurrence of `p` at offset `i` of `s` makes `p in s` true. */
  lemma {:induction false} ContainsAt(s: string, p: string, i: nat)
    requires i <= |s| && StartsWith(s[i..], p)
    ensures Contains(s, p)
  {
    if i > 0 {
      assert s[1..][i - 1..] == s[i..];
      ContainsAt(s[1..], p, i - 1);
    }
  }

  /** An occurrence of `p` in `s` is still one in `q + s`. */
  lemma {:induction false} ContainsAfterPrefix(q: string, s: string, p: string)
    requires Contains(s, p)
    ensures Contains(q + s, p)
  {
    if q != [] {
      assert (q + s)[1..] == q[1..] + s;
      ContainsAfterPrefix(q[1..], s, p);
    } else {
      assert q + s == s;
    }
  }

  /** A one-character pattern occurs exactly when the character does. */
  lemma {:induction false} ContainsChar(s: string, c: char)
    ensures Contains(s, [c]) <==> c in s
  {
    if s != [] {
      ContainsChar(s[1..], c);
      assert s == [s[0]] + s[1..];
    }
  }

  /** `s.replace(p, r)` leaves `s` alone when `p` does not occur in it. */
  lemma {:induction false} ReplaceAllAbsent(s: string, p: string, r: string)
    requires p != [] && !Contains(s, p)
    ensures ReplaceAll(s, p, r) == s
  {
    if s != [] {
      ReplaceAllAbsent(s[1..], p, r);
    }
  }

  /** Replacing a string by itself changes nothing. */
  lemma {:induction false} ReplaceAllSelf(s: string, p: string)
    ensures ReplaceAll(s, p, p) == s
  {
    if p == [] {
      InterleaveEmpty(s);
    } else if s != [] {
      if StartsWith(s, p) {
        ReplaceAllSelf(s[|p|..], p);
        assert s == p + s[|p|..];
      } else {
        ReplaceAllSelf(s[1..], p);
      }
    }
  }

  lemma {:induction false} InterleaveEmpty(s: string)
    ensures Interleave(s, "") == s
  {
    if s != [] {
      InterleaveEmpty(s[1..]);
    }
  }

  /** Replacing one character by one character is a pointwise map: the
      length is kept and every other character keeps its position. */
  lemma {:induction false} ReplaceAllChar(s: string, c: char, d: char)
    ensures |ReplaceAll(s, [c], [d])| == |s|
    ensures forall k :: 0 <= k < |s| ==>
              ReplaceAll(s, [c], [d])[k] == (if s[k] == c then d else s[k])
  {
    if s != [] {
      ReplaceAllChar(s[1..], c, d);
      var rest := ReplaceAll(s[1..], [c], [d]);
      assert StartsWith(s, [c]) <==> s[0] == c;
      assert ReplaceAll(s, [c], [d]) == [if s[0] == c then d else s[0]] + rest;
    }
  }

  /** The case-insensitive substitution leaves `s` alone when the pattern
      does not occur in it in any case. */
  lemma {:induction false} ReplaceAllIgnoreCaseAbsent(s: string, p: string, r: string)
    requires p != [] && !ContainsIgnoreCase(s, p)
    ensures ReplaceAllIgnoreCase(s, p, r) == s
  {
    if s != [] {
      ReplaceAllIgnoreCaseAbsent(s[1..], p, r);
    }
  }

  /** A string whose first character is not whitespace keeps that
      character first once stripped. */
  lemma StripKeepsFirst(s: string)
    requires s != [] && !IsSpace(s[0])
    ensures Strip(s) != [] && Strip(s)[0] == s[0]
  {
    assert LStrip(s) == s;
    RStripSpec(s);
  }
}
