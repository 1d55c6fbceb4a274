/**
 * The JavaScript string operations the core relies on, on strings as sequences of characters:
 * `indexOf`, `includes`, `split(sep, 2)`, `split(c)`, `join(c)`, `trim()` and `toLowerCase()`.
 */
module JsString {
  import opened Wrappers

  /** `sub` occurs in `s` starting at index `i`. */
  predicate OccursAt(s: string, sub: string, i: int)
  {
    0 <= i && i + |sub| <= |s| && s[i..i + |sub|] == sub
  }

  /** `s.indexOf(sub, from)`: the first index at or after `from` where `sub` occurs. */
  function IndexOfFrom(s: string, sub: string, from: nat): (r: Option<nat>)
    requires from <= |s|
    ensures r.Some? ==> from <= r.value && OccursAt(s, sub, r.value)
    ensures forall i :: from <= i && (r.None? || i < r.value) ==> !OccursAt(s, sub, i)
    decreases |s| - from
  {
    if |s| < from + |sub| then None
    else if s[from..from + |sub|] == sub then Some(from)
    else IndexOfFrom(s, sub, from + 1)
  }

  /** `s.includes(sub)`. */
  function Includes(s: string, sub: string): (b: bool)
    ensures b <==> exists i :: OccursAt(s, sub, i)
  {
    IndexOfFrom(s, sub, 0).Some?
  }

  /** The piece of `s` from `from` to `to` ends at the next occurrence of `sep`, or at the end of `s`. */
  ghost predicate PieceEnds(s: string, sep: string, from: int, to: int)
  {
    && 0 <= from <= to <= |s|
    && (to == |s| || OccursAt(s, sep, to))
    && forall k :: from <= k < to ==> !OccursAt(s, sep, k)
  }

  /**
   * `a` is the text of `s` before the first occurrence of `sep`, and `b` the text after it up to
   * the next occurrence of `sep` (or to the end): the two pieces `s.split(sep, 2)` keeps.
   */
  ghost predicate FirstTwoPieces(s: string, sep: string, a: string, b: string)
  {
    var p := |a| + |sep|;
    && p + |b| <= |s|
    && s[..|a|] == a
    && OccursAt(s, sep, |a|)
    && (forall k :: 0 <= k < |a| ==> !OccursAt(s, sep, k))
    && s[p..p + |b|] == b
    && PieceEnds(s, sep, p, p + |b|)
  }

  /** Where the piece starting at `from` ends: the next occurrence of `sep`, or the end of `s`. */
  function PieceEnd(s: string, sep: string, from: nat): (to: nat)
    requires from <= |s|
    ensures PieceEnds(s, sep, from, to)
  {
    match IndexOfFrom(s, sep, from)
    case None => |s|
    case Some(j) => j
  }

  /**
   * `s.split(sep, 2)` for a non-empty separator: one piece (the whole string) when `sep` does
   * not occur, otherwise the first two pieces; the remaining pieces are discarded.
   */
  function SplitLimit2(s: string, sep: string): (pieces: seq<string>)
    requires |sep| > 0
    ensures |pieces| == 1 || |pieces| == 2
    ensures |pieces| == 1 <==> !Includes(s, sep)
    ensures |pieces| == 1 ==> pieces[0] == s
  {
    match IndexOfFrom(s, sep, 0)
    case None => [s]
    case Some(i) =>
      var p := i + |sep|;
      [s[..i], s[p..PieceEnd(s, sep, p)]]
  }

  /** The two pieces `split(sep, 2)` returns are the text before the first separator and the text
   * from there up to the next one. */
  lemma SplitLimit2Pieces(s: string, sep: string)
    requires |sep| > 0 && Includes(s, sep)
    ensures FirstTwoPieces(s, sep, SplitLimit2(s, sep)[0], SplitLimit2(s, sep)[1])
  {
    var i := IndexOfFrom(s, sep, 0).value;
    var q := PieceEnd(s, sep, i + |sep|);
    var pieces := SplitLimit2(s, sep);
    assert pieces == [s[..i], s[i + |sep|..q]];
    PiecesBetween(s, sep, i, q, pieces[0], pieces[1]);
  }

  /** The pieces around the first separator, at `i`, up to the end `q` of the second piece. */
  lemma PiecesBetween(s: string, sep: string, i: nat, q: nat, a: string, b: string)
    requires OccursAt(s, sep, i) && forall k :: 0 <= k < i ==> !OccursAt(s, sep, k)
    requires PieceEnds(s, sep, i + |sep|, q)
    requires a == s[..i] && b == s[i + |sep|..q]
    ensures FirstTwoPieces(s, sep, a, b)
  {
    assert |s[..i]| == i;
  }

  /** The two pieces `split(sep, 2)` keeps are determined by the string and the separator. */
  lemma FirstTwoPiecesUnique(s: string, sep: string, a: string, b: string, a': string, b': string)
    requires |sep| > 0
    requires FirstTwoPieces(s, sep, a, b) && FirstTwoPieces(s, sep, a', b')
    ensures a == a' && b == b'
  {
    if |a| != |a'| {
      assert false;
    }
    if |b| != |b'| {
      assert false;
    }
  }

  /**
   * `parts.join([c])`: the pieces with one separator between each two, so the result starts with
   * the first piece, followed by the separator when there is a second.
   */
  function Join(parts: seq<string>, c: char): (s: string)
    ensures |s| >= |parts| - 1
    ensures |parts| > 0 ==> parts[0] <= s
    ensures |parts| > 1 ==> |parts[0]| < |s| && s[|parts[0]|] == c
  {
    if |parts| == 0 then []
    else if |parts| == 1 then parts[0]
    else parts[0] + [c] + Join(parts[1..], c)
  }

  /** `s.split(c)` for a one-character separator: every piece, in order. */
  function Split(s: string, c: char): (parts: seq<string>)
    ensures |parts| >= 1
    ensures forall i :: 0 <= i < |parts| ==> c !in parts[i]
    decreases |s|
  {
    if |s| == 0 then [[]]
    else
      var rest := Split(s[1..], c);
      if s[0] == c then [[]] + rest
      else [[s[0]] + rest[0]] + rest[1..]
  }

  /** Joining the pieces of a split with the separator gives back the string. */
  lemma {:induction false} JoinSplit(s: string, c: char)
    ensures Join(Split(s, c), c) == s
    decreases |s|
  {
    if |s| > 0 {
      var rest := Split(s[1..], c);
      JoinSplit(s[1..], c);
      if s[0] == c {
        assert ([[]] + rest)[1..] == rest;
      } else if |rest| == 1 {
        assert Split(s, c) == [[s[0]] + rest[0]];
        assert [s[0]] + s[1..] == s;
      } else {
        var parts := Split(s, c);
        assert parts[1..] == rest[1..];
        assert Join(rest, c) == rest[0] + [c] + Join(rest[1..], c);
        assert [s[0]] + s[1..] == s;
      }
    }
  }

  /** A string without the separator splits into itself. */
  lemma {:induction false} SplitWithoutSeparator(p: string, c: char)
    requires c !in p
    ensures Split(p, c) == [p]
    decreases |p|
  {
    if |p| > 0 {
      SplitWithoutSeparator(p[1..], c);
      assert [p[0]] + p[1..] == p;
    }
  }

  /** Splitting `p + [c] + t`, where `p` has no `c`, gives `p` followed by the pieces of `t`. */
  lemma {:induction false} SplitAfterPiece(p: string, c: char, t: string)
    requires c !in p
    ensures Split(p + [c] + t, c) == [p] + Split(t, c)
    decreases |p|
  {
    var s := p + [c] + t;
    if |p| == 0 {
      assert s[1..] == t;
    } else {
      assert s[1..] == p[1..] + [c] + t;
      SplitAfterPiece(p[1..], c, t);
      assert [p[0]] + p[1..] == p;
    }
  }

  /** Splitting a join of separator-free pieces gives back the pieces. */
  lemma {:induction false} SplitJoin(parts: seq<string>, c: char)
    requires |parts| >= 1
    requires forall i :: 0 <= i < |parts| ==> c !in parts[i]
    ensures Split(Join(parts, c), c) == parts
    decreases |parts|
  {
    if |parts| == 1 {
      SplitWithoutSeparator(parts[0], c);
    } else {
      SplitJoin(parts[1..], c);
      SplitAfterPiece(parts[0], c, Join(parts[1..], c));
      assert [parts[0]] + parts[1..] == parts;
    }
  }

  /** The characters `String.prototype.trim` removes: WhiteSpace and LineTerminator of ECMAScript. */
  const WhiteSpaceChars: set<char> := {
    '\t', '\n', '\U{000B}', '\U{000C}', '\r', ' ', '\U{00A0}', '\U{1680}',
    '\U{2000}', '\U{2001}', '\U{2002}', '\U{2003}', '\U{2004}', '\U{2005}', '\U{2006}', '\U{2007}',
    '\U{2008}', '\U{2009}', '\U{200A}', '\U{2028}', '\U{2029}', '\U{202F}', '\U{205F}', '\U{3000}',
    '\U{FEFF}'}

  predicate IsWhiteSpace(c: char)
  {
    c in WhiteSpaceChars
  }

  ghost predicate AllWhiteSpace(s: string)
  {
    forall i :: 0 <= i < |s| ==> IsWhiteSpace(s[i])
  }

  /** `s` starts and ends with a character that `trim` keeps. */
  ghost predicate IsTrimmed(s: string)
  {
    s == [] || (!IsWhiteSpace(s[0]) && !IsWhiteSpace(s[|s| - 1]))
  }

  /** The number of white-space characters `s` starts with. */
  function LeadingWhiteSpace(s: string): (k: nat)
    ensures k <= |s|
  {
    if |s| > 0 && IsWhiteSpace(s[0]) then 1 + LeadingWhiteSpace(s[1..]) else 0
  }

  /** The number of white-space characters `s` ends with. */
  function TrailingWhiteSpace(s: string): (k: nat)
    ensures k <= |s|
  {
    if |s| > 0 && IsWhiteSpace(s[|s| - 1]) then 1 + TrailingWhiteSpace(s[..|s| - 1]) else 0
  }

  lemma {:induction false} LeadingWhiteSpaceSpec(s: string)
    ensures AllWhiteSpace(s[..LeadingWhiteSpace(s)])
    ensures LeadingWhiteSpace(s) < |s| ==> !IsWhiteSpace(s[LeadingWhiteSpace(s)])
  {
    if |s| > 0 && IsWhiteSpace(s[0]) {
      var k := LeadingWhiteSpace(s[1..]);
      LeadingWhiteSpaceSpec(s[1..]);
      forall i | 0 <= i < k + 1
        ensures IsWhiteSpace(s[i])
      {
        if i > 0 {
          assert s[i] == s[1..][..k][i - 1];
        }
      }
      if k + 1 < |s| {
        assert s[k + 1] == s[1..][k];
      }
    }
  }

  lemma {:induction false} TrailingWhiteSpaceSpec(s: string)
    ensures AllWhiteSpace(s[|s| - TrailingWhiteSpace(s)..])
    ensures TrailingWhiteSpace(s) < |s| ==> !IsWhiteSpace(s[|s| - TrailingWhiteSpace(s) - 1])
  {
    if |s| > 0 && IsWhiteSpace(s[|s| - 1]) {
      var front := s[..|s| - 1];
      var k := TrailingWhiteSpace(front);
      TrailingWhiteSpaceSpec(front);
      forall i | |s| - k - 1 <= i < |s|
        ensures IsWhiteSpace(s[i])
      {
        if i < |s| - 1 {
          assert s[i] == front[|front| - k..][i - (|front| - k)];
        }
      }
      if k + 1 < |s| {
        assert s[|s| - k - 2] == front[|front| - k - 1];
      }
    }
  }

  /** `s.trimStart()`. */
  function TrimStart(s: string): string
  {
    s[LeadingWhiteSpace(s)..]
  }

  /** `s.trimEnd()`. */
  function TrimEnd(s: string): string
  {
    s[..|s| - TrailingWhiteSpace(s)]
  }

  /**
   * `s.trim()`: empty exactly when `s` is all white space, and otherwise starting and ending with
   * a character `trim` keeps.
   */
  function Trim(s: string): (r: string)
    ensures IsTrimmed(r)
    ensures r == [] <==> AllWhiteSpace(s)
  {
    TrimEnds(s);
    TrimEnd(TrimStart(s))
  }

  lemma TrimEnds(s: string)
    ensures IsTrimmed(TrimEnd(TrimStart(s)))
    ensures TrimEnd(TrimStart(s)) == [] <==> AllWhiteSpace(s)
  {
    var k := LeadingWhiteSpace(s);
    var t := s[k..];
    var m := TrailingWhiteSpace(t);
    LeadingWhiteSpaceSpec(s);
    TrailingWhiteSpaceSpec(t);
    if m < |t| {
      assert t[0] == s[k];
    } else {
      assert t[|t| - m..] == t;
      assert s[..k] + t == s;
      WhiteSpaceConcat(s[..k], t);
    }
  }

  /** `s.trim()` is the slice of `s` left once the white space at both ends is removed. */
  lemma TrimIsSlice(s: string)
    ensures LeadingWhiteSpace(s) + |Trim(s)| <= |s|
    ensures Trim(s) == s[LeadingWhiteSpace(s)..LeadingWhiteSpace(s) + |Trim(s)|]
    ensures AllWhiteSpace(s[..LeadingWhiteSpace(s)])
    ensures AllWhiteSpace(s[LeadingWhiteSpace(s) + |Trim(s)|..])
  {
    var k := LeadingWhiteSpace(s);
    var t := s[k..];
    var m := TrailingWhiteSpace(t);
    LeadingWhiteSpaceSpec(s);
    TrailingWhiteSpaceSpec(t);
    TrimmedSlice(s, k, t, m, Trim(s));
  }

  /**
   * The part `r` of `s` left once `k` white-space characters are dropped from the front, leaving
   * `t`, and `m` from the back of `t` is a slice of `s`, between two all-white-space ends.
   */
  lemma TrimmedSlice(s: string, k: nat, t: string, m: nat, r: string)
    requires k <= |s| && t == s[k..] && m <= |t| && r == t[..|t| - m]
    requires AllWhiteSpace(s[..k]) && AllWhiteSpace(t[|t| - m..])
    ensures k + |r| <= |s| && r == s[k..k + |r|]
    ensures AllWhiteSpace(s[..k]) && AllWhiteSpace(s[k + |r|..])
  {
    assert s[k + |r|..] == t[|t| - m..];
  }

  lemma WhiteSpaceConcat(a: string, b: string)
    requires AllWhiteSpace(a) && AllWhiteSpace(b)
    ensures AllWhiteSpace(a + b)
  {
  }

  /** A string that is already trimmed is left as it is. */
  lemma TrimOfTrimmed(s: string)
    requires IsTrimmed(s)
    ensures Trim(s) == s
  {
    assert LeadingWhiteSpace(s) == 0;
    assert TrailingWhiteSpace(s) == 0;
  }

  /** Trimming twice is trimming once. */
  lemma TrimIdempotent(s: string)
    ensures Trim(Trim(s)) == Trim(s)
  {
    TrimOfTrimmed(Trim(s));
  }

  /** `c.toLowerCase()` for the ASCII letters. */
  function LowerChar(c: char): char
  {
    if 'A' <= c <= 'Z' then (c as int + 32) as char else c
  }

  /** `s.toLowerCase()` on ASCII letters: same length, every upper-case ASCII letter lowered. */
  function ToLower(s: string): (r: string)
    ensures |r| == |s|
    ensures forall i :: 0 <= i < |s| ==> r[i] == LowerChar(s[i])
  {
    seq(|s|, i requires 0 <= i < |s| => LowerChar(s[i]))
  }

  predicate IsAsciiUpper(c: char)
  {
    'A' <= c <= 'Z'
  }

  /** `a` and `b` are the same letter, one of them an ASCII capital and the other its small letter. */
  predicate CaseVariants(a: char, b: char)
  {
    a == b || (IsAsciiUpper(a) && b as int == a as int + 32) || (IsAsciiUpper(b) && a as int == b as int + 32)
  }

  /** Two strings equal up to the case of their ASCII letters. */
  predicate EqualIgnoringAsciiCase(s: string, t: string)
  {
    |s| == |t| && forall i :: 0 <= i < |s| ==> CaseVariants(s[i], t[i])
  }

  /**
   * Lowering is case-insensitive comparison: two strings lower to the same string exactly when
   * they differ only in the case of ASCII letters.
   */
  lemma ToLowerIgnoresCase(s: string, t: string)
    ensures ToLower(s) == ToLower(t) <==> EqualIgnoringAsciiCase(s, t)
  {
    if ToLower(s) == ToLower(t) {
      forall i | 0 <= i < |s|
        ensures CaseVariants(s[i], t[i])
      {
        assert LowerChar(s[i]) == ToLower(s)[i] == ToLower(t)[i] == LowerChar(t[i]);
      }
    }
    if EqualIgnoringAsciiCase(s, t) {
      forall i | 0 <= i < |s|
        ensures ToLower(s)[i] == ToLower(t)[i]
      {
        assert CaseVariants(s[i], t[i]);
      }
    }
  }

  /** Lowering leaves no ASCII capital, keeps every other character, and lowering again changes nothing. */
  lemma ToLowerIdempotent(s: string)
    ensures forall i :: 0 <= i < |s| ==> !IsAsciiUpper(ToLower(s)[i])
    ensures forall i :: 0 <= i < |s| && !IsAsciiUpper(s[i]) ==> ToLower(s)[i] == s[i]
    ensures ToLower(ToLower(s)) == ToLower(s)
  {
    var r := ToLower(s);
    forall i | 0 <= i < |s|
      ensures ToLower(r)[i] == r[i]
    {
      assert !IsAsciiUpper(r[i]);
    }
  }
}
