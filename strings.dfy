/** String operations the engine relies on, stated the way Python's `str`
    methods behave on them: `replace`, `in`, `join`, `split`, `strip`,
    `upper`, `title` and `str(int)`. Strings are sequences of characters;
    case mapping is ASCII only. */
module Strings {

  /** A value that may be absent, like Python's `None`. */
  datatype Option<T> = None | Some(value: T)

  /** Concatenation is associative. */
  lemma AppendAssoc(x: string, y: string, z: string)
    ensures x + y + z == x + (y + z)
  {
  }

  /** `p` occurs in `s` starting at index `i`. */
  predicate OccursAt(s: string, p: string, i: int)
  {
    0 <= i && i + |p| <= |s| && s[i..i + |p|] == p
  }

  /** Python's `s.endswith(t)`. */
  predicate EndsWith(s: string, t: string)
  {
    |t| <= |s| && s[|s| - |t|..] == t
  }

  /** Python's `p in s`. */
  function Contains(s: string, p: string): (b: bool)
    ensures b <==> exists i :: OccursAt(s, p, i)
  {
    if |s| < |p| then false
    else if s[..|p|] == p then (assert OccursAt(s, p, 0); true)
    else
      var b := Contains(s[1..], p);
      assert forall i :: OccursAt(s[1..], p, i) ==> OccursAt(s, p, i + 1);
      assert forall i :: OccursAt(s, p, i) && i > 0 ==> OccursAt(s[1..], p, i - 1);
      b
  }

  /** Python's `s.replace(p, r)` for a non-empty pattern: every occurrence,
      leftmost first and without overlap, is replaced by `r`. */
  function ReplaceAll(s: string, p: string, r: string): string
    requires |p| > 0
  {
    if |s| < |p| then s
    else if s[..|p|] == p then r + ReplaceAll(s[|p|..], p, r)
    else [s[0]] + ReplaceAll(s[1..], p, r)
  }

  /** An occurrence in the tail of `s` is an occurrence in `s`, one further on. */
  lemma OccursInTail(s: string, p: string, j: nat)
    requires |s| > 0
    ensures OccursAt(s[1..], p, j) <==> OccursAt(s, p, j + 1)
  {
    if j + 1 + |p| <= |s| {
      assert s[1..][j..j + |p|] == s[j + 1..j + 1 + |p|];
    }
  }

  /** Replacing a pattern that does not occur changes nothing. */
  lemma {:induction false} ReplaceAbsent(s: string, p: string, r: string)
    requires |p| > 0 && !Contains(s, p)
    ensures ReplaceAll(s, p, r) == s
  {
    if |s| >= |p| {
      assert !OccursAt(s, p, 0);
      forall j: nat ensures !OccursAt(s[1..], p, j) {
        OccursInTail(s, p, j);
      }
      ReplaceAbsent(s[1..], p, r);
    }
  }

  /** Where the pattern does not start, the first character is kept. */
  lemma ReplaceKeepsHead(s: string, p: string, r: string)
    requires |p| > 0 && |s| >= |p| && !OccursAt(s, p, 0)
    ensures ReplaceAll(s, p, r) == [s[0]] + ReplaceAll(s[1..], p, r)
  {
    assert s[0..|p|] == s[..|p|];
  }

  /** Dropping the first character moves a first occurrence one place left. */
  lemma FirstShift(s: string, p: string, i: nat)
    requires 0 < i && OccursAt(s, p, i) && forall k :: 0 <= k < i ==> !OccursAt(s, p, k)
    ensures OccursAt(s[1..], p, i - 1) && forall k :: 0 <= k < i - 1 ==> !OccursAt(s[1..], p, k)
  {
    OccursInTail(s, p, i - 1);
    forall k | 0 <= k < i - 1 ensures !OccursAt(s[1..], p, k) {
      OccursInTail(s, p, k);
    }
  }

  /** An occurrence at the very start is replaced first. */
  lemma ReplaceAtStart(s: string, p: string, r: string)
    requires |p| > 0 && OccursAt(s, p, 0)
    ensures ReplaceAll(s, p, r) == s[..0] + r + ReplaceAll(s[0 + |p|..], p, r)
  {
    assert s[..|p|] == s[0..|p|];
    assert ReplaceAll(s, p, r) == r + ReplaceAll(s[|p|..], p, r);
    assert s[..0] + r == r;
  }

  /** One step of `ReplaceFirst`: what holds of the tail holds of `s`. */
  lemma ReplaceFirstStep(s: string, p: string, r: string, i: nat)
    requires |p| > 0 && 0 < i && i + |p| <= |s| && !OccursAt(s, p, 0)
    requires ReplaceAll(s[1..], p, r) == s[1..][..i - 1] + r + ReplaceAll(s[1..][i - 1 + |p|..], p, r)
    ensures ReplaceAll(s, p, r) == s[..i] + r + ReplaceAll(s[i + |p|..], p, r)
  {
    var t := s[1..];
    var head := t[..i - 1];
    var rest := ReplaceAll(s[i + |p|..], p, r);
    ReplaceKeepsHead(s, p, r);
    var u := t[i - 1 + |p|..];
    assert u == s[i + |p|..];
    assert ReplaceAll(u, p, r) == rest;
    assert [s[0]] + head == s[..i];
    AppendAssoc([s[0]], head + r, rest);
    AppendAssoc([s[0]], head, r);
  }

  /** The first occurrence is replaced and the text before it is kept. */
  lemma {:induction false} ReplaceFirst(s: string, p: string, r: string, i: nat)
    requires |p| > 0 && OccursAt(s, p, i)
    requires forall j :: 0 <= j < i ==> !OccursAt(s, p, j)
    ensures ReplaceAll(s, p, r) == s[..i] + r + ReplaceAll(s[i + |p|..], p, r)
  {
    if i == 0 {
      ReplaceAtStart(s, p, r);
    } else {
      FirstShift(s, p, i);
      ReplaceFirst(s[1..], p, r, i - 1);
      ReplaceFirstStep(s, p, r, i);
    }
  }

  /** Replacing a pattern by itself is the identity. */
  lemma {:induction false} ReplaceBySelf(s: string, p: string)
    requires |p| > 0
    ensures ReplaceAll(s, p, p) == s
  {
    if |s| >= |p| {
      if s[..|p|] == p {
        ReplaceBySelf(s[|p|..], p);
        assert s == p + s[|p|..];
      } else {
        ReplaceBySelf(s[1..], p);
        assert s == [s[0]] + s[1..];
      }
    }
  }

  /** Replacing one character is a per-character map, so it distributes
      over concatenation. */
  lemma {:induction false} ReplaceCharConcat(a: string, b: string, c: char, r: string)
    ensures ReplaceAll(a + b, [c], r) == ReplaceAll(a, [c], r) + ReplaceAll(b, [c], r)
  {
    if a != [] {
      assert (a + b)[1..] == a[1..] + b;
      assert (a + b)[..1] == a[..1];
      ReplaceCharConcat(a[1..], b, c, r);
    } else {
      assert a + b == b;
    }
  }

  /** Replacing one character in a one-character string. */
  lemma ReplaceCharSingle(x: char, c: char, r: string)
    ensures ReplaceAll([x], [c], r) == if x == c then r else [x]
  {
    assert [x][1..] == [];
    assert [x][..1] == [x];
  }

  /** If every character of `r` differs from `c`, no `c` is left. */
  lemma {:induction false} ReplaceCharRemoves(s: string, c: char, r: string)
    requires c !in r
    ensures c !in ReplaceAll(s, [c], r)
  {
    if s != [] {
      ReplaceCharRemoves(s[1..], c, r);
      if s[..1] != [c] { assert s[0] != c; }
    }
  }

  /** `p` starts with an anchor character `p[0]` found nowhere else in `p`
      or after the first character of `r`, and `r` starts with that anchor
      but is not `p` itself: then no output character can start a new
      occurrence of `p`, and `ReplaceAll` leaves none. */
  predicate Anchored(p: string, r: string)
  {
    && |p| > 0 && |r| >= |p| && r[0] == p[0] && r[..|p|] != p
    && p[0] !in p[1..] && p[0] !in r[1..]
  }

  /** A prefix of a replacement output that holds no anchor character is
      the same prefix of the input. */
  lemma {:induction false} AnchorFreePrefix(t: string, p: string, r: string, m: nat)
    requires Anchored(p, r) && m <= |ReplaceAll(t, p, r)|
    requires p[0] !in ReplaceAll(t, p, r)[..m]
    ensures m <= |t| && ReplaceAll(t, p, r)[..m] == t[..m]
  {
    var out := ReplaceAll(t, p, r);
    if |t| < |p| {
    } else if t[..|p|] == p {
      assert out[0] == p[0];
    } else if m > 0 {
      var rest := ReplaceAll(t[1..], p, r);
      assert out == [t[0]] + rest;
      assert out[..m] == [t[0]] + rest[..m - 1];
      assert p[0] !in rest[..m - 1];
      AnchorFreePrefix(t[1..], p, r, m - 1);
      assert t[..m] == [t[0]] + t[1..][..m - 1];
    }
  }

  /** `p` does not occur at index `k` of `[c] + rest` when it does not occur
      in `rest` and, for `k == 0`, the window is not `p`. */
  lemma NoOccurrenceCons(c: char, rest: string, p: string, k: nat)
    requires |p| > 0 && !Contains(rest, p)
    requires k == 0 ==> !OccursAt([c] + rest, p, 0)
    ensures !OccursAt([c] + rest, p, k)
  {
    if k > 0 {
      OccursInTail([c] + rest, p, k - 1);
      assert ([c] + rest)[1..] == rest;
    }
  }

  /** With an anchored pattern, `ReplaceAll` removes every occurrence. */
  lemma {:induction false} ReplaceAnchoredRemoves(s: string, p: string, r: string)
    requires Anchored(p, r)
    ensures !Contains(ReplaceAll(s, p, r), p)
  {
    var out := ReplaceAll(s, p, r);
    if |s| < |p| {
      forall k: nat ensures !OccursAt(s, p, k) { }
    } else if s[..|p|] == p {
      var rest := ReplaceAll(s[|p|..], p, r);
      ReplaceAnchoredRemoves(s[|p|..], p, r);
      assert out == r + rest;
      forall k: nat ensures !OccursAt(out, p, k) {
        if k + |p| <= |out| {
          if k == 0 {
            assert out[..|p|] == r[..|p|];
          } else if k < |r| {
            assert out[k..k + |p|][0] == r[1..][k - 1];
          } else {
            assert rest[k - |r|..k - |r| + |p|] == out[k..k + |p|];
            assert !OccursAt(rest, p, k - |r|);
          }
        }
      }
    } else {
      var rest := ReplaceAll(s[1..], p, r);
      ReplaceAnchoredRemoves(s[1..], p, r);
      assert out == [s[0]] + rest;
      assert !OccursAt(out, p, 0) by {
        if |out| >= |p| {
          if p[0] in rest[..|p| - 1] {
            assert out[..|p|][1..] == rest[..|p| - 1];
          } else {
            AnchorFreePrefix(s[1..], p, r, |p| - 1);
            assert out[..|p|] == [s[0]] + rest[..|p| - 1];
            assert s[..|p|] == [s[0]] + s[1..][..|p| - 1];
          }
        }
      }
      forall k: nat ensures !OccursAt(out, p, k) {
        NoOccurrenceCons(s[0], rest, p, k);
      }
    }
  }

  /** A replacement at least as long as its pattern never shortens the text,
      and a strictly longer one lengthens text that contains the pattern. */
  lemma {:induction false} ReplaceLength(s: string, p: string, r: string)
    requires |p| > 0 && |r| >= |p|
    ensures |ReplaceAll(s, p, r)| >= |s|
    ensures |r| > |p| && Contains(s, p) ==> |ReplaceAll(s, p, r)| > |s|
  {
    if |s| >= |p| {
      if s[..|p|] == p {
        ReplaceLength(s[|p|..], p, r);
      } else {
        ReplaceLength(s[1..], p, r);
        assert Contains(s, p) ==> Contains(s[1..], p);
      }
    }
  }

  /** An occurrence in either part is an occurrence in the concatenation. */
  lemma ContainsAppend(a: string, b: string, p: string)
    ensures Contains(a, p) ==> Contains(a + b, p)
    ensures Contains(b, p) ==> Contains(a + b, p)
  {
    if Contains(a, p) {
      var i :| OccursAt(a, p, i);
      assert (a + b)[i..i + |p|] == a[i..i + |p|];
      assert OccursAt(a + b, p, i);
    }
    if Contains(b, p) {
      var i :| OccursAt(b, p, i);
      assert (a + b)[|a| + i..|a| + i + |p|] == b[i..i + |p|];
      assert OccursAt(a + b, p, |a| + i);
    }
  }

  /** When the pattern occurs, the output of `ReplaceAll` holds a copy of
      the replacement, and so everything the replacement contains. */
  lemma {:induction false} ReplaceShowsReplacement(s: string, p: string, r: string, q: string)
    requires |p| > 0 && Contains(s, p) && Contains(r, q)
    ensures Contains(ReplaceAll(s, p, r), q)
  {
    if s[..|p|] == p {
      ContainsAppend(r, ReplaceAll(s[|p|..], p, r), q);
    } else {
      assert Contains(s[1..], p) by {
        var i :| OccursAt(s, p, i);
        assert i != 0;
        OccursInTail(s, p, i - 1);
      }
      ReplaceShowsReplacement(s[1..], p, r, q);
      ContainsAppend([s[0]], ReplaceAll(s[1..], p, r), q);
    }
  }

  /** Python's `sep.join(xs)`. */
  function Join(sep: string, xs: seq<string>): string
  {
    if xs == [] then ""
    else if |xs| == 1 then xs[0]
    else Join(sep, xs[..|xs| - 1]) + sep + xs[|xs| - 1]
  }

  /** The character of one decimal digit. */
  function DigitChar(d: nat): (c: char)
    requires d < 10
    ensures '0' <= c <= '9' && c as int - '0' as int == d
  {
    ('0' as int + d) as char
  }

  /** Python's `str(n)` for a natural number. */
  function NatToString(n: nat): (s: string)
    ensures |s| >= 1
    ensures |s| == 1 <==> n < 10
  {
    if n < 10 then [DigitChar(n)] else NatToString(n / 10) + [DigitChar(n % 10)]
  }

  /** Decimal strings are distinct for distinct numbers. */
  lemma {:induction false} NatToStringInjective(a: nat, b: nat)
    requires NatToString(a) == NatToString(b)
    ensures a == b
  {
    var sa, sb := NatToString(a), NatToString(b);
    if a < 10 {
      assert DigitChar(a) == sa[0] == sb[0] == DigitChar(b);
    } else {
      assert sa[..|sa| - 1] == NatToString(a / 10);
      assert sb[..|sb| - 1] == NatToString(b / 10);
      NatToStringInjective(a / 10, b / 10);
      assert DigitChar(a % 10) == sa[|sa| - 1] == sb[|sb| - 1] == DigitChar(b % 10);
    }
  }

  /** Python's `s.split(c)[0]`: the text before the first `c`, or all of it. */
  function BeforeFirst(s: string, c: char): (b: string)
    ensures c !in b
    ensures b == s || (|b| < |s| && s[|b|] == c)
    ensures b <= s
  {
    if s == [] then []
    else if s[0] == c then []
    else [s[0]] + BeforeFirst(s[1..], c)
  }

  /** The characters `str.strip()` removes: those for which Python's
      `str.isspace()` holds. That is the ASCII controls 9 to 13 and 28 to 31,
      the space, and the Unicode spaces and separators U+0085, U+00A0,
      U+1680, U+2000 to U+200A, U+2028, U+2029, U+202F, U+205F and U+3000. */
  predicate IsSpace(c: char)
  {
    (9 <= c as int <= 13) || (28 <= c as int <= 32) || c == '\U{0085}' || c == '\U{00A0}' ||
    c == '\U{1680}' || ('\U{2000}' <= c <= '\U{200A}') || c == '\U{2028}' || c == '\U{2029}' ||
    c == '\U{202F}' || c == '\U{205F}' || c == '\U{3000}'
  }

  /** Python's `bool(s.strip())`: the text holds a non-whitespace character. */
  function NonBlank(s: string): (b: bool)
    ensures b <==> exists i :: 0 <= i < |s| && !IsSpace(s[i])
  {
    if s == [] then false
    else if !IsSpace(s[0]) then true
    else
      var b := NonBlank(s[1..]);
      assert forall i :: 0 < i < |s| ==> s[i] == s[1..][i - 1];
      b
  }

  predicate IsLower(c: char) { 'a' <= c <= 'z' }
  predicate IsUpper(c: char) { 'A' <= c <= 'Z' }

  function UpperChar(c: char): char
  {
    if IsLower(c) then (c as int - 32) as char else c
  }

  function LowerChar(c: char): char
  {
    if IsUpper(c) then (c as int + 32) as char else c
  }

  /** Python's `s.upper()` on ASCII letters. */
  function Upper(s: string): (u: string)
    ensures |u| == |s|
    ensures forall i :: 0 <= i < |s| ==> u[i] == UpperChar(s[i])
  {
    if s == [] then [] else [UpperChar(s[0])] + Upper(s[1..])
  }

  /** Python's `s.title()` on ASCII letters: a letter is upper-cased when the
      character before it is not a letter, and lower-cased otherwise.
      `afterLetter` says whether the preceding character was a letter. */
  function TitleFrom(s: string, afterLetter: bool): (t: string)
    ensures |t| == |s|
  {
    if s == [] then []
    else
      var c := s[0];
      var cased := IsLower(c) || IsUpper(c);
      [if !cased then c else if afterLetter then LowerChar(c) else UpperChar(c)]
      + TitleFrom(s[1..], cased)
  }

  function Title(s: string): (t: string)
    ensures |t| == |s|
  {
    TitleFrom(s, false)
  }
}
