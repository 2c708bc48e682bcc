/**
 * The handful of Python string operations the bot relies on, written out over
 * `seq<char>`: `str.lower()` (ASCII letters only), the substring test `sub in s`,
 * `startswith`, `split`, `strip`, `replace(pat, "")`, slicing with clamped bounds and
 * decimal formatting with zero padding.
 */
module Text {

  // ---------------------------------------------------------------------------
  // Characters and case

  /**
   * The characters `str.split()` and `str.strip()` treat as blanks: those for which
   * Python's `str.isspace()` holds (tab to carriage return, the four information
   * separators, space, next-line, no-break space and the Unicode space separators).
   */
  predicate IsSpace(c: char) {
    ('\t' <= c <= '\r') || ('\U{001C}' <= c <= ' ') || c == '\U{0085}' || c == '\U{00A0}'
    || c == '\U{1680}' || ('\U{2000}' <= c <= '\U{200A}') || c == '\U{2028}' || c == '\U{2029}'
    || c == '\U{202F}' || c == '\U{205F}' || c == '\U{3000}'
  }

  function LowerChar(c: char): char {
    if 'A' <= c <= 'Z' then (c as int + 32) as char else c
  }

  /** `str.lower()`, folding only the ASCII capitals. */
  function Lower(s: string): (r: string)
    ensures |r| == |s|
  {
    seq(|s|, i requires 0 <= i < |s| => LowerChar(s[i]))
  }

  /** A string without ASCII capitals is its own lower-case form. */
  lemma LowerUnchanged(s: string)
    requires forall i :: 0 <= i < |s| ==> !('A' <= s[i] <= 'Z')
    ensures Lower(s) == s
  {
  }

  // ---------------------------------------------------------------------------
  // Prefixes and substrings

  predicate StartsWith(s: string, prefix: string) {
    |prefix| <= |s| && s[..|prefix|] == prefix
  }

  /** Python's `sub in s`. */
  predicate Contains(s: string, sub: string)
    decreases |s|
  {
    StartsWith(s, sub) || (|s| > 0 && Contains(s[1..], sub))
  }

  /** `any(w in s for w in words)`. */
  predicate ContainsAny(s: string, words: seq<string>) {
    exists i :: 0 <= i < |words| && Contains(s, words[i])
  }

  lemma {:induction false} ContainsAtOffset(s: string, sub: string, k: nat)
    requires k <= |s| && StartsWith(s[k..], sub)
    ensures Contains(s, sub)
    decreases k
  {
    if k > 0 {
      assert s[1..][k - 1..] == s[k..];
      ContainsAtOffset(s[1..], sub, k - 1);
    }
  }

  /** A string lacking one of the characters of `sub` cannot contain `sub`. */
  lemma {:induction false} MissingCharNotContained(s: string, sub: string, c: char)
    requires c in sub && c !in s
    ensures !Contains(s, sub)
    decreases |s|
  {
    if |s| > 0 {
      assert forall x :: x in s[1..] ==> x in s;
      MissingCharNotContained(s[1..], sub, c);
    }
  }

  lemma {:induction false} ContainsInLeft(a: string, b: string, sub: string)
    requires Contains(a, sub)
    ensures Contains(a + b, sub)
    decreases |a|
  {
    if StartsWith(a, sub) {
      assert (a + b)[..|sub|] == a[..|sub|];
    } else {
      assert (a + b)[1..] == a[1..] + b;
      ContainsInLeft(a[1..], b, sub);
    }
  }

  lemma {:induction false} ContainsInRight(a: string, b: string, sub: string)
    requires Contains(b, sub)
    ensures Contains(a + b, sub)
    decreases |a|
  {
    if |a| > 0 {
      assert (a + b)[1..] == a[1..] + b;
      ContainsInRight(a[1..], b, sub);
    } else {
      assert a + b == b;
    }
  }

  /** Where a contained string occurs. */
  lemma {:induction false} ContainsWitness(s: string, sub: string) returns (k: nat)
    requires Contains(s, sub)
    ensures k + |sub| <= |s| && s[k..k + |sub|] == sub
    decreases |s|
  {
    if StartsWith(s, sub) {
      k := 0;
    } else {
      var k' := ContainsWitness(s[1..], sub);
      k := k' + 1;
      assert s[k..k + |sub|] == s[1..][k'..k' + |sub|];
    }
  }

  lemma ContainsTransitive(a: string, b: string, c: string)
    requires Contains(a, b) && Contains(b, c)
    ensures Contains(a, c)
  {
    var k1 := ContainsWitness(a, b);
    var k2 := ContainsWitness(b, c);
    assert b == a[k1..k1 + |b|];
    forall i | 0 <= i < |c| ensures a[k1 + k2..][..|c|][i] == c[i] {
      assert c[i] == b[k2 + i];
    }
    assert a[k1 + k2..][..|c|] == c;
    ContainsAtOffset(a, c, k1 + k2);
  }

  lemma ContainsInMiddle(pre: string, sub: string, post: string)
    ensures Contains(pre + sub + post, sub)
  {
    assert (pre + sub + post)[|pre|..][..|sub|] == sub;
    ContainsAtOffset(pre + sub + post, sub, |pre|);
  }

  /** `piece(1, xs[0]) + piece(2, xs[1]) + ...`: one numbered piece of text per item. */
  function ConcatMap<T>(xs: seq<T>, piece: (nat, T) -> string): string
    decreases |xs|
  {
    if xs == [] then "" else ConcatMap(xs[..|xs| - 1], piece) + piece(|xs|, xs[|xs| - 1])
  }

  /** Every item's piece, under its position, occurs in the concatenation. */
  lemma {:induction false} ConcatMapListsEach<T>(xs: seq<T>, piece: (nat, T) -> string)
    ensures forall i :: 0 <= i < |xs| ==> Contains(ConcatMap(xs, piece), piece(i + 1, xs[i]))
    decreases |xs|
  {
    if xs != [] {
      var front := xs[..|xs| - 1];
      var last := piece(|xs|, xs[|xs| - 1]);
      ConcatMapListsEach(front, piece);
      forall i | 0 <= i < |xs| ensures Contains(ConcatMap(xs, piece), piece(i + 1, xs[i])) {
        if i < |front| {
          assert xs[i] == front[i];
          ContainsInLeft(ConcatMap(front, piece), last, piece(i + 1, xs[i]));
        } else {
          ContainsInMiddle(ConcatMap(front, piece), last, "");
          assert ConcatMap(front, piece) + last + "" == ConcatMap(xs, piece);
        }
      }
    }
  }

  // ---------------------------------------------------------------------------
  // Splitting, joining and stripping

  /** `s.split(sep)` for a one-character separator: always at least one piece. */
  function Split(s: string, sep: char): (r: seq<string>)
    ensures |r| >= 1
    decreases |s|
  {
    if |s| == 0 then [""]
    else
      var rest := Split(s[1..], sep);
      if s[0] == sep then [""] + rest else [[s[0]] + rest[0]] + rest[1..]
  }

  /** `sep.join(parts)`. */
  function Join(parts: seq<string>, sep: char): string
    decreases |parts|
  {
    if |parts| == 0 then ""
    else if |parts| == 1 then parts[0]
    else parts[0] + [sep] + Join(parts[1..], sep)
  }

  lemma {:induction false} JoinSplit(s: string, sep: char)
    ensures Join(Split(s, sep), sep) == s
    ensures forall i :: 0 <= i < |Split(s, sep)| ==> sep !in Split(s, sep)[i]
    decreases |s|
  {
    if |s| > 0 {
      JoinSplit(s[1..], sep);
      var rest := Split(s[1..], sep);
      if s[0] != sep {
        var r := Split(s, sep);
        assert r[1..] == rest[1..];
        if |rest| > 1 {
          assert rest == [rest[0]] + rest[1..];
          assert Join(rest, sep) == rest[0] + [sep] + Join(rest[1..], sep);
        }
        assert r[0] == [s[0]] + rest[0];
        assert forall i :: 1 <= i < |r| ==> r[i] == rest[i];
      }
    }
  }

  /** A string without the separator is a single piece. */
  lemma {:induction false} SplitWithoutSep(s: string, sep: char)
    requires sep !in s
    ensures Split(s, sep) == [s]
    decreases |s|
  {
    if |s| > 0 {
      SplitWithoutSep(s[1..], sep);
      assert [s[0]] + s[1..] == s;
    }
  }

  /** The text before the first separator is the first piece. */
  lemma {:induction false} SplitAtFirstSep(a: string, sep: char, b: string)
    requires sep !in a
    ensures Split(a + [sep] + b, sep) == [a] + Split(b, sep)
    decreases |a|
  {
    var s := a + [sep] + b;
    if |a| == 0 {
      assert s[1..] == b;
    } else {
      assert s[1..] == a[1..] + [sep] + b;
      SplitAtFirstSep(a[1..], sep, b);
      assert [a[0]] + a[1..] == a;
    }
  }

  /** `sep.join` of a list extended by one more part. */
  lemma {:induction false} JoinSnoc(parts: seq<string>, x: string, sep: char)
    requires |parts| > 0
    ensures Join(parts + [x], sep) == Join(parts, sep) + [sep] + x
    decreases |parts|
  {
    if |parts| > 1 {
      assert (parts + [x])[1..] == parts[1..] + [x];
      JoinSnoc(parts[1..], x, sep);
    }
  }

  /** Length of the leading run of non-blank characters. */
  function WordLength(s: string): (n: nat)
    ensures n <= |s|
    ensures forall i :: 0 <= i < n ==> !IsSpace(s[i])
    ensures n < |s| ==> IsSpace(s[n])
  {
    if |s| == 0 || IsSpace(s[0]) then 0 else 1 + WordLength(s[1..])
  }

  /** `s.split()`: the maximal runs of non-blank characters, in order. */
  function Words(s: string): (r: seq<string>)
    ensures forall i :: 0 <= i < |r| ==> |r[i]| > 0
    decreases |s|
  {
    if |s| == 0 then []
    else if IsSpace(s[0]) then Words(s[1..])
    else
      var n := WordLength(s);
      [s[..n]] + Words(s[n..])
  }

  function StripLeft(s: string): (r: string)
    ensures |r| <= |s|
  {
    if |s| > 0 && IsSpace(s[0]) then StripLeft(s[1..]) else s
  }

  function StripRight(s: string): (r: string)
    ensures |r| <= |s|
  {
    if |s| > 0 && IsSpace(s[|s| - 1]) then StripRight(s[..|s| - 1]) else s
  }

  /** `s.strip()`: never longer than `s`. */
  function Strip(s: string): (r: string)
    ensures |r| <= |s|
  {
    StripRight(StripLeft(s))
  }

  // ---------------------------------------------------------------------------
  // Replacement and slicing

  /** `s.replace(pat, "")`: every non-overlapping occurrence, scanned left to right, removed. */
  function RemoveAll(s: string, pat: string): (r: string)
    requires |pat| > 0
    ensures |r| <= |s|
    decreases |s|
  {
    if StartsWith(s, pat) then RemoveAll(s[|pat|..], pat)
    else if |s| == 0 then ""
    else [s[0]] + RemoveAll(s[1..], pat)
  }

  /** Removing an absent pattern changes nothing. */
  lemma {:induction false} RemoveAbsent(s: string, pat: string)
    requires |pat| > 0 && !Contains(s, pat)
    ensures RemoveAll(s, pat) == s
    decreases |s|
  {
    if |s| > 0 {
      RemoveAbsent(s[1..], pat);
    }
  }

  /** Python's `s[start:-dropEnd]` (with `dropEnd > 0`): both bounds clamped, empty when they cross. */
  function SliceInner(s: string, start: nat, dropEnd: nat): (r: string)
    ensures |r| <= |s|
    ensures start + dropEnd <= |s| ==> r == s[start..|s| - dropEnd]
    ensures start + dropEnd >= |s| ==> r == ""
  {
    var lo := if start <= |s| then start else |s|;
    var hi := if dropEnd <= |s| then |s| - dropEnd else 0;
    if lo < hi then s[lo..hi] else ""
  }

  /** Python's `s[:k]` for an int `k`, which counts from the end when negative. */
  function TakePrefix<T>(s: seq<T>, k: int): (r: seq<T>)
    ensures 0 <= k ==> |r| == (if k <= |s| then k else |s|)
    ensures k < 0 ==> |r| == (if |s| + k >= 0 then |s| + k else 0)
    ensures r == s[..|r|]
  {
    if k >= 0 then (if k <= |s| then s[..k] else s)
    else if |s| + k >= 0 then s[..|s| + k]
    else []
  }

  /**
   * The clean-up applied to an AI answer before `json.loads`: a reply opening with
   * "```json" loses its first 7 and last 3 characters, one opening with "```" its first
   * 3 and last 3, anything else is kept.
   */
  function StripCodeFences(t: string): (r: string)
    ensures StartsWith(t, "```json") ==> r == SliceInner(t, 7, 3)
    ensures !StartsWith(t, "```json") && StartsWith(t, "```") ==> r == SliceInner(t, 3, 3)
    ensures !StartsWith(t, "```") ==> r == t
  {
    if StartsWith(t, "```json") then SliceInner(t, 7, 3)
    else if StartsWith(t, "```") then SliceInner(t, 3, 3)
    else t
  }

  /** Fencing a body as "```json ... ```" and cleaning it up gives the body back. */
  lemma JsonFenceRoundTrip(body: string)
    ensures StripCodeFences("```json" + body + "```") == body
  {
    var t := "```json" + body + "```";
    assert t[..7] == "```json";
    assert t[7..|t| - 3] == body;
  }

  /** The same with a bare "```" fence, for bodies that do not themselves start with "json". */
  lemma BareFenceRoundTrip(body: string)
    requires !StartsWith(body, "json")
    ensures StripCodeFences("```" + body + "```") == body
  {
    var t := "```" + body + "```";
    assert t[..3] == "```";
    assert !StartsWith(t, "```json") by {
      if |t| >= 7 {
        var rest := body + "```";
        assert t[..7][3..] == rest[..4];
        if |body| >= 4 {
          assert rest[..4] == body[..4];
        } else {
          assert rest[..4][|body|] == '`';
        }
        assert rest[..4] != "json";
      }
    }
    assert t[3..|t| - 3] == body;
  }

  // ---------------------------------------------------------------------------
  // Decimal numbers

  function DigitChar(d: nat): char
    requires d < 10
  {
    ('0' as int + d) as char
  }

  predicate IsDigit(c: char) {
    '0' <= c <= '9'
  }

  /** `str(n)` for a natural number. */
  function NatToString(n: nat): (r: string)
    ensures |r| > 0
    ensures forall i :: 0 <= i < |r| ==> IsDigit(r[i])
    decreases n
  {
    if n < 10 then [DigitChar(n)] else NatToString(n / 10) + [DigitChar(n % 10)]
  }

  /** The value of a string of decimal digits, read left to right. */
  function DigitsValue(s: string): nat
    requires forall i :: 0 <= i < |s| ==> IsDigit(s[i])
    decreases |s|
  {
    if |s| == 0 then 0
    else
      var last := s[|s| - 1];
      assert IsDigit(last);
      DigitsValue(s[..|s| - 1]) * 10 + (last as int - '0' as int)
  }

  function Zeros(k: nat): (r: string)
    ensures |r| == k
    ensures forall i :: 0 <= i < k ==> r[i] == '0'
  {
    if k == 0 then "" else "0" + Zeros(k - 1)
  }

  /** `f"{n:03d}"`: at least three digits, padded with leading zeros. */
  function Pad3(n: nat): (r: string)
    ensures |r| >= 3
    ensures forall i :: 0 <= i < |r| ==> IsDigit(r[i])
  {
    var d := NatToString(n);
    if |d| >= 3 then d else Zeros(3 - |d|) + d
  }

  lemma {:induction false} DigitsValueOfNat(n: nat)
    ensures DigitsValue(NatToString(n)) == n
    decreases n
  {
    if n >= 10 {
      DigitsValueOfNat(n / 10);
      var s := NatToString(n);
      assert s[..|s| - 1] == NatToString(n / 10);
    }
  }

  lemma {:induction false} LeadingZerosIgnored(k: nat, s: string)
    requires forall i :: 0 <= i < |s| ==> IsDigit(s[i])
    ensures forall i :: 0 <= i < |Zeros(k) + s| ==> IsDigit((Zeros(k) + s)[i])
    ensures DigitsValue(Zeros(k) + s) == DigitsValue(s)
    decreases |s| + k
  {
    var z := Zeros(k) + s;
    if |s| == 0 {
      assert z == Zeros(k);
      if k > 0 {
        assert z[..|z| - 1] == Zeros(k - 1) + "" by {
          assert Zeros(k) == Zeros(k - 1) + "0";
        }
        ZerosTail(k);
        LeadingZerosIgnored(k - 1, "");
      }
    } else {
      assert z[..|z| - 1] == Zeros(k) + s[..|s| - 1];
      LeadingZerosIgnored(k, s[..|s| - 1]);
    }
  }

  lemma {:induction false} ZerosTail(k: nat)
    requires k > 0
    ensures Zeros(k) == Zeros(k - 1) + "0"
    decreases k
  {
    if k > 1 {
      ZerosTail(k - 1);
    }
  }

  /** Reading back a padded number gives the number: `f"{n:03d}"` is injective. */
  lemma Pad3Value(n: nat)
    ensures DigitsValue(Pad3(n)) == n
  {
    var d := NatToString(n);
    DigitsValueOfNat(n);
    if |d| < 3 {
      LeadingZerosIgnored(3 - |d|, d);
    }
  }
}
