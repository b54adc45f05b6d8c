/**
 * The JavaScript string operations the components rely on.
 *
 * Assumptions of the model: `toLowerCase` is modelled on ASCII letters only;
 * `trim()`, `\s` and `\S` use the fixed ECMAScript WhiteSpace and
 * LineTerminator code points listed in `IsSpace`; `\d` is ASCII `0-9`.
 */
module Text {
  import Seqs

  /** The code points `String.prototype.trim` strips and the regex class `\s` matches. */
  predicate IsSpace(c: char) {
    var n := c as int;
    (0x09 <= n <= 0x0D) || n == 0x20 || n == 0xA0 || n == 0x1680 ||
    (0x2000 <= n <= 0x200A) || n == 0x2028 || n == 0x2029 || n == 0x202F ||
    n == 0x205F || n == 0x3000 || n == 0xFEFF
  }

  /** The code points the regex `.` does not match. */
  predicate IsLineTerminator(c: char) {
    c == '\n' || c == '\r' || c as int == 0x2028 || c as int == 0x2029
  }

  predicate IsDigit(c: char) { '0' <= c <= '9' }

  /** The regex class `\w`. */
  predicate IsWordChar(c: char) {
    ('a' <= c <= 'z') || ('A' <= c <= 'Z') || IsDigit(c) || c == '_'
  }

  predicate IsBlank(s: string) {
    forall i :: 0 <= i < |s| ==> IsSpace(s[i])
  }

  // ---------------------------------------------------------------- case

  function LowerChar(c: char): char {
    if 'A' <= c <= 'Z' then (c as int + 32) as char else c
  }

  /** `s.toLowerCase()` on ASCII letters; every other character is kept. */
  function ToLower(s: string): (r: string)
    ensures |r| == |s|
    ensures forall i :: 0 <= i < |s| ==> r[i] == LowerChar(s[i])
  {
    seq(|s|, i requires 0 <= i < |s| => LowerChar(s[i]))
  }

  lemma ToLowerIdempotent(s: string)
    ensures ToLower(ToLower(s)) == ToLower(s)
  {
  }

  // ---------------------------------------------------------------- trim

  /** `s` without its leading white space: a suffix of `s`. */
  function TrimStart(s: string): (r: string)
    ensures |r| <= |s|
    ensures forall i :: 0 <= i < |r| ==> r[i] == s[|s| - |r| + i]
    ensures r == [] || !IsSpace(r[0])
    ensures forall i :: 0 <= i < |s| - |r| ==> IsSpace(s[i])
    decreases |s|
  {
    if s != [] && IsSpace(s[0]) then
      var t := s[1..];
      var r := TrimStart(t);
      assert forall i :: 0 <= i < |r| ==> r[i] == s[|s| - |r| + i];
      assert forall i :: 1 <= i < |s| - |r| ==> s[i] == t[i - 1];
      r
    else s
  }

  /** `s` without its trailing white space: a prefix of `s`. */
  function TrimEnd(s: string): (r: string)
    ensures |r| <= |s|
    ensures forall i :: 0 <= i < |r| ==> r[i] == s[i]
    ensures r == [] || !IsSpace(r[|r| - 1])
    ensures forall i :: |r| <= i < |s| ==> IsSpace(s[i])
    decreases |s|
  {
    if s != [] && IsSpace(s[|s| - 1]) then
      var r := TrimEnd(s[..|s| - 1]);
      assert forall i :: 0 <= i < |s| - 1 ==> s[i] == s[..|s| - 1][i];
      r
    else s
  }

  /**
   * `s.trim()`: the part of `s` between its leading and trailing white
   * space. It is empty exactly when `s` is blank, and otherwise starts and
   * ends with a non-space character taken from `s`.
   */
  function Trim(s: string): (r: string)
    ensures r == [] <==> IsBlank(s)
    ensures r != [] ==> !IsSpace(r[0]) && !IsSpace(r[|r| - 1])
    ensures Contains(s, r)
  {
    var t := TrimStart(s);
    var r := TrimEnd(t);
    assert OccursAt(s, r, |s| - |t|) by {
      assert s[|s| - |t|..|s| - |t| + |r|] == r;
    }
    assert r == [] <==> IsBlank(s) by {
      if r != [] {
        assert !IsSpace(s[|s| - |t|]);
      }
    }
    r
  }

  // ---------------------------------------------------------- substrings

  predicate OccursAt(s: string, sub: string, i: nat) {
    i + |sub| <= |s| && s[i..i + |sub|] == sub
  }

  /** `s.includes(sub)`. */
  predicate Contains(s: string, sub: string) {
    exists i :: 0 <= i <= |s| && OccursAt(s, sub, i)
  }

  /** Every character of a contained string is a character of the container. */
  lemma ContainsChars(s: string, sub: string, k: nat)
    requires Contains(s, sub) && k < |sub|
    ensures sub[k] in s
  {
    var i :| 0 <= i <= |s| && OccursAt(s, sub, i);
    assert s[i + k] == s[i..i + |sub|][k];
  }

  /** A contained string is still contained after characters are added around the container. */
  lemma ContainsExtend(s: string, sub: string, x: string, y: string)
    requires Contains(s, sub)
    ensures Contains(x + s + y, sub)
  {
    var i :| 0 <= i <= |s| && OccursAt(s, sub, i);
    var t := x + s + y;
    assert t[|x| + i..|x| + i + |sub|] == s[i..i + |sub|];
    assert OccursAt(t, sub, |x| + i);
  }

  /** Lowercasing the container keeps every lower-case occurrence. */
  lemma ContainsLowered(s: string, sub: string)
    requires Contains(s, sub) && ToLower(sub) == sub
    ensures Contains(ToLower(s), sub)
  {
    var i :| 0 <= i <= |s| && OccursAt(s, sub, i);
    var l := ToLower(s);
    assert l[i..i + |sub|] == ToLower(s[i..i + |sub|]);
    assert OccursAt(l, sub, i);
  }

  // --------------------------------------------------------- split, join

  function IndexOf(s: string, c: char): (i: nat)
    requires c in s
    ensures i < |s| && s[i] == c && c !in s[..i]
  {
    if s[0] == c then 0 else 1 + IndexOf(s[1..], c)
  }

  /** `s.split(sep)` for a one-character separator. */
  function Split(s: string, sep: char): (parts: seq<string>)
    ensures |parts| >= 1
    ensures forall k :: 0 <= k < |parts| ==> sep !in parts[k]
    decreases |s|
  {
    if sep !in s then [s]
    else
      var i := IndexOf(s, sep);
      [s[..i]] + Split(s[i + 1..], sep)
  }

  /** `parts.join(sep)`. */
  function Join(parts: seq<string>, sep: string): string
    decreases |parts|
  {
    if |parts| == 0 then ""
    else if |parts| == 1 then parts[0]
    else parts[0] + sep + Join(parts[1..], sep)
  }

  /** Joining the pieces of a split with the separator gives back the input. */
  lemma {:induction false} SplitJoin(s: string, sep: char)
    ensures Join(Split(s, sep), [sep]) == s
    decreases |s|
  {
    if sep in s {
      var i := IndexOf(s, sep);
      var rest := s[i + 1..];
      SplitJoin(rest, sep);
      JoinCons(s[..i], Split(rest, sep), [sep]);
      Seqs.AroundIndex(s, i);
    }
  }

  /** Splitting a join of separator-free pieces gives back the pieces. */
  lemma {:induction false} JoinSplit(parts: seq<string>, sep: char)
    requires |parts| >= 1
    requires forall k :: 0 <= k < |parts| ==> sep !in parts[k]
    ensures Split(Join(parts, [sep]), sep) == parts
    decreases |parts|
  {
    if |parts| > 1 {
      var s := Join(parts, [sep]);
      var rest := Join(parts[1..], [sep]);
      assert s == parts[0] + [sep] + rest;
      assert s[|parts[0]|] == sep && s[..|parts[0]|] == parts[0];
      var i := IndexOf(s, sep);
      assert i == |parts[0]|;
      assert s[i + 1..] == rest;
      JoinSplit(parts[1..], sep);
    }
  }

  lemma JoinCons(a: string, rest: seq<string>, sep: string)
    requires |rest| >= 1
    ensures Join([a] + rest, sep) == a + sep + Join(rest, sep)
  {
    assert ([a] + rest)[1..] == rest;
  }

  predicate IsPrefix(p: string, s: string) {
    |p| <= |s| && s[..|p|] == p
  }

  lemma PrefixCons(a: string, c: char, q: string, t: string)
    requires IsPrefix(q, t)
    ensures IsPrefix(a + [c] + q, a + [c] + t)
  {
    var p := a + [c] + q;
    assert (a + [c] + t)[..|p|] == a + [c] + t[..|q|];
  }

  /** The first `k` pieces of a split, joined again, form a prefix of the input. */
  lemma {:induction false} SplitPrefix(s: string, sep: char, k: nat)
    requires 1 <= k <= |Split(s, sep)|
    ensures IsPrefix(Join(Split(s, sep)[..k], [sep]), s)
    decreases |s|
  {
    if sep !in s {
      assert Split(s, sep)[..k] == [s];
    } else {
      var i := IndexOf(s, sep);
      if k == 1 {
        assert Split(s, sep)[..k] == [s[..i]];
      } else {
        SplitPrefix(s[i + 1..], sep, k - 1);
        SplitPrefixStep(s, sep, k);
      }
    }
  }

  /** The inductive step of `SplitPrefix`: a piece and a separator in front of a prefix of the rest. */
  lemma {:induction false} SplitPrefixStep(s: string, sep: char, k: nat)
    requires sep in s && 2 <= k <= |Split(s, sep)|
    requires IsPrefix(Join(Split(s[IndexOf(s, sep) + 1..], sep)[..k - 1], [sep]), s[IndexOf(s, sep) + 1..])
    ensures IsPrefix(Join(Split(s, sep)[..k], [sep]), s)
  {
    var parts := Split(s, sep);
    var i := IndexOf(s, sep);
    var tail := s[i + 1..];
    var rest := Split(tail, sep);
    assert parts == [s[..i]] + rest;
    assert parts[..k] == [s[..i]] + rest[..k - 1];
    JoinCons(s[..i], rest[..k - 1], [sep]);
    var q := Join(rest[..k - 1], [sep]);
    var p := Join(parts[..k], [sep]);
    assert p == s[..i] + [sep] + q;
    var a := s[..i];
    Seqs.AroundIndex(s, i);
    PrefixCons(a, sep, q, tail);
    assert IsPrefix(a + [sep] + q, a + [sep] + tail);
  }

  // ------------------------------------------------------------ sentences

  /** The characters of the regex class `[.!?]`. */
  predicate IsSentenceEnd(c: char) { c == '.' || c == '!' || c == '?' }

  predicate NoSentenceEnd(s: string) {
    forall i :: 0 <= i < |s| ==> !IsSentenceEnd(s[i])
  }

  function FirstSentenceEnd(s: string): (i: nat)
    requires !NoSentenceEnd(s)
    ensures i < |s| && IsSentenceEnd(s[i]) && NoSentenceEnd(s[..i])
  {
    if IsSentenceEnd(s[0]) then 0
    else
      assert !NoSentenceEnd(s[1..]) by {
        var k :| 0 <= k < |s| && IsSentenceEnd(s[k]);
        assert s[1..][k - 1] == s[k];
      }
      1 + FirstSentenceEnd(s[1..])
  }

  /** The end of the run of sentence-end characters starting at `i`. */
  function RunEnd(s: string, i: nat): (j: nat)
    requires i <= |s|
    ensures i <= j <= |s| && (j == |s| || !IsSentenceEnd(s[j]))
    ensures forall k :: i <= k < j ==> IsSentenceEnd(s[k])
    ensures i < |s| && IsSentenceEnd(s[i]) ==> i < j
    decreases |s| - i
  {
    if i < |s| && IsSentenceEnd(s[i]) then RunEnd(s, i + 1) else i
  }

  /** `s.split(/[.!?]+/)`: the pieces between maximal runs of `.`, `!` and `?`. */
  function SplitSentences(s: string): (parts: seq<string>)
    ensures |parts| >= 1
    ensures forall k :: 0 <= k < |parts| ==> NoSentenceEnd(parts[k])
    decreases |s|
  {
    if NoSentenceEnd(s) then [s]
    else
      var i := FirstSentenceEnd(s);
      var j := RunEnd(s, i);
      [s[..i]] + SplitSentences(s[j..])
  }

  function Concat(parts: seq<string>): string {
    if parts == [] then "" else parts[0] + Concat(parts[1..])
  }

  function StripSentenceEnds(s: string): string {
    if s == [] then [] else (if IsSentenceEnd(s[0]) then [] else [s[0]]) + StripSentenceEnds(s[1..])
  }

  lemma {:induction false} StripAppend(a: string, b: string)
    ensures StripSentenceEnds(a + b) == StripSentenceEnds(a) + StripSentenceEnds(b)
  {
    if a != [] {
      assert (a + b)[1..] == a[1..] + b;
      StripAppend(a[1..], b);
    } else {
      assert a + b == b;
    }
  }

  lemma {:induction false} StripKeeps(a: string)
    requires NoSentenceEnd(a)
    ensures StripSentenceEnds(a) == a
  {
    if a != [] {
      StripKeeps(a[1..]);
    }
  }

  lemma {:induction false} StripDrops(a: string)
    requires forall i :: 0 <= i < |a| ==> IsSentenceEnd(a[i])
    ensures StripSentenceEnds(a) == []
  {
    if a != [] {
      StripDrops(a[1..]);
    }
  }

  /** Splitting into sentences loses exactly the sentence-end characters. */
  lemma {:induction false} SplitSentencesKeepsText(s: string)
    ensures Concat(SplitSentences(s)) == StripSentenceEnds(s)
    decreases |s|
  {
    if NoSentenceEnd(s) {
      StripKeeps(s);
    } else {
      var j := RunEnd(s, FirstSentenceEnd(s));
      SplitSentencesKeepsText(s[j..]);
      SplitSentencesStep(s);
    }
  }

  /** The inductive step of `SplitSentencesKeepsText`: one sentence and its terminating run. */
  lemma {:induction false} SplitSentencesStep(s: string)
    requires !NoSentenceEnd(s)
    requires Concat(SplitSentences(s[RunEnd(s, FirstSentenceEnd(s))..]))
          == StripSentenceEnds(s[RunEnd(s, FirstSentenceEnd(s))..])
    ensures Concat(SplitSentences(s)) == StripSentenceEnds(s)
  {
    ConcatSplitHead(s);
    var i := FirstSentenceEnd(s);
    StripSplitHead(s, i, RunEnd(s, i));
  }

  lemma {:induction false} ConcatSplitHead(s: string)
    requires !NoSentenceEnd(s)
    ensures Concat(SplitSentences(s))
         == s[..FirstSentenceEnd(s)] + Concat(SplitSentences(s[RunEnd(s, FirstSentenceEnd(s))..]))
  {
    var i := FirstSentenceEnd(s);
    var c := s[RunEnd(s, i)..];
    var parts := SplitSentences(s);
    assert parts == [s[..i]] + SplitSentences(c);
    assert parts[1..] == SplitSentences(c);
  }

  lemma {:induction false} StripSplitHead(s: string, i: nat, j: nat)
    requires i <= j <= |s| && NoSentenceEnd(s[..i])
    requires forall k :: i <= k < j ==> IsSentenceEnd(s[k])
    ensures StripSentenceEnds(s) == s[..i] + StripSentenceEnds(s[j..])
  {
    var a, b, c := s[..i], s[i..j], s[j..];
    assert s == a + (b + c);
    StripAppend(a, b + c);
    StripAppend(b, c);
    StripKeeps(a);
    StripDrops(b);
  }

  lemma {:induction false} StripHasOnlyInput(s: string, c: char)
    requires c in StripSentenceEnds(s)
    ensures c in s && !IsSentenceEnd(c)
  {
    if s != [] {
      if c !in (if IsSentenceEnd(s[0]) then [] else [s[0]]) {
        StripHasOnlyInput(s[1..], c);
      }
    }
  }

  lemma {:induction false} ConcatHasPart(parts: seq<string>, k: nat, n: nat)
    requires k < |parts| && n < |parts[k]|
    ensures parts[k][n] in Concat(parts)
  {
    if k > 0 {
      ConcatHasPart(parts[1..], k - 1, n);
    } else {
      assert Concat(parts)[n] == parts[0][n];
    }
  }

  /** Every character of every sentence piece is a non-end character of the input. */
  lemma SentenceCharsFromInput(s: string, k: nat, n: nat)
    requires k < |SplitSentences(s)| && n < |SplitSentences(s)[k]|
    ensures SplitSentences(s)[k][n] in s
  {
    ConcatHasPart(SplitSentences(s), k, n);
    SplitSentencesKeepsText(s);
    StripHasOnlyInput(s, SplitSentences(s)[k][n]);
  }

  /** `s.split(/[.!?]+/).filter(p => p.trim().length > 0)`. */
  function NonBlankSentences(s: string): seq<string> {
    Seqs.Filter(SplitSentences(s), t => |Trim(t)| > 0)
  }

  // ------------------------------------------------------------- numbers

  function DigitChar(d: nat): (c: char)
    requires d < 10
    ensures IsDigit(c)
  {
    ('0' as int + d) as char
  }

  predicate AllDigits(s: string) {
    forall i :: 0 <= i < |s| ==> IsDigit(s[i])
  }

  /** `n.toString()` for a natural number. */
  function NatToString(n: nat): (r: string)
    ensures |r| >= 1 && AllDigits(r)
    decreases n
  {
    if n < 10 then [DigitChar(n)] else NatToString(n / 10) + [DigitChar(n % 10)]
  }

  /** `Number(s)` for a string of decimal digits. */
  function DigitsValue(s: string): nat
    requires AllDigits(s)
  {
    if s == [] then 0 else DigitsValue(s[..|s| - 1]) * 10 + (s[|s| - 1] as int - '0' as int)
  }

  /** Printing a number in decimal and reading it back gives the number. */
  lemma {:induction false} NatToStringValue(n: nat)
    ensures DigitsValue(NatToString(n)) == n
    decreases n
  {
    if n >= 10 {
      NatToStringValue(n / 10);
      var s := NatToString(n);
      assert s[..|s| - 1] == NatToString(n / 10);
    }
  }

  /** A decimal rendering has one digit below 10 and at most two below 100. */
  lemma {:induction false} NatToStringLength(n: nat)
    ensures |NatToString(n)| == 1 <==> n < 10
    ensures |NatToString(n)| <= 2 <==> n < 100
    decreases n
  {
    if n >= 10 {
      NatToStringLength(n / 10);
    }
  }

  /** A leading zero does not change the value of a digit string. */
  lemma {:induction false} LeadingZeroValue(s: string)
    requires AllDigits(s)
    ensures DigitsValue("0" + s) == DigitsValue(s)
    decreases |s|
  {
    if s != [] {
      var t := "0" + s;
      assert t[..|t| - 1] == "0" + s[..|s| - 1];
      LeadingZeroValue(s[..|s| - 1]);
    }
  }

  /** `s.padStart(width, fill)`: fill characters in front up to `width`; never truncates. */
  function PadStart(s: string, width: nat, fill: char): (r: string)
    ensures |r| == if |s| >= width then |s| else width
    ensures r[|r| - |s|..] == s
    ensures forall i :: 0 <= i < |r| - |s| ==> r[i] == fill
  {
    if |s| >= width then s else seq(width - |s|, _ => fill) + s
  }
}
