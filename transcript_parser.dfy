/**
 * The transcript parser: turning a raw YouTube-style transcript into
 * timestamped lines, and rendering a number of seconds as `HH:MM:SS`.
 */
module TranscriptParser {
  import opened Wrappers
  import Seqs
  import opened Text

  datatype TranscriptLine = TranscriptLine(time: string, text: string)

  /** The pattern `\d{2}:\d{2}:\d{2}\.\d{3}`, e.g. `00:01:02.345`. */
  predicate IsTimestamp(t: string) {
    |t| == 12 &&
    IsDigit(t[0]) && IsDigit(t[1]) && t[2] == ':' &&
    IsDigit(t[3]) && IsDigit(t[4]) && t[5] == ':' &&
    IsDigit(t[6]) && IsDigit(t[7]) && t[8] == '.' &&
    IsDigit(t[9]) && IsDigit(t[10]) && IsDigit(t[11])
  }

  /** The text the `.+` group accepts: at least one character, none a line terminator. */
  predicate IsLineText(x: string) {
    |x| >= 1 && forall k :: 0 <= k < |x| ==> !IsLineTerminator(x[k])
  }

  /** A line well formed for the parser: a timestamp, one white-space character, then text. */
  predicate WellFormed(e: TranscriptLine) {
    IsTimestamp(e.time) && IsLineText(e.text)
  }

  /**
   * `line.match(/^(\d{2}:\d{2}:\d{2}\.\d{3})\s(.+)$/)`: the whole line
   * must be a timestamp, one white-space character and the text. The
   * result is present exactly when the line splits that way, and then its
   * groups are the two pieces (`MatchLineExact` is the converse).
   */
  function MatchLine(line: string): (m: Option<TranscriptLine>)
    ensures m.Some? ==> WellFormed(m.value) && exists c :: IsSpace(c) && line == m.value.time + [c] + m.value.text
  {
    if |line| >= 14 && IsTimestamp(line[..12]) && IsSpace(line[12]) && IsLineText(line[13..]) then
      assert line == line[..12] + [line[12]] + line[13..];
      Some(TranscriptLine(line[..12], line[13..]))
    else
      None
  }

  /** Every line made of a timestamp, one white-space character and line text matches, with those groups. */
  lemma {:induction false} MatchLineExact(line: string, t: string, c: char, x: string)
    requires IsTimestamp(t) && IsSpace(c) && IsLineText(x) && line == t + [c] + x
    ensures MatchLine(line) == Some(TranscriptLine(t, x))
  {
    assert line[..12] == t;
    assert line[13..] == x;
  }

  /** One iteration of the loop: comment lines are skipped, others are matched. */
  function LineEntry(line: string): Option<TranscriptLine> {
    if |line| > 0 && line[0] == '#' then None else MatchLine(line)
  }

  /** `rawTranscript.split('\n').filter(line => line.trim() !== '')`. */
  function NonBlankLines(raw: string): seq<string> {
    Seqs.Filter(Split(raw, '\n'), l => Trim(l) != [])
  }

  /** The transcript the parser produces for a raw input. */
  function Transcript(raw: string): seq<TranscriptLine> {
    Seqs.FilterMap(NonBlankLines(raw), LineEntry)
  }

  /** `parseYouTubeTranscript`: the non-blank lines of the input, parsed by `ParseLines`. */
  method ParseYouTubeTranscript(rawTranscript: string) returns (transcript: seq<TranscriptLine>)
    ensures transcript == Transcript(rawTranscript)
  {
    var lines := NonBlankLines(rawTranscript);
    transcript := ParseLines(lines);
  }

  /** The parser's loop: every matching line gives one transcript line, in order. */
  method ParseLines(lines: seq<string>) returns (transcript: seq<TranscriptLine>)
    ensures transcript == Seqs.FilterMap(lines, LineEntry)
  {
    transcript := [];
    for i := 0 to |lines|
      invariant transcript == Seqs.FilterMap(lines[..i], LineEntry)
    {
      var line := lines[i];
      assert lines[..i + 1][..i] == lines[..i];
      if |line| > 0 && line[0] == '#' {
        continue;
      }
      var timestampMatch := MatchLine(line);
      if timestampMatch.Some? {
        transcript := transcript + [timestampMatch.value];
      }
    }
    assert lines[..|lines|] == lines;
  }

  /** Skipping `#` lines changes nothing: such a line never starts with a digit, so never matches. */
  lemma {:induction false} CommentSkipRedundant(line: string)
    ensures LineEntry(line) == MatchLine(line)
  {
  }

  /**
   * Lines the anchored pattern rejects: one starting with `#` or with white
   * space, and one that still carries the `\r` of a CRLF line ending.
   */
  lemma {:induction false} RejectedLines(line: string)
    ensures |line| > 0 && (line[0] == '#' || IsSpace(line[0])) ==> MatchLine(line) == None
    ensures MatchLine(line + "\r") == None
  {
    var l := line + "\r";
    if |l| >= 14 {
      assert l[13..][|l| - 14] == '\r';
    }
  }

  /** There are no more transcript lines than non-blank input lines, and each is well formed. */
  lemma {:induction false} TranscriptWellFormed(raw: string)
    ensures |Transcript(raw)| <= |NonBlankLines(raw)|
    ensures forall k :: 0 <= k < |Transcript(raw)| ==> WellFormed(Transcript(raw)[k])
  {
    var lines := NonBlankLines(raw);
    Seqs.FilterMapOrigins(lines, LineEntry);
    var pos := Seqs.FilterMapPositions(lines, LineEntry);
    forall k | 0 <= k < |Transcript(raw)|
      ensures WellFormed(Transcript(raw)[k])
    {
      assert LineEntry(lines[pos[k]]) == Some(Transcript(raw)[k]);
    }
  }

  /**
   * The lines the parser's loop produces come from distinct lines of its
   * input, in input order, and every matching line contributes one.
   */
  lemma {:induction false} ParseLinesOrigins(lines: seq<string>)
    ensures var r := Seqs.FilterMap(lines, LineEntry);
      var pos := Seqs.FilterMapPositions(lines, LineEntry);
      && |pos| == |r|
      && (forall k :: 0 <= k < |r| ==> pos[k] < |lines| && MatchLine(lines[pos[k]]) == Some(r[k]))
      && (forall k, l :: 0 <= k < l < |r| ==> pos[k] < pos[l])
      && (forall i :: 0 <= i < |lines| && MatchLine(lines[i]).Some? ==> i in pos)
  {
    Seqs.FilterMapOrigins(lines, LineEntry);
    forall i | 0 <= i < |lines|
      ensures LineEntry(lines[i]) == MatchLine(lines[i])
    {
      CommentSkipRedundant(lines[i]);
    }
  }

  /** A transcript line as written in a raw transcript: the time, a space, the text. */
  function Render(e: TranscriptLine): string {
    e.time + " " + e.text
  }

  function RenderAll(es: seq<TranscriptLine>): string {
    Join(Seqs.Map(es, Render), "\n")
  }

  lemma {:induction false} RenderParses(e: TranscriptLine)
    requires WellFormed(e)
    ensures LineEntry(Render(e)) == Some(e)
    ensures Trim(Render(e)) != [] && '\n' !in Render(e)
  {
    var l := Render(e);
    assert l == e.time + [' '] + e.text;
    assert l[0] == e.time[0];
    assert !IsSpace(l[0]);
    MatchLineExact(l, e.time, ' ', e.text);
    assert '\n' !in l by {
      forall k | 0 <= k < |l|
        ensures l[k] != '\n'
      {
        if k >= 13 {
          assert l[k] == e.text[k - 13];
        }
      }
    }
  }

  /** Parsing the rendering of well-formed transcript lines gives them back. */
  lemma {:induction false} RenderRoundTrip(es: seq<TranscriptLine>)
    requires forall k :: 0 <= k < |es| ==> WellFormed(es[k])
    ensures Transcript(RenderAll(es)) == es
  {
    if es == [] {
      assert RenderAll(es) == "";
      assert Split("", '\n') == [""];
      assert NonBlankLines("") == [];
      return;
    }
    var lines := Seqs.Map(es, Render);
    forall k | 0 <= k < |es|
      ensures LineEntry(Render(es[k])) == Some(es[k])
      ensures Trim(lines[k]) != [] && '\n' !in lines[k]
    {
      RenderParses(es[k]);
    }
    JoinSplit(lines, '\n');
    assert RenderAll(es) == Join(lines, ['\n']);
    Seqs.FilterAll(lines, l => Trim(l) != []);
    Seqs.FilterMapInverse(es, Render, LineEntry);
  }

  // ----------------------------------------------------------- formatTime

  /** `n.toString().padStart(2, '0')`. */
  function TwoDigits(n: nat): (r: string)
    ensures |r| >= 2 && AllDigits(r) && DigitsValue(r) == n
  {
    var s := NatToString(n);
    NatToStringValue(n);
    NatToStringLength(n);
    var r := PadStart(s, 2, '0');
    assert |s| == 1 ==> r == "0" + s by {
      if |s| == 1 {
        assert r[1..] == s;
        LeadingZeroValue(s);
      }
    }
    r
  }

  /** `formatTime(seconds)` for a whole, non-negative number of seconds. */
  function FormatTime(seconds: nat): (r: string)
    ensures |r| >= 8
  {
    Clock(seconds / 3600, seconds % 3600 / 60, seconds % 60)
  }

  /** The template `${hh}:${mm}:${ss}`. */
  function Clock(hours: nat, minutes: nat, secs: nat): string {
    TwoDigits(hours) + ":" + TwoDigits(minutes) + ":" + TwoDigits(secs)
  }

  /** Reading `H:M:S` back as a number of seconds. */
  function ClockValue(parts: seq<string>): Option<nat> {
    if |parts| == 3 && AllDigits(parts[0]) && AllDigits(parts[1]) && AllDigits(parts[2]) then
      Some(DigitsValue(parts[0]) * 3600 + DigitsValue(parts[1]) * 60 + DigitsValue(parts[2]))
    else None
  }

  lemma DigitsNoColon(s: string)
    requires AllDigits(s)
    ensures ':' !in s
  {
  }

  lemma {:induction false} TwoDigitsLength(n: nat)
    ensures |TwoDigits(n)| == 2 <==> n < 100
  {
    NatToStringLength(n);
  }

  /** The hours, minutes and seconds fields describe the same number of seconds. */
  lemma {:induction false} ClockFields(seconds: nat)
    ensures seconds % 3600 / 60 < 60 && seconds % 60 < 60
    ensures seconds == seconds / 3600 * 3600 + seconds % 3600 / 60 * 60 + seconds % 60
    ensures seconds / 3600 < 100 <==> seconds < 360000
  {
    var h, r := seconds / 3600, seconds % 3600;
    var m, x := r / 60, r % 60;
    assert seconds == h * 3600 + r && 0 <= r < 3600;
    assert r == m * 60 + x && 0 <= x < 60;
    assert seconds == (h * 60 + m) * 60 + x;
    assert seconds % 60 == x;
    if h < 100 {
      assert h * 3600 <= 99 * 3600;
    } else {
      assert h * 3600 >= 100 * 3600;
    }
  }

  lemma {:induction false} SplitThree(h: string, m: string, s: string)
    requires ':' !in h && ':' !in m && ':' !in s
    ensures Split(h + ":" + m + ":" + s, ':') == [h, m, s]
  {
    var parts := [h, m, s];
    assert parts[1..] == [m, s];
    assert [m, s][1..] == [s];
    assert Join([m, s], [':']) == m + [':'] + s;
    assert Join(parts, [':']) == h + ":" + m + ":" + s;
    JoinSplit(parts, ':');
  }

  /** The three fields of a clock rendering split apart again at the colons. */
  lemma {:induction false} ClockSplit(hours: nat, minutes: nat, secs: nat)
    ensures Split(Clock(hours, minutes, secs), ':') == [TwoDigits(hours), TwoDigits(minutes), TwoDigits(secs)]
  {
    var h, m, s := TwoDigits(hours), TwoDigits(minutes), TwoDigits(secs);
    DigitsNoColon(h);
    DigitsNoColon(m);
    DigitsNoColon(s);
    SplitThree(h, m, s);
  }

  lemma {:induction false} ClockValueOf(h: string, m: string, s: string)
    requires AllDigits(h) && AllDigits(m) && AllDigits(s)
    ensures ClockValue([h, m, s]) == Some(DigitsValue(h) * 3600 + DigitsValue(m) * 60 + DigitsValue(s))
  {
    var parts := [h, m, s];
    assert parts[0] == h && parts[1] == m && parts[2] == s;
  }

  lemma {:induction false} ClockValueTotal(hours: nat, minutes: nat, secs: nat, total: nat)
    requires total == hours * 3600 + minutes * 60 + secs
    ensures ClockValue([TwoDigits(hours), TwoDigits(minutes), TwoDigits(secs)]) == Some(total)
  {
    ClockValueOf(TwoDigits(hours), TwoDigits(minutes), TwoDigits(secs));
  }

  /**
   * The rendering has three colon-separated fields: hours (two digits or
   * more), minutes and seconds (exactly two digits, below 60), and reading
   * them back gives the original number of seconds.
   */
  lemma {:induction false} FormatTimeRoundTrip(seconds: nat)
    ensures var parts := Split(FormatTime(seconds), ':');
      && |parts| == 3 && |parts[0]| >= 2 && |parts[1]| == 2 && |parts[2]| == 2
      && AllDigits(parts[0]) && AllDigits(parts[1]) && AllDigits(parts[2])
      && DigitsValue(parts[1]) < 60 && DigitsValue(parts[2]) < 60
      && ClockValue(parts) == Some(seconds)
  {
    var h, m, s := seconds / 3600, seconds % 3600 / 60, seconds % 60;
    ClockFields(seconds);
    var hh, mm, ss := TwoDigits(h), TwoDigits(m), TwoDigits(s);
    ClockSplit(h, m, s);
    TwoDigitsLength(m);
    TwoDigitsLength(s);
    ClockValueTotal(h, m, s, seconds);
    assert Split(FormatTime(seconds), ':') == [hh, mm, ss];
  }

  /** The rendering is exactly `HH:MM:SS` (eight characters) below 100 hours. */
  lemma {:induction false} FormatTimeLength(seconds: nat)
    ensures |FormatTime(seconds)| == 8 <==> seconds < 360000
  {
    var h, m, s := seconds / 3600, seconds % 3600 / 60, seconds % 60;
    ClockFields(seconds);
    TwoDigitsLength(h);
    TwoDigitsLength(m);
    TwoDigitsLength(s);
  }
}
