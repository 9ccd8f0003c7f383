/**
 Lyric subtitles: the lines worth showing, evenly spread cues over exact time, and the SRT text
 with a reader that recovers what was written.
 */
module Subtitles {
  import opened Decimal

  const MAX_LYRIC_LINES: nat := 200

  // ---- split_lyric_lines ----

  /** Line boundaries of Python's `str.splitlines`. */
  predicate IsBreak(c: char) {
    c == '\n' || c == '\r' || c == '\U{0B}' || c == '\U{0C}' || c == '\U{1C}' || c == '\U{1D}' || c == '\U{1E}'
    || c == '\U{85}' || c == '\U{2028}' || c == '\U{2029}'
  }

  /** Whitespace of Python's `str.strip`. */
  predicate IsSpace(c: char) {
    IsBreak(c) || c == ' ' || c == '\t' || c == '\U{1F}' || c == '\U{A0}' || c == '\U{1680}'
    || '\U{2000}' <= c <= '\U{200A}' || c == '\U{202F}' || c == '\U{205F}' || c == '\U{3000}'
  }

  /** Finished lines and the line being read. The empty line inside "\r\n" is dropped with the blank ones. */
  function Scan(s: string): (seq<string>, string) {
    if s == "" then ([], "")
    else
      var (lines, current) := Scan(s[..|s| - 1]);
      var c := s[|s| - 1];
      if IsBreak(c) then (lines + [current], "") else (lines, current + [c])
  }

  function SplitLines(s: string): seq<string> {
    var (lines, last) := Scan(s);
    if last == "" then lines else lines + [last]
  }

  function Strip(s: string): (r: string)
    ensures r != "" ==> !IsSpace(r[0]) && !IsSpace(r[|r| - 1])
    ensures forall c :: c in r ==> c in s
    decreases |s|
  {
    if s == "" then ""
    else if IsSpace(s[0]) then Strip(s[1..])
    else if IsSpace(s[|s| - 1]) then Strip(s[..|s| - 1])
    else s
  }

  /** Shown lines are not blank and no [Section] mark. */
  predicate Shown(line: string) {
    line != "" && !(line[0] == '[' && line[|line| - 1] == ']')
  }

  function ShownLines(raw: seq<string>): seq<string> {
    if raw == [] then []
    else
      var rest := ShownLines(raw[..|raw| - 1]);
      var line := Strip(raw[|raw| - 1]);
      if Shown(line) then rest + [line] else rest
  }

  function Capped(lines: seq<string>): seq<string> {
    if |lines| <= MAX_LYRIC_LINES then lines else lines[..MAX_LYRIC_LINES]
  }

  method SplitLyricLines(lyrics: string) returns (lines: seq<string>)
    ensures lines == ShownLyrics(lyrics)
  {
    lines := [];
    var raw := SplitLines(lyrics);
    var i := 0;
    while i < |raw|
      invariant 0 <= i <= |raw|
      invariant lines == ShownLines(raw[..i]) && |lines| < MAX_LYRIC_LINES
    {
      assert raw[..i + 1][..i] == raw[..i];
      var line := Strip(raw[i]);
      i := i + 1;
      if line == "" {
        continue;
      }
      if line[0] == '[' && line[|line| - 1] == ']' {
        continue;
      }
      lines := lines + [line];
      if |lines| >= MAX_LYRIC_LINES {
        ShownGrows(raw, i);
        return;
      }
    }
    assert raw[..i] == raw;
  }

  lemma {:induction false} ShownGrows(raw: seq<string>, i: nat)
    requires i <= |raw|
    ensures ShownLines(raw[..i]) <= ShownLines(raw)
    decreases |raw|
  {
    if i == |raw| {
      assert raw[..i] == raw;
    } else {
      assert raw[..|raw| - 1][..i] == raw[..i];
      ShownGrows(raw[..|raw| - 1], i);
    }
  }

  ghost predicate OneLine(s: string) { forall c :: c in s ==> !IsBreak(c) }

  lemma {:induction false} ScannedLinesHaveNoBreaks(s: string)
    ensures forall l :: l in Scan(s).0 ==> OneLine(l)
    ensures OneLine(Scan(s).1)
  {
    if s != "" { ScannedLinesHaveNoBreaks(s[..|s| - 1]); }
  }

  lemma {:induction false} ShownLinesAreClean(raw: seq<string>)
    requires forall l :: l in raw ==> OneLine(l)
    ensures forall l :: l in ShownLines(raw) ==> OneLine(l) && Shown(l) && !IsSpace(l[0]) && !IsSpace(l[|l| - 1])
  {
    if raw != [] {
      ShownLinesAreClean(raw[..|raw| - 1]);
    }
  }

  /** What the writer receives: at most 200 trimmed one-line texts. */
  lemma LyricLinesAreClean(lyrics: string)
    ensures var lines := Capped(ShownLines(SplitLines(lyrics)));
            |lines| <= MAX_LYRIC_LINES && forall l :: l in lines ==> OneLine(l) && Shown(l)
  {
    ScannedLinesHaveNoBreaks(lyrics);
    ShownLinesAreClean(SplitLines(lyrics));
  }

  // ---- cues ----

  datatype Cue = Cue(start: real, end: real, text: string)

  function Slot(n: nat, duration: real): real
    requires n > 0
  {
    if duration / n as real < 0.5 then 0.5 else duration / n as real
  }

  function CueFrom(text: string, i: nat, per: real, duration: real): Cue {
    var end := (i + 1) as real * per;
    Cue(i as real * per, if end < duration then end else duration, text)
  }

  function CueAt(lines: seq<string>, duration: real, i: nat): Cue
    requires i < |lines|
  {
    CueFrom(lines[i], i, Slot(|lines|, duration), duration)
  }

  function Cues(lines: seq<string>, duration: real): (cs: seq<Cue>)
    ensures |cs| == |lines| && forall i :: 0 <= i < |cs| ==> cs[i] == CueAt(lines, duration, i)
  {
    seq(|lines|, i requires 0 <= i < |lines| => CueAt(lines, duration, i))
  }

  /** Non-empty cues cover [0, duration] without gap or overlap. */
  ghost predicate Tiles(cs: seq<Cue>, duration: real) {
    && |cs| > 0 && cs[0].start == 0.0 && cs[|cs| - 1].end == duration
    && (forall i :: 0 <= i < |cs| ==> cs[i].start < cs[i].end)
    && (forall i :: 0 <= i < |cs| - 1 ==> cs[i].end == cs[i + 1].start)
  }

  lemma SlotTimesCount(n: nat, duration: real)
    requires n > 0 && duration / n as real >= 0.5
    ensures n as real * Slot(n, duration) == duration
  {
  }

  lemma ProductGrows(a: nat, b: nat, per: real)
    requires per > 0.0
    ensures a < b ==> a as real * per < b as real * per
    ensures a <= b ==> a as real * per <= b as real * per
  {
    if a < b {
      assert b as real * per == a as real * per + (b - a) as real * per;
      assert (b - a) as real * per >= per by {
        assert (b - a) as real >= 1.0;
      }
    }
  }

  function Edge(n: nat, duration: real, i: nat): real
    requires n > 0
  {
    i as real * Slot(n, duration)
  }

  /** Long enough audio: a cue runs from its edge to the next. */
  lemma EvenSlot(lines: seq<string>, duration: real, i: nat)
    requires i < |lines| && duration > 0.0 && duration / |lines| as real >= 0.5
    ensures var c := CueAt(lines, duration, i);
            && c.start == Edge(|lines|, duration, i) && c.end == Edge(|lines|, duration, i + 1)
            && c.start < c.end
    ensures Edge(|lines|, duration, |lines|) == duration
  {
    var n, per := |lines|, Slot(|lines|, duration);
    SlotTimesCount(n, duration);
    ProductGrows(i, i + 1, per);
    ProductGrows(i + 1, n, per);
  }

  lemma EvenSlotsTile(lines: seq<string>, duration: real)
    requires |lines| > 0 && duration > 0.0 && duration / |lines| as real >= 0.5
    ensures Tiles(Cues(lines, duration), duration)
  {
    var cs := Cues(lines, duration);
    forall i | 0 <= i < |cs|
      ensures cs[i].start == Edge(|lines|, duration, i) && cs[i].end == Edge(|lines|, duration, i + 1)
      ensures cs[i].start < cs[i].end
    {
      EvenSlot(lines, duration, i);
    }
    EvenSlot(lines, duration, 0);
    assert Edge(|lines|, duration, 0) == 0.0;
  }

  lemma HalfSecondSlot(n: nat, duration: real)
    requires n > 0 && 2.0 * duration < n as real
    ensures duration / n as real < 0.5 && Slot(n, duration) == 0.5
  {
    if duration / n as real >= 0.5 {
      assert duration == duration / n as real * n as real;
      ProductAtLeastHalf(duration / n as real, n as real);
    }
  }

  lemma ProductAtLeastHalf(q: real, n: real)
    requires q >= 0.5 && n > 0.0
    ensures q * n >= 0.5 * n
  {
  }

  lemma EnoughForEvenSlots(n: nat, duration: real)
    requires n > 0 && 2.0 * duration >= n as real
    ensures duration / n as real >= 0.5
  {
    assert duration == duration / n as real * n as real;
  }

  /**
   The half-second floor breaks the tiling exactly when it pushes the last cue past the end:
   the cues tile the audio if and only if it lasts longer than half a second per preceding line.
   */
  lemma CuesTileIff(lines: seq<string>, duration: real)
    requires |lines| > 0 && duration > 0.0
    ensures Tiles(Cues(lines, duration), duration) <==> 2.0 * duration > (|lines| - 1) as real
  {
    var n := |lines|;
    var cs := Cues(lines, duration);
    if 2.0 * duration >= n as real {
      EnoughForEvenSlots(n, duration);
      EvenSlotsTile(lines, duration);
    } else {
      HalfSecondSlot(n, duration);
      assert cs[n - 1] == CueAt(lines, duration, n - 1);
      if 2.0 * duration > (n - 1) as real {
        assert forall i :: 0 <= i < n ==> cs[i].start == i as real * 0.5;
        assert forall i :: 0 <= i < n - 1 ==> cs[i].end == (i + 1) as real * 0.5;
      }
    }
  }

  // ---- time stamps ----

  /** Python's `round`: to the nearest integer, ties to the even one. */
  function RoundHalfEven(x: real): int {
    var f := x.Floor;
    var d := x - f as real;
    if d < 0.5 then f else if d > 0.5 then f + 1 else if f % 2 == 0 then f else f + 1
  }

  function Millis(seconds: real): nat {
    if seconds < 0.0 then 0
    else
      RoundIsNear(seconds * 1000.0);
      RoundHalfEven(seconds * 1000.0)
  }

  lemma RoundIsNear(x: real)
    ensures x - 0.5 <= RoundHalfEven(x) as real <= x + 0.5
    ensures x >= 0.0 ==> RoundHalfEven(x) >= 0
  {
  }

  /** A stamp is the nearest millisecond, the even one when two are equally near. */
  lemma StampIsNearest(seconds: real)
    requires seconds >= 0.0
    ensures var m := Millis(seconds);
            && -0.5 <= m as real - seconds * 1000.0 <= 0.5
            && (m as real - seconds * 1000.0 == 0.5 || m as real - seconds * 1000.0 == -0.5 ==> m % 2 == 0)
  {
  }

  /** Later times never get an earlier stamp. */
  lemma MillisMonotone(a: real, b: real)
    requires a <= b
    ensures Millis(a) <= Millis(b)
  {
    if a >= 0.0 { RoundMonotone(a * 1000.0, b * 1000.0); }
  }

  lemma RoundMonotone(x: real, y: real)
    requires x <= y
    ensures RoundHalfEven(x) <= RoundHalfEven(y)
  {
    if x.Floor < y.Floor {
      assert RoundHalfEven(x) <= x.Floor + 1 <= y.Floor <= RoundHalfEven(y);
    }
  }

  datatype Clock = Clock(hours: nat, minutes: nat, seconds: nat, millis: nat)

  function ClockOf(ms: nat): (c: Clock)
    ensures c.minutes < 60 && c.seconds < 60 && c.millis < 1000
    ensures ((c.hours * 60 + c.minutes) * 60 + c.seconds) * 1000 + c.millis == ms
  {
    var minute := ms % 3_600_000;
    Clock(ms / 3_600_000, minute / 60_000, minute % 60_000 / 1000, minute % 60_000 % 1000)
  }

  function Stamp(ms: nat): string {
    var c := ClockOf(ms);
    Padded(c.hours, 2) + ":" + Padded(c.minutes, 2) + ":" + Padded(c.seconds, 2) + "," + Padded(c.millis, 3)
  }

  // ---- writing ----

  function EscapeChar(c: char): char { if c == '{' then '(' else if c == '}' then ')' else c }

  function Escape(s: string): (r: string)
    ensures |r| == |s| && forall i :: 0 <= i < |s| ==> r[i] == EscapeChar(s[i])
  {
    seq(|s|, i requires 0 <= i < |s| => EscapeChar(s[i]))
  }

  function CueText(number: nat, c: Cue): string {
    var times := Stamp(Millis(c.start)) + " --> " + Stamp(Millis(c.end));
    NatText(number) + "\n" + times + "\n" + Escape(c.text) + "\n" + "\n"
  }

  function FileText(number: nat, cs: seq<Cue>): string
    decreases |cs|
  {
    if cs == [] then "" else CueText(number, cs[0]) + FileText(number + 1, cs[1..])
  }

  /** What is written so far plus what is left to write. */
  function Progress(text: string, lines: seq<string>, duration: real, i: nat): string
    requires i <= |lines|
  {
    text + FileText(i + 1, Cues(lines, duration)[i..])
  }

  lemma BlockWritten(text: string, lines: seq<string>, duration: real, i: nat)
    requires i < |lines|
    ensures Progress(text, lines, duration, i) ==
            Progress(text + CueText(i + 1, CueAt(lines, duration, i)), lines, duration, i + 1)
  {
    var cs := Cues(lines, duration);
    assert cs[i..][0] == CueAt(lines, duration, i) && cs[i..][1..] == cs[i + 1..];
  }

  lemma AllWritten(text: string, lines: seq<string>, duration: real)
    ensures Progress(text, lines, duration, |lines|) == text
    ensures Progress("", lines, duration, 0) == FileText(1, Cues(lines, duration))
  {
    assert Cues(lines, duration)[0..] == Cues(lines, duration);
  }

  method WriteSrt(lines: seq<string>, duration: real) returns (text: string)
    ensures text == FileText(1, Cues(lines, duration))
  {
    text := "";
    if lines == [] {
      return;
    }
    var per := Slot(|lines|, duration);
    AllWritten(text, lines, duration);
    var i := 0;
    while i < |lines|
      invariant 0 <= i <= |lines|
      invariant Progress(text, lines, duration, i) == FileText(1, Cues(lines, duration))
    {
      var cue := CueFrom(lines[i], i, per, duration);
      BlockWritten(text, lines, duration, i);
      text := text + CueText(i + 1, cue);
      i := i + 1;
    }
    AllWritten(text, lines, duration);
  }

  // ---- reading ----

  datatype Entry = Entry(number: nat, startMs: nat, endMs: nat, text: string)

  function Before(s: string, c: char): string {
    if s == "" || s[0] == c then "" else [s[0]] + Before(s[1..], c)
  }

  /** What follows the first `c`. */
  function Behind(s: string, c: char): (r: string)
    ensures c in s ==> |r| < |s|
  {
    if s == "" then "" else if s[0] == c then s[1..] else Behind(s[1..], c)
  }

  function ReadStamp(s: string): nat {
    var h, a := NatValue(Before(s, ':')), Behind(s, ':');
    var m, b := NatValue(Before(a, ':')), Behind(a, ':');
    var sec, ms := NatValue(Before(b, ',')), NatValue(Behind(b, ','));
    ((h * 60 + m) * 60 + sec) * 1000 + ms
  }

  function Drop(s: string, n: nat): string { if n <= |s| then s[n..] else "" }

  /** Reads block by block: number, stamps, text, blank line. */
  function Read(s: string): seq<Entry>
    decreases |s|
  {
    if '\n' !in s then []
    else
      var a := Behind(s, '\n');
      var b := Behind(a, '\n');
      var c := Behind(b, '\n');
      var rest := Behind(c, '\n');
      var times := Before(a, '\n');
      ShorterBehind(a); ShorterBehind(b); ShorterBehind(c);
      var from, to := ReadStamp(Before(times, ' ')), ReadStamp(Drop(Behind(times, ' '), 4));
      [Entry(NatValue(Before(s, '\n')), from, to, Before(b, '\n'))] + Read(rest)
  }

  lemma ShorterBehind(s: string)
    ensures |Behind(s, '\n')| <= |s|
  {
    if s != "" && s[0] != '\n' { ShorterBehind(s[1..]); }
  }

  lemma {:induction false} FieldSplits(field: string, c: char, rest: string)
    requires c !in field
    ensures Before(field + [c] + rest, c) == field && Behind(field + [c] + rest, c) == rest
  {
    if field == "" {
      assert field + [c] + rest == [c] + rest;
    } else {
      FieldSplits(field[1..], c, rest);
      assert (field + [c] + rest)[1..] == field[1..] + [c] + rest;
    }
  }

  lemma DigitsExclude(s: string, c: char)
    requires AllDigits(s) && !IsDigit(c)
    ensures c !in s
  {
  }

  predicate Plain(s: string) { ':' !in s && ',' !in s && ' ' !in s && '\n' !in s }

  lemma DigitsArePlain(s: string)
    requires AllDigits(s)
    ensures Plain(s)
  {
    DigitsExclude(s, ':');
    DigitsExclude(s, ',');
    DigitsExclude(s, ' ');
    DigitsExclude(s, '\n');
  }

  function Joined(h: string, m: string, s: string, x: string): string { h + ":" + m + ":" + s + "," + x }

  lemma JoinedIsNested(h: string, m: string, s: string, x: string)
    ensures Joined(h, m, s, x) == h + [':'] + (m + [':'] + (s + [','] + x))
  {
  }

  lemma JoinedHasNoSpace(h: string, m: string, s: string, x: string)
    requires Plain(h) && Plain(m) && Plain(s) && Plain(x)
    ensures '\n' !in Joined(h, m, s, x) && ' ' !in Joined(h, m, s, x)
  {
  }

  lemma FieldsReadBack(h: string, m: string, s: string, x: string)
    requires Plain(h) && Plain(m) && Plain(s) && Plain(x)
    ensures ReadStamp(Joined(h, m, s, x)) == ((NatValue(h) * 60 + NatValue(m)) * 60 + NatValue(s)) * 1000 + NatValue(x)
  {
    var b := s + [','] + x;
    var a := m + [':'] + b;
    JoinedIsNested(h, m, s, x);
    FieldSplits(h, ':', a);
    FieldSplits(m, ':', b);
    FieldSplits(s, ',', x);
  }

  lemma StampRoundTrip(ms: nat)
    ensures ReadStamp(Stamp(ms)) == ms
    ensures '\n' !in Stamp(ms) && ' ' !in Stamp(ms)
  {
    var c := ClockOf(ms);
    var h, m, s, x := Padded(c.hours, 2), Padded(c.minutes, 2), Padded(c.seconds, 2), Padded(c.millis, 3);
    DigitsArePlain(h);
    DigitsArePlain(m);
    DigitsArePlain(s);
    DigitsArePlain(x);
    assert Stamp(ms) == Joined(h, m, s, x);
    FieldsReadBack(h, m, s, x);
    JoinedHasNoSpace(h, m, s, x);
    PaddedRoundTrip(c.hours, 2);
    PaddedRoundTrip(c.minutes, 2);
    PaddedRoundTrip(c.seconds, 2);
    PaddedRoundTrip(c.millis, 3);
  }

  lemma TimesRoundTrip(from: nat, to: nat)
    ensures var times := Stamp(from) + " --> " + Stamp(to);
            && ReadStamp(Before(times, ' ')) == from && ReadStamp(Drop(Behind(times, ' '), 4)) == to
            && '\n' !in times
  {
    StampRoundTrip(from);
    StampRoundTrip(to);
    ArrowSplits(Stamp(from), Stamp(to));
  }

  lemma ArrowSplits(a: string, b: string)
    requires ' ' !in a && '\n' !in a && '\n' !in b
    ensures var times := a + " --> " + b;
            Before(times, ' ') == a && Drop(Behind(times, ' '), 4) == b && '\n' !in times
  {
    assert a + " --> " + b == a + [' '] + ("--> " + b);
    FieldSplits(a, ' ', "--> " + b);
    assert Drop("--> " + b, 4) == b;
  }

  function EntryOf(number: nat, c: Cue): Entry {
    Entry(number, Millis(c.start), Millis(c.end), Escape(c.text))
  }

  lemma BlockFieldsReadBack(number: string, times: string, text: string, rest: string)
    requires '\n' !in number && '\n' !in times && '\n' !in text
    ensures Read(number + ['\n'] + (times + ['\n'] + (text + ['\n'] + (['\n'] + rest)))) ==
            [Entry(NatValue(number), ReadStamp(Before(times, ' ')), ReadStamp(Drop(Behind(times, ' '), 4)), text)]
            + Read(rest)
  {
    var third := text + ['\n'] + (['\n'] + rest);
    var second := times + ['\n'] + third;
    var s := number + ['\n'] + second;
    FieldSplits(number, '\n', second);
    FieldSplits(times, '\n', third);
    FieldSplits(text, '\n', ['\n'] + rest);
    assert Behind(['\n'] + rest, '\n') == rest;
    assert s[|number|] == '\n';
  }

  lemma BlockIsNested(n: string, times: string, text: string, rest: string)
    ensures n + "\n" + times + "\n" + text + "\n" + "\n" + rest ==
            n + ['\n'] + (times + ['\n'] + (text + ['\n'] + (['\n'] + rest)))
  {
  }

  lemma BlockReadsBack(number: nat, c: Cue, rest: string)
    requires OneLine(c.text)
    ensures Read(CueText(number, c) + rest) == [EntryOf(number, c)] + Read(rest)
  {
    var n, times, text := NatText(number), Stamp(Millis(c.start)) + " --> " + Stamp(Millis(c.end)), Escape(c.text);
    TimesRoundTrip(Millis(c.start), Millis(c.end));
    NatRoundTrip(number);
    DigitsExclude(n, '\n');
    EscapeKeepsOneLine(c.text);
    BlockIsNested(n, times, text, rest);
    BlockFieldsReadBack(n, times, text, rest);
  }

  lemma EscapeKeepsOneLine(s: string)
    requires OneLine(s)
    ensures '\n' !in Escape(s)
  {
    forall i | 0 <= i < |s| ensures Escape(s)[i] != '\n' {
      assert s[i] in s;
    }
  }

  function Entries(number: nat, cs: seq<Cue>): (es: seq<Entry>)
    ensures |es| == |cs| && forall i :: 0 <= i < |cs| ==> es[i] == EntryOf(number + i, cs[i])
    decreases |cs|
  {
    if cs == [] then [] else [EntryOf(number, cs[0])] + Entries(number + 1, cs[1..])
  }

  ghost predicate TextsOneLine(cs: seq<Cue>) { forall i :: 0 <= i < |cs| ==> OneLine(cs[i].text) }

  /** Reading the written file recovers every number, both millisecond stamps and the escaped line. */
  lemma {:induction false} SrtRoundTrip(number: nat, cs: seq<Cue>)
    requires TextsOneLine(cs)
    ensures Read(FileText(number, cs)) == Entries(number, cs)
    decreases |cs|
  {
    if cs != [] {
      SrtRoundTrip(number + 1, cs[1..]);
      BlockReadsBack(number, cs[0], FileText(number + 1, cs[1..]));
    }
  }

  /** Where the cues tile the audio, the printed stamps do as well. */
  lemma StampsTile(lines: seq<string>, duration: real)
    requires |lines| > 0 && duration > 0.0 && 2.0 * duration > (|lines| - 1) as real
    ensures var cs := Cues(lines, duration);
            && Millis(cs[0].start) == 0 && Millis(cs[|cs| - 1].end) == Millis(duration)
            && (forall i :: 0 <= i < |cs| ==> Millis(cs[i].start) <= Millis(cs[i].end))
            && (forall i :: 0 <= i < |cs| - 1 ==> Millis(cs[i].end) == Millis(cs[i + 1].start))
  {
    var cs := Cues(lines, duration);
    CuesTileIff(lines, duration);
    forall i | 0 <= i < |cs| ensures Millis(cs[i].start) <= Millis(cs[i].end) {
      MillisMonotone(cs[i].start, cs[i].end);
    }
  }

  ghost predicate StampsInOrder(es: seq<Entry>, end: nat) {
    && |es| > 0 && es[0].startMs == 0 && es[|es| - 1].endMs == end
    && (forall i :: 0 <= i < |es| ==> es[i].startMs <= es[i].endMs)
    && (forall i :: 0 <= i < |es| - 1 ==> es[i].endMs == es[i + 1].startMs)
  }

  ghost predicate NumberedTexts(es: seq<Entry>, lines: seq<string>) {
    |es| == |lines| && forall i :: 0 <= i < |es| ==> es[i].number == i + 1 && es[i].text == Escape(lines[i])
  }

  function ShownLyrics(lyrics: string): seq<string> { Capped(ShownLines(SplitLines(lyrics))) }

  lemma EntriesTile(lines: seq<string>, duration: real)
    requires |lines| > 0 && duration > 0.0 && 2.0 * duration > (|lines| - 1) as real
    ensures StampsInOrder(Entries(1, Cues(lines, duration)), Millis(duration))
  {
    var cs := Cues(lines, duration);
    var es := Entries(1, cs);
    StampsTile(lines, duration);
    forall i | 0 <= i < |es| ensures es[i].startMs == Millis(cs[i].start) && es[i].endMs == Millis(cs[i].end) {
      assert es[i] == EntryOf(1 + i, cs[i]);
    }
  }

  lemma CleanLinesReadBack(lines: seq<string>, duration: real)
    requires forall i :: 0 <= i < |lines| ==> OneLine(lines[i])
    ensures Read(FileText(1, Cues(lines, duration))) == Entries(1, Cues(lines, duration))
    ensures NumberedTexts(Entries(1, Cues(lines, duration)), lines)
  {
    var cs := Cues(lines, duration);
    assert TextsOneLine(cs) by {
      forall i | 0 <= i < |cs| ensures OneLine(cs[i].text) { assert cs[i] == CueAt(lines, duration, i); }
    }
    SrtRoundTrip(1, cs);
  }

  /** What lyrics of any text become when written and read back, stamps in order. */
  lemma LyricsReadBack(lyrics: string, duration: real)
    requires duration > 0.0
    ensures var lines := ShownLyrics(lyrics);
            var es := Read(FileText(1, Cues(lines, duration)));
            && NumberedTexts(es, lines)
            && (|lines| > 0 && 2.0 * duration > (|lines| - 1) as real ==> StampsInOrder(es, Millis(duration)))
  {
    LyricLinesAreClean(lyrics);
    var lines := ShownLyrics(lyrics);
    CleanLinesReadBack(lines, duration);
    if |lines| > 0 && 2.0 * duration > (|lines| - 1) as real {
      EntriesTile(lines, duration);
    }
  }

  // ---- which lines are shown ----

  const LINE_ENDS := "\n\r\U{0B}\U{0C}\U{1C}\U{1D}\U{1E}\U{85}\U{2028}\U{2029}"

  /** Every line end of Python's `splitlines` separates two lines. */
  lemma LineEndSeparates(a: string, c: char, b: string)
    requires OneLine(a) && OneLine(b) && b != "" && c in LINE_ENDS
    ensures SplitLines(a + [c] + b) == [a, b]
  {
    ScanOf("", a);
    assert "" + a == a;
    var t := a + [c];
    assert t[..|t| - 1] == a;
    ScanOf(t, b);
    assert "" + b == b;
  }

  lemma BreakEnds(t: string, c: char)
    requires IsBreak(c)
    ensures Scan(t + [c]) == (Scan(t).0 + [Scan(t).1], "")
  {
    assert (t + [c])[..|t + [c]| - 1] == t;
  }

  lemma WindowsLinesSplit(a: string, b: string)
    requires OneLine(a) && OneLine(b) && b != ""
    ensures SplitLines(a + ['\r'] + ['\n'] + b) == [a] + [""] + [b]
  {
    ScanOf("", a);
    assert "" + a == a && "" + b == b;
    BreakEnds(a, '\r');
    BreakEnds(a + ['\r'], '\n');
    ScanOf(a + ['\r'] + ['\n'], b);
  }

  /** Windows line ends separate like any other: the empty line between the two characters is not shown. */
  lemma WindowsLinesShown(a: string, b: string)
    requires OneLine(a) && OneLine(b) && b != ""
    ensures ShownLines(SplitLines(a + ['\r'] + ['\n'] + b)) == ShownLines([a]) + ShownLines([b])
  {
    WindowsLinesSplit(a, b);
    ShownInOrder([a] + [""], [b]);
    ShownInOrder([a], [""]);
    OneLineShown("");
  }

  /** Spaces, tabs and line ends in front are dropped, visible characters at the ends are not. */
  lemma StripDropsSpaces(c: char, s: string)
    requires c == ' ' || c == '\t' || c == '\U{A0}' || c == '\U{3000}' || c in LINE_ENDS
    ensures Strip([c] + s) == Strip(s)
  {
    assert ([c] + s)[1..] == s;
  }

  lemma StripKeepsVisible(s: string)
    requires s != "" && '!' <= s[0] <= '~' && '!' <= s[|s| - 1] <= '~'
    ensures Strip(s) == s
  {
  }

  predicate AllSpace(s: string) { forall c :: c in s ==> IsSpace(c) }

  lemma OneMoreInFront(s: string, before: string, mid: string, after: string)
    requires s != "" && s[1..] == before + mid + after
    ensures s == [s[0]] + before + mid + after
  {
  }

  lemma OneMoreBehind(s: string, before: string, mid: string, after: string)
    requires s != "" && s[..|s| - 1] == before + mid + after
    ensures s == before + mid + (after + [s[|s| - 1]])
  {
  }

  /** Stripping takes exactly the spaces at both ends. */
  lemma {:induction false} StripTakesEnds(s: string) returns (before: string, after: string)
    ensures s == before + Strip(s) + after && AllSpace(before) && AllSpace(after)
    decreases |s|
  {
    if s == "" {
      before, after := "", "";
    } else if IsSpace(s[0]) {
      before, after := StripTakesEnds(s[1..]);
      OneMoreInFront(s, before, Strip(s[1..]), after);
      before := [s[0]] + before;
    } else if IsSpace(s[|s| - 1]) {
      before, after := StripTakesEnds(s[..|s| - 1]);
      OneMoreBehind(s, before, Strip(s[..|s| - 1]), after);
      after := after + [s[|s| - 1]];
    } else {
      before, after := "", "";
    }
  }

  /** A line is kept, stripped, unless it is blank or one section mark; lines keep their order. */
  lemma OneLineShown(raw: string)
    ensures ShownLines([raw]) ==
            if Strip(raw) == "" || (Strip(raw)[0] == '[' && Strip(raw)[|Strip(raw)| - 1] == ']') then []
            else [Strip(raw)]
  {
    assert [raw][..0] == [];
    assert ShownLines([]) == [];
  }

  lemma OneMoreShown(a: seq<string>, line: string)
    ensures ShownLines(a + [line]) == ShownLines(a) + ShownLines([line])
  {
    assert (a + [line])[..|a|] == a;
    OneLineShown(line);
  }

  lemma {:induction false} ShownInOrder(a: seq<string>, b: seq<string>)
    ensures ShownLines(a + b) == ShownLines(a) + ShownLines(b)
    decreases |b|
  {
    if b == [] {
      assert a + b == a;
    } else {
      var n := |b| - 1;
      ShownInOrder(a, b[..n]);
      OneMoreShown(a + b[..n], b[n]);
      OneMoreShown(b[..n], b[n]);
      assert a + b == (a + b[..n]) + [b[n]] && b == b[..n] + [b[n]];
    }
  }

  /** Of more than 200 shown lines the first 200 are written. */
  lemma FirstTwoHundred(lyrics: string)
    ensures var all := ShownLines(SplitLines(lyrics));
            ShownLyrics(lyrics) == if |all| > 200 then all[..200] else all
  {
  }

  function Below(lines: seq<string>): string {
    if lines == [] then "" else Below(lines[..|lines| - 1]) + lines[|lines| - 1] + "\n"
  }

  lemma {:induction false} ScanOf(s: string, line: string)
    requires OneLine(line)
    ensures Scan(s + line) == (Scan(s).0, Scan(s).1 + line)
    decreases |line|
  {
    if line == "" {
      assert s + line == s && Scan(s).1 + line == Scan(s).1;
    } else {
      var n := |line| - 1;
      ScanOf(s, line[..n]);
      var t := s + line;
      assert t[..|t| - 1] == s + line[..n] && t[|t| - 1] == line[n];
      assert line[n] in line && line == line[..n] + [line[n]];
      assert Scan(s).1 + line[..n] + [line[n]] == Scan(s).1 + line;
    }
  }

  lemma EndOfLine(t: string)
    ensures Scan(t + "\n") == (Scan(t).0 + [Scan(t).1], "")
  {
    assert (t + "\n")[..|t + "\n"| - 1] == t;
  }

  /** Lines written one below the other are found again. */
  lemma {:induction false} LinesAreFound(lines: seq<string>)
    requires forall i :: 0 <= i < |lines| ==> OneLine(lines[i])
    ensures Scan(Below(lines)) == (lines, "") && SplitLines(Below(lines)) == lines
  {
    if lines != [] {
      var n := |lines| - 1;
      var s := Below(lines[..n]);
      LinesAreFound(lines[..n]);
      ScanOf(s, lines[n]);
      var t := s + lines[n];
      assert "" + lines[n] == lines[n];
      EndOfLine(t);
      assert Below(lines) == t + "\n";
      assert lines == lines[..n] + [lines[n]];
    }
  }

  /** A last line without its own line end is found as well. */
  lemma LastLineIsFound(lines: seq<string>, last: string)
    requires (forall i :: 0 <= i < |lines| ==> OneLine(lines[i])) && OneLine(last)
    ensures SplitLines(Below(lines) + last) == if last == "" then lines else lines + [last]
  {
    LinesAreFound(lines);
    ScanOf(Below(lines), last);
    assert "" + last == last;
  }

  /** No brace reaches the file, and no other character is touched. */
  lemma NoBracesWritten(s: string, i: nat)
    requires i < |s|
    ensures |Escape(s)| == |s| && Escape(s)[i] != '{' && Escape(s)[i] != '}'
    ensures s[i] == '{' ==> Escape(s)[i] == '('
    ensures s[i] == '}' ==> Escape(s)[i] == ')'
    ensures s[i] != '{' && s[i] != '}' ==> Escape(s)[i] == s[i]
  {
  }

  /** Below a hundred hours a stamp has the form hh:mm:ss,mmm. */
  lemma StampForm(ms: nat)
    requires ms < 360_000_000
    ensures var t := Stamp(ms); |t| == 12 && t[2] == ':' && t[5] == ':' && t[8] == ','
  {
    var c := ClockOf(ms);
    TwoDigits(c.hours);
    TwoDigits(c.minutes);
    TwoDigits(c.seconds);
    ThreeDigits(c.millis);
  }

  lemma TwoDigits(n: nat)
    requires n < 100
    ensures |Padded(n, 2)| == 2
  {
    if n >= 10 { assert |NatText(n / 10)| == 1; }
  }

  lemma ThreeDigits(n: nat)
    requires n < 1000
    ensures |Padded(n, 3)| == 3
  {
    if n >= 100 {
      assert |NatText(n / 10 / 10)| == 1;
      assert |NatText(n / 10)| == 2;
    } else if n >= 10 {
      assert |NatText(n / 10)| == 1;
    }
  }
}
