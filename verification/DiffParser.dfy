/** The unified-diff line tracker. */
module DiffParser {
  import opened Text

  datatype Parsed<T> = Good(value: T) | BadHeader(line: string)

  datatype ChangedLines = ChangedLines(before: set<int>, after: set<int>)

  /** Line counters, whether a hunk has been entered, and the lines collected so far. */
  datatype Tracker = Tracker(oldLine: int, newLine: int, inHunk: bool, lines: ChangedLines)

  const MAX_INT: nat := 0x7FFF_FFFF_FFFF_FFFF
  const NO_NEWLINE := "\\ No newline at end of file"

  /** strconv.Atoi on a run of digits. */
  function Atoi(digits: string): (n: int)
    requires AllDigits(digits)
    ensures n >= -1
  {
    if DecimalValue(digits) <= MAX_INT then DecimalValue(digits) else -1
  }

  function AfterPrefix(s: string, prefix: string): string
    requires HasPrefix(s, prefix)
  {
    s[|prefix|..]
  }

  /** What follows an optional line count. */
  function AfterCount(s: string): string {
    if s != "" && s[0] == ',' && DigitRun(s[1..]) > 0 then s[1..][DigitRun(s[1..])..] else s
  }

  /** The two start lines of a hunk header, or nothing if the line does not match the pattern or a number overflows. */
  function HeaderOf(line: string): (starts: seq<int>)
    ensures starts == [] || |starts| == 2
  {
    if !HasPrefix(line, "@@ -") then []
    else
      var a := AfterPrefix(line, "@@ -");
      var k := DigitRun(a);
      var b := AfterCount(a[k..]);
      if k == 0 || !HasPrefix(b, " +") then []
      else
        var c := AfterPrefix(b, " +");
        var m := DigitRun(c);
        if m == 0 || !HasPrefix(AfterCount(c[m..]), " @@") then []
        else if Atoi(a[..k]) < 0 || Atoi(c[..m]) < 0 then []
        else [Atoi(a[..k]), Atoi(c[..m])]
  }

  predicate Digits(s: string) {
    s != "" && AllDigits(s)
  }

  predicate OptionalCount(s: string) {
    s == "" || (s[0] == ',' && Digits(s[1..]))
  }

  /** What the header pattern asks for: both starts, each with or without a count, between the marks. */
  ghost predicate HeaderForm(line: string, d: string, e: string) {
    && Digits(d) && Digits(e)
    && exists c, f, rest :: OptionalCount(c) && OptionalCount(f) && line == "@@ -" + (d + (c + (" +" + (e + (f + (" @@" + rest))))))
  }

  /** After a number and its optional count comes a space: the number, the count and the rest are read back. */
  lemma NumberRead(d: string, c: string, tail: string)
    requires Digits(d) && OptionalCount(c) && tail != "" && tail[0] == ' '
    ensures DigitRun(d + (c + tail)) == |d| && (d + (c + tail))[..|d|] == d && AfterCount((d + (c + tail))[|d|..]) == tail
  {
    hide DigitRun, AfterCount;
    NoDigitFirst(c, tail);
    DigitRunPrefix(d, c + tail);
    CountSkipped(c, tail);
  }

  lemma NoDigitFirst(c: string, tail: string)
    requires OptionalCount(c) && tail != "" && tail[0] == ' '
    ensures c + tail != "" && !IsDigit((c + tail)[0])
  {
  }

  lemma CountSkipped(c: string, tail: string)
    requires OptionalCount(c) && tail != "" && tail[0] == ' '
    ensures AfterCount(c + tail) == tail
  {
    hide DigitRun;
    if c == "" {
      assert c + tail == tail;
    } else {
      assert (c + tail)[1..] == c[1..] + tail;
      DigitRunPrefix(c[1..], tail);
    }
  }

  /** And nothing else is read as a number with a count. */
  lemma CountSplit(s: string) returns (c: string)
    ensures OptionalCount(c) && s == c + AfterCount(s)
  {
    if s != "" && s[0] == ',' && DigitRun(s[1..]) > 0 {
      c := s[..1 + DigitRun(s[1..])];
      assert c[1..] == s[1..][..DigitRun(s[1..])];
    } else {
      c := "";
    }
  }

  lemma PrefixSplit(s: string, prefix: string)
    requires HasPrefix(s, prefix)
    ensures s == prefix + AfterPrefix(s, prefix)
  {
  }

  /** A line is a header exactly if it has the form, and its two starts are small enough for the counter. */
  lemma HeaderExactly(line: string, d: string, e: string)
    requires HeaderForm(line, d, e)
    ensures HeaderOf(line) == if DecimalValue(d) <= MAX_INT && DecimalValue(e) <= MAX_INT
                              then [DecimalValue(d) as int, DecimalValue(e) as int] else []
  {
    hide AfterCount, DigitRun, Digits, OptionalCount, DecimalValue;
    var c, f, rest :| OptionalCount(c) && OptionalCount(f) &&
                      line == "@@ -" + (d + (c + (" +" + (e + (f + (" @@" + rest))))));
    var tail := e + (f + (" @@" + rest));
    var a := d + (c + (" +" + tail));
    AfterOwnPrefix("@@ -", a);
    NumberRead(d, c, " +" + tail);
    AfterOwnPrefix(" +", tail);
    NumberRead(e, f, " @@" + rest);
    AfterOwnPrefix(" @@", rest);
    DigitsOnly(d);
    DigitsOnly(e);
  }

  lemma DigitsOnly(d: string)
    requires Digits(d)
    ensures d != "" && AllDigits(d)
  {
  }

  lemma AfterOwnPrefix(prefix: string, rest: string)
    ensures HasPrefix(prefix + rest, prefix) && AfterPrefix(prefix + rest, prefix) == rest
  {
    assert (prefix + rest)[..|prefix|] == prefix;
  }

  /** What the first half of a header leaves for the second, or the second for the section. */
  lemma HalfHeader(s: string, mark: string) returns (d: string, c: string)
    requires DigitRun(s) > 0 && HasPrefix(AfterCount(s[DigitRun(s)..]), mark)
    ensures d == s[..DigitRun(s)] && Digits(d) && OptionalCount(c)
    ensures s == d + (c + (mark + AfterPrefix(AfterCount(s[DigitRun(s)..]), mark)))
  {
    hide AfterCount, DigitRun;
    d := s[..DigitRun(s)];
    c := CountSplit(s[DigitRun(s)..]);
    PrefixSplit(AfterCount(s[DigitRun(s)..]), mark);
    assert s == d + s[DigitRun(s)..];
  }

  /** A line that is read as a header has the form. */
  lemma HeaderHasForm(line: string) returns (d: string, e: string)
    requires HeaderOf(line) != []
    ensures HeaderForm(line, d, e)
  {
    hide AfterCount, DigitRun, Atoi, Digits, OptionalCount;
    PrefixSplit(line, "@@ -");
    var a := AfterPrefix(line, "@@ -");
    var c, f;
    d, c := HalfHeader(a, " +");
    var g := AfterPrefix(AfterCount(a[DigitRun(a)..]), " +");
    e, f := HalfHeader(g, " @@");
    var rest := AfterPrefix(AfterCount(g[DigitRun(g)..]), " @@");
    assert line == "@@ -" + (d + (c + (" +" + (e + (f + (" @@" + rest))))));
  }

  function Track(t: Tracker, line: string): Parsed<Tracker> {
    if HasPrefix(line, "@@") then
      if HeaderOf(line) == [] then BadHeader(line)
      else Good(t.(oldLine := HeaderOf(line)[0], newLine := HeaderOf(line)[1], inHunk := true))
    else if !t.inHunk || HasPrefix(line, NO_NEWLINE) then Good(t)
    else if HasPrefix(line, "+") then
      Good(t.(newLine := t.newLine + 1, lines := t.lines.(after := t.lines.after + {t.newLine})))
    else if HasPrefix(line, "-") then
      Good(t.(oldLine := t.oldLine + 1, lines := t.lines.(before := t.lines.before + {t.oldLine})))
    else Good(t.(oldLine := t.oldLine + 1, newLine := t.newLine + 1))
  }

  function TrackAll(t: Tracker, lines: seq<string>): Parsed<Tracker> {
    if lines == [] then Good(t)
    else
      var rest := TrackAll(t, lines[..|lines| - 1]);
      if rest.Good? then Track(rest.value, lines[|lines| - 1]) else rest
  }

  const START := Tracker(0, 0, false, ChangedLines({}, {}))

  function Parse(diff: string): Parsed<ChangedLines> {
    if TrimSpace(diff) == "" then Good(ChangedLines({}, {}))
    else
      var t := TrackAll(START, Split(diff, '\n'));
      if t.Good? then Good(t.value.lines) else BadHeader(t.line)
  }

  method ParseChangedLines(diff: string) returns (result: Parsed<ChangedLines>)
    ensures result == Parse(diff)
  {
    hide HeaderOf;
    var before: set<int>, after: set<int> := {}, {};
    if TrimSpace(diff) == "" {
      return Good(ChangedLines(before, after));
    }
    var oldLine, newLine, inHunk := 0, 0, false;
    var lines := Split(diff, '\n');
    var i := 0;
    while i < |lines|
      invariant 0 <= i <= |lines|
      invariant TrackAll(START, lines[..i]) == Good(Tracker(oldLine, newLine, inHunk, ChangedLines(before, after)))
    {
      var line := lines[i];
      TrackStep(START, lines, i);
      i := i + 1;
      if HasPrefix(line, "@@") {
        var matches := HeaderOf(line);
        if matches == [] {
          FirstError(START, lines, i);
          return BadHeader(line);
        }
        oldLine, newLine, inHunk := matches[0], matches[1], true;
        continue;
      }
      if !inHunk || HasPrefix(line, "\\ No newline at end of file") {
        continue;
      }
      if HasPrefix(line, "+") {
        after := after + {newLine};
        newLine := newLine + 1;
      } else if HasPrefix(line, "-") {
        before := before + {oldLine};
        oldLine := oldLine + 1;
      } else {
        oldLine, newLine := oldLine + 1, newLine + 1;
      }
    }
    assert lines[..|lines|] == lines;
    result := Good(ChangedLines(before, after));
  }

  lemma TrackStep(t: Tracker, lines: seq<string>, i: nat)
    requires i < |lines| && TrackAll(t, lines[..i]).Good?
    ensures TrackAll(t, lines[..i + 1]) == Track(TrackAll(t, lines[..i]).value, lines[i])
  {
    hide Track;
    assert lines[..i + 1][..i] == lines[..i];
  }

  lemma {:induction false} FirstError(t: Tracker, lines: seq<string>, i: nat)
    requires i <= |lines| && TrackAll(t, lines[..i]).BadHeader?
    ensures TrackAll(t, lines) == TrackAll(t, lines[..i])
  {
    hide Track;
    if i == |lines| {
      assert lines[..i] == lines;
    } else {
      assert lines[..|lines| - 1][..i] == lines[..i];
      FirstError(t, lines[..|lines| - 1], i);
    }
  }

  lemma {:induction false} TrackConcat(t: Tracker, a: seq<string>, b: seq<string>)
    requires TrackAll(t, a).Good?
    ensures TrackAll(t, a + b) == TrackAll(TrackAll(t, a).value, b)
  {
    hide Track;
    if b == [] {
      assert a + b == a;
    } else {
      assert (a + b)[..|a + b| - 1] == a + b[..|b| - 1];
      TrackConcat(t, a, b[..|b| - 1]);
    }
  }

  /** Parsing fails exactly when some line starts like a header without being one. */
  lemma FailsOnBadHeader(diff: string)
    ensures Parse(diff).BadHeader? <==>
            exists line :: line in Split(diff, '\n') && HasPrefix(line, "@@") && HeaderOf(line) == []
    ensures Parse(diff).BadHeader? ==>
              Parse(diff).line in Split(diff, '\n') && HasPrefix(Parse(diff).line, "@@") && HeaderOf(Parse(diff).line) == []
  {
    hide HeaderOf, IsSpace;
    TrackFails(START, Split(diff, '\n'));
    if TrimSpace(diff) == "" {
      TrimSpaceFacts(diff);
      forall line | line in Split(diff, '\n') ensures !HasPrefix(line, "@@") {
        if line != "" {
          SplitKeeps(diff, '\n', line, line[0]);
          assert line[0] in diff && IsSpace(line[0]);
          AtIsVisible();
        }
      }
    }
  }

  lemma AtIsVisible()
    ensures !IsSpace('@')
  {
  }

  lemma {:induction false} TrackFails(t: Tracker, lines: seq<string>)
    ensures TrackAll(t, lines).BadHeader? <==> exists line :: line in lines && HasPrefix(line, "@@") && HeaderOf(line) == []
    ensures TrackAll(t, lines).BadHeader? ==>
              TrackAll(t, lines).line in lines && HasPrefix(TrackAll(t, lines).line, "@@") && HeaderOf(TrackAll(t, lines).line) == []
  {
    hide HeaderOf;
    if lines != [] {
      var n := |lines| - 1;
      TrackFails(t, lines[..n]);
      assert lines == lines[..n] + [lines[n]];
      if line :| line in lines[..n] && HasPrefix(line, "@@") && HeaderOf(line) == [] {
        assert line in lines;
      }
    }
  }

  lemma {:induction false} SplitKeeps(s: string, sep: char, line: string, c: char)
    requires line in Split(s, sep) && c in line
    ensures c in s
  {
    if s != "" {
      var rest := Split(s[1..], sep);
      if s[0] == sep {
        assert line in rest;
        SplitKeeps(s[1..], sep, line, c);
      } else if line in rest[1..] {
        assert line in rest;
        SplitKeeps(s[1..], sep, line, c);
      } else if c != s[0] {
        assert line == [s[0]] + rest[0];
        SplitKeeps(s[1..], sep, rest[0], c);
      }
    }
  }

  // ---- printing, by "Diff -u or -U Output Format" of the POSIX.1-2017 diff utility ----

  datatype Edit = Context(text: string) | Delete(text: string) | Insert(text: string) | NoNewlineMark

  datatype Hunk = Hunk(oldStart: nat, newStart: nat, edits: seq<Edit>, section: string)

  function EditLine(e: Edit): string {
    match e
    case Context(text) => " " + text
    case Delete(text) => "-" + text
    case Insert(text) => "+" + text
    case NoNewlineMark => NO_NEWLINE
  }

  function OldCount(edits: seq<Edit>): nat {
    if edits == [] then 0
    else OldCount(edits[..|edits| - 1]) + if edits[|edits| - 1].Context? || edits[|edits| - 1].Delete? then 1 else 0
  }

  function NewCount(edits: seq<Edit>): nat {
    if edits == [] then 0
    else NewCount(edits[..|edits| - 1]) + if edits[|edits| - 1].Context? || edits[|edits| - 1].Insert? then 1 else 0
  }

  /** A range: the start, and the number of lines unless it is one. */
  function Range(start: nat, count: nat): string {
    if count == 1 then Decimal(start) else Decimal(start) + "," + Decimal(count)
  }

  function HeaderLine(h: Hunk): string {
    "@@ -" + Range(h.oldStart, OldCount(h.edits)) + " +" + Range(h.newStart, NewCount(h.edits)) + " @@" + h.section
  }

  function EditLines(edits: seq<Edit>): (lines: seq<string>)
    ensures |lines| == |edits| && forall k :: 0 <= k < |edits| ==> lines[k] == EditLine(edits[k])
  {
    seq(|edits|, k requires 0 <= k < |edits| => EditLine(edits[k]))
  }

  function HunkLines(hunks: seq<Hunk>): seq<string> {
    if hunks == [] then []
    else
      var h := hunks[|hunks| - 1];
      HunkLines(hunks[..|hunks| - 1]) + [HeaderLine(h)] + EditLines(h.edits)
  }

  /** File headers, the hunks, and the newline that ends the last line. */
  function Print(preamble: seq<string>, hunks: seq<Hunk>): string {
    Join(preamble + HunkLines(hunks) + [""], '\n')
  }

  predicate OneLine(s: string) {
    '\n' !in s
  }

  predicate EditOk(e: Edit) {
    e.NoNewlineMark? || OneLine(e.text)
  }

  predicate HunkOk(h: Hunk) {
    && h.oldStart <= MAX_INT && h.newStart <= MAX_INT && OneLine(h.section)
    && forall e :: e in h.edits ==> EditOk(e)
  }

  predicate PreambleOk(preamble: seq<string>) {
    forall line :: line in preamble ==> OneLine(line) && !HasPrefix(line, "@@")
  }

  /** Old line numbers a hunk deletes: the k-th edit, if it is a deletion, deletes the line after the old lines before it. */
  ghost predicate DeletesIn(start: int, edits: seq<Edit>, n: int) {
    exists k :: 0 <= k < |edits| && edits[k].Delete? && n == start + OldCount(edits[..k])
  }

  ghost predicate InsertsIn(start: int, edits: seq<Edit>, n: int) {
    exists k :: 0 <= k < |edits| && edits[k].Insert? && n == start + NewCount(edits[..k])
  }

  ghost predicate Deletes(hunks: seq<Hunk>, n: int) {
    exists h :: h in hunks && DeletesIn(h.oldStart, h.edits, n)
  }

  ghost predicate Inserts(hunks: seq<Hunk>, n: int) {
    exists h :: h in hunks && InsertsIn(h.newStart, h.edits, n)
  }

  // ---- reading a printed header ----

  lemma CountRead(count: nat, tail: string)
    requires tail != "" && tail[0] == ' '
    ensures AfterCount("," + Decimal(count) + tail) == tail && AfterCount(tail) == tail
  {
    hide DigitRun, Decimal;
    var rest := "," + Decimal(count) + tail;
    assert rest[1..] == Decimal(count) + tail;
    DigitRunPrefix(Decimal(count), tail);
  }

  lemma RangeRead(start: nat, count: nat, tail: string)
    requires tail != "" && tail[0] == ' '
    ensures var s := Range(start, count) + tail;
            DigitRun(s) == |Decimal(start)| > 0 && s[..DigitRun(s)] == Decimal(start) && AfterCount(s[DigitRun(s)..]) == tail
  {
    hide DigitRun, Decimal, AfterCount, AllDigits;
    var rest := if count == 1 then tail else "," + Decimal(count) + tail;
    assert Range(start, count) + tail == Decimal(start) + rest;
    DigitRunPrefix(Decimal(start), rest);
    CountRead(count, tail);
  }

  lemma HeaderRead(h: Hunk)
    requires h.oldStart <= MAX_INT && h.newStart <= MAX_INT
    ensures HeaderOf(HeaderLine(h)) == [h.oldStart, h.newStart] && HasPrefix(HeaderLine(h), "@@")
  {
    hide DigitRun, Decimal, AfterCount, Range, OldCount, NewCount, DecimalValue;
    var end := " @@" + h.section;
    var newPart := Range(h.newStart, NewCount(h.edits)) + end;
    var tail := " +" + newPart;
    var a := Range(h.oldStart, OldCount(h.edits)) + tail;
    var line := HeaderLine(h);
    assert line == "@@ -" + a;
    assert AfterPrefix(line, "@@ -") == a;
    RangeRead(h.oldStart, OldCount(h.edits), tail);
    RangeRead(h.newStart, NewCount(h.edits), end);
    assert AfterPrefix(tail, " +") == newPart;
    DecimalRoundTrip(h.oldStart);
    DecimalRoundTrip(h.newStart);
  }

  // ---- reading a printed hunk ----

  function DeletedIn(start: int, edits: seq<Edit>): set<int> {
    if edits == [] then {}
    else
      var n := |edits| - 1;
      DeletedIn(start, edits[..n]) + if edits[n].Delete? then {start + OldCount(edits[..n])} else {}
  }

  function InsertedIn(start: int, edits: seq<Edit>): set<int> {
    if edits == [] then {}
    else
      var n := |edits| - 1;
      InsertedIn(start, edits[..n]) + if edits[n].Insert? then {start + NewCount(edits[..n])} else {}
  }

  /** What one printed line of a hunk does to the counters and the collected lines. */
  function Effect(t: Tracker, e: Edit): Tracker {
    match e
    case Context(_) => t.(oldLine := t.oldLine + 1, newLine := t.newLine + 1)
    case Delete(_) => t.(oldLine := t.oldLine + 1, lines := t.lines.(before := t.lines.before + {t.oldLine}))
    case Insert(_) => t.(newLine := t.newLine + 1, lines := t.lines.(after := t.lines.after + {t.newLine}))
    case NoNewlineMark => t
  }

  function Advanced(t: Tracker, edits: seq<Edit>): Tracker {
    Tracker(t.oldLine + OldCount(edits), t.newLine + NewCount(edits), t.inHunk,
            ChangedLines(t.lines.before + DeletedIn(t.oldLine, edits), t.lines.after + InsertedIn(t.newLine, edits)))
  }

  lemma AdvancedStep(t: Tracker, edits: seq<Edit>)
    requires edits != []
    ensures Effect(Advanced(t, edits[..|edits| - 1]), edits[|edits| - 1]) == Advanced(t, edits)
  {
    var n := |edits| - 1;
    var d, i := DeletedIn(t.oldLine, edits[..n]), InsertedIn(t.newLine, edits[..n]);
    var o, w := t.oldLine + OldCount(edits[..n]), t.newLine + NewCount(edits[..n]);
    assert t.lines.before + d + {o} == t.lines.before + (d + {o});
    assert t.lines.after + i + {w} == t.lines.after + (i + {w});
    assert d + {} == d && i + {} == i;
  }

  lemma {:induction false} EditsRead(t: Tracker, edits: seq<Edit>)
    requires t.inHunk
    ensures TrackAll(t, EditLines(edits)) == Good(Advanced(t, edits))
  {
    hide Track, EditLine, Effect;
    if edits == [] {
      assert EditLines(edits) == [];
      assert t.lines.before + {} == t.lines.before && t.lines.after + {} == t.lines.after;
    } else {
      var n := |edits| - 1;
      EditsRead(t, edits[..n]);
      assert EditLines(edits)[..n] == EditLines(edits[..n]);
      EditRead(Advanced(t, edits[..n]), edits[n]);
      AdvancedStep(t, edits);
    }
  }

  lemma EditRead(t: Tracker, e: Edit)
    requires t.inHunk
    ensures Track(t, EditLine(e)) == Good(Effect(t, e))
  {
    hide HeaderOf;
    var line := EditLine(e);
    assert line[0] == match e case Context(_) => ' ' case Delete(_) => '-' case Insert(_) => '+' case NoNewlineMark => '\\';
    assert NO_NEWLINE[0] == '\\' && "@@"[0] == '@' && "+"[0] == '+' && "-"[0] == '-';
    FirstDecides(line, "@@");
    FirstDecides(line, NO_NEWLINE);
    OneCharPrefix(line, '+');
    OneCharPrefix(line, '-');
    if e.NoNewlineMark? {
      assert line[..|NO_NEWLINE|] == NO_NEWLINE;
    }
  }

  lemma FirstDecides(s: string, prefix: string)
    requires s != "" && prefix != ""
    ensures HasPrefix(s, prefix) ==> s[0] == prefix[0]
  {
    if HasPrefix(s, prefix) {
      assert s[..|prefix|][0] == s[0];
    }
  }

  lemma OneCharPrefix(s: string, c: char)
    requires s != ""
    ensures HasPrefix(s, [c]) <==> s[0] == c
  {
    assert s[..1] == [s[0]];
  }

  function AllDeleted(hunks: seq<Hunk>): set<int> {
    if hunks == [] then {}
    else AllDeleted(hunks[..|hunks| - 1]) + DeletedIn(hunks[|hunks| - 1].oldStart, hunks[|hunks| - 1].edits)
  }

  function AllInserted(hunks: seq<Hunk>): set<int> {
    if hunks == [] then {}
    else AllInserted(hunks[..|hunks| - 1]) + InsertedIn(hunks[|hunks| - 1].newStart, hunks[|hunks| - 1].edits)
  }

  function BlockLines(h: Hunk): seq<string> {
    [HeaderLine(h)] + EditLines(h.edits)
  }

  lemma HunkLinesStep(hunks: seq<Hunk>)
    requires hunks != []
    ensures HunkLines(hunks) == HunkLines(hunks[..|hunks| - 1]) + BlockLines(hunks[|hunks| - 1])
  {
    hide HeaderLine, EditLine;
  }

  function Collected(lines: ChangedLines, hunks: seq<Hunk>): ChangedLines {
    ChangedLines(lines.before + AllDeleted(hunks), lines.after + AllInserted(hunks))
  }

  lemma CollectedStep(lines: ChangedLines, hunks: seq<Hunk>)
    ensures Collected(lines, []) == lines
    ensures hunks != [] ==>
              var h := hunks[|hunks| - 1]; var mid := Collected(lines, hunks[..|hunks| - 1]);
              Collected(lines, hunks) ==
              ChangedLines(mid.before + DeletedIn(h.oldStart, h.edits), mid.after + InsertedIn(h.newStart, h.edits))
  {
    hide DeletedIn, InsertedIn;
  }

  lemma {:induction false} HunksRead(t: Tracker, hunks: seq<Hunk>)
    requires forall h :: h in hunks ==> HunkOk(h)
    ensures TrackAll(t, HunkLines(hunks)).Good?
    ensures TrackAll(t, HunkLines(hunks)).value.lines == Collected(t.lines, hunks)
  {
    hide BlockLines, HunkOk, Track, DeletedIn, InsertedIn, Collected;
    CollectedStep(t.lines, hunks);
    if hunks != [] {
      var init, h := hunks[..|hunks| - 1], hunks[|hunks| - 1];
      HunksRead(t, init);
      HunkRead(TrackAll(t, HunkLines(init)).value, h);
      TrackConcat(t, HunkLines(init), BlockLines(h));
      HunkLinesStep(hunks);
    }
  }

  lemma HunkRead(t: Tracker, h: Hunk)
    requires HunkOk(h)
    ensures TrackAll(t, BlockLines(h)).Good?
    ensures TrackAll(t, BlockLines(h)).value.lines ==
            ChangedLines(t.lines.before + DeletedIn(h.oldStart, h.edits), t.lines.after + InsertedIn(h.newStart, h.edits))
  {
    hide HeaderOf, HeaderLine, EditLine, DeletedIn, InsertedIn;
    HeaderRead(h);
    var header := [HeaderLine(h)];
    assert header[..0] == [];
    var entered := t.(oldLine := h.oldStart, newLine := h.newStart, inHunk := true);
    assert TrackAll(t, header) == Good(entered);
    TrackConcat(t, header, EditLines(h.edits));
    EditsRead(entered, h.edits);
  }

  // ---- the round trip ----

  lemma {:induction false} PreambleRead(preamble: seq<string>)
    requires PreambleOk(preamble)
    ensures TrackAll(START, preamble) == Good(START)
  {
    hide HeaderOf;
    if preamble != [] {
      PreambleRead(preamble[..|preamble| - 1]);
    }
  }

  lemma {:induction false} RangeIsPlain(start: nat, count: nat)
    ensures OneLine(Range(start, count))
  {
    hide Decimal;
    assert !IsDigit('\n');
  }

  lemma HeaderIsPlain(h: Hunk)
    requires OneLine(h.section)
    ensures OneLine(HeaderLine(h)) && '@' in HeaderLine(h)
  {
    hide Range, OldCount, NewCount;
    RangeIsPlain(h.oldStart, OldCount(h.edits));
    RangeIsPlain(h.newStart, NewCount(h.edits));
    assert HeaderLine(h)[0] == '@';
  }

  lemma EditsArePlain(edits: seq<Edit>)
    requires forall e :: e in edits ==> EditOk(e)
    ensures forall line :: line in EditLines(edits) ==> OneLine(line)
  {
    forall line | line in EditLines(edits) ensures OneLine(line) {
      var k :| 0 <= k < |edits| && line == EditLine(edits[k]);
      assert EditOk(edits[k]);
    }
  }

  lemma {:induction false} LinesArePlain(hunks: seq<Hunk>)
    requires forall h :: h in hunks ==> HunkOk(h)
    ensures forall line :: line in HunkLines(hunks) ==> OneLine(line)
    ensures hunks != [] ==> exists line :: line in HunkLines(hunks) && '@' in line
  {
    hide HeaderLine, EditLine, OneLine, EditOk;
    if hunks != [] {
      var n := |hunks| - 1;
      var h := hunks[n];
      assert HunkOk(h);
      LinesArePlain(hunks[..n]);
      HeaderIsPlain(h);
      EditsArePlain(h.edits);
      assert HeaderLine(h) in HunkLines(hunks);
    }
  }

  lemma {:induction false} DeletedInExactly(start: int, edits: seq<Edit>, n: int)
    ensures n in DeletedIn(start, edits) <==> DeletesIn(start, edits, n)
  {
    hide OldCount;
    if edits != [] {
      var last := |edits| - 1;
      var init := edits[..last];
      DeletedInExactly(start, init, n);
      if DeletesIn(start, init, n) {
        var k :| 0 <= k < |init| && init[k].Delete? && n == start + OldCount(init[..k]);
        assert init[..k] == edits[..k];
      }
      if DeletesIn(start, edits, n) {
        var k :| 0 <= k < |edits| && edits[k].Delete? && n == start + OldCount(edits[..k]);
        if k < last { assert init[..k] == edits[..k] && init[k] == edits[k]; }
      }
    }
  }

  lemma {:induction false} InsertedInExactly(start: int, edits: seq<Edit>, n: int)
    ensures n in InsertedIn(start, edits) <==> InsertsIn(start, edits, n)
  {
    hide NewCount;
    if edits != [] {
      var last := |edits| - 1;
      var init := edits[..last];
      InsertedInExactly(start, init, n);
      if InsertsIn(start, init, n) {
        var k :| 0 <= k < |init| && init[k].Insert? && n == start + NewCount(init[..k]);
        assert init[..k] == edits[..k];
      }
      if InsertsIn(start, edits, n) {
        var k :| 0 <= k < |edits| && edits[k].Insert? && n == start + NewCount(edits[..k]);
        if k < last { assert init[..k] == edits[..k] && init[k] == edits[k]; }
      }
    }
  }

  lemma {:induction false} AllExactly(hunks: seq<Hunk>, n: int)
    ensures n in AllDeleted(hunks) <==> Deletes(hunks, n)
    ensures n in AllInserted(hunks) <==> Inserts(hunks, n)
  {
    hide DeletedIn, InsertedIn, DeletesIn, InsertsIn;
    if hunks != [] {
      var last := |hunks| - 1;
      var h := hunks[last];
      AllExactly(hunks[..last], n);
      DeletedInExactly(h.oldStart, h.edits, n);
      InsertedInExactly(h.newStart, h.edits, n);
      assert hunks == hunks[..last] + [h];
    }
  }

  /** Printing hunks and parsing the text gives exactly the numbers of the deleted old and the inserted new lines. */
  lemma RoundTrip(preamble: seq<string>, hunks: seq<Hunk>)
    requires PreambleOk(preamble) && forall h :: h in hunks ==> HunkOk(h)
    ensures var parsed := Parse(Print(preamble, hunks));
            && parsed.Good?
            && (forall n :: n in parsed.value.before <==> Deletes(hunks, n))
            && (forall n :: n in parsed.value.after <==> Inserts(hunks, n))
  {
    hide Track, Deletes, Inserts, Split, Join, HunkLines, AllDeleted, AllInserted, HunkOk;
    var lines := preamble + HunkLines(hunks) + [""];
    LinesArePlain(hunks);
    SplitJoin(lines, '\n');
    PreambleRead(preamble);
    TrackConcat(START, preamble, HunkLines(hunks));
    HunksRead(START, hunks);
    TrackConcat(START, preamble + HunkLines(hunks), [""]);
    LastLineRead(TrackAll(START, preamble + HunkLines(hunks)).value);
    forall n ensures (n in AllDeleted(hunks) <==> Deletes(hunks, n)) && (n in AllInserted(hunks) <==> Inserts(hunks, n)) {
      AllExactly(hunks, n);
    }
    if hunks != [] {
      PrintedIsVisible(preamble, hunks);
    } else {
      NothingChanged();
    }
  }

  lemma NothingChanged()
    ensures AllDeleted([]) == {} && AllInserted([]) == {}
  {
  }

  lemma LastLineRead(t: Tracker)
    ensures TrackAll(t, [""]).Good? && TrackAll(t, [""]).value.lines == t.lines
  {
    assert [""][..0] == [];
  }

  lemma PrintedIsVisible(preamble: seq<string>, hunks: seq<Hunk>)
    requires hunks != [] && forall h :: h in hunks ==> HunkOk(h)
    ensures TrimSpace(Print(preamble, hunks)) != ""
  {
    hide HunkLines, HunkOk, IsSpace;
    LinesArePlain(hunks);
    var line :| line in HunkLines(hunks) && '@' in line;
    var lines := preamble + HunkLines(hunks) + [""];
    JoinKeeps(lines, '\n', line, '@');
    TrimSpaceFacts(Print(preamble, hunks));
    AtIsVisible();
  }
}
