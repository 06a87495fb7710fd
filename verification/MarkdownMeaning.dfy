/** What makes a line a heading, a fence, a list or a table, and what each block says, read off the characters. */
module MarkdownMeaning {
  import opened Text
  import opened Markdown

  // ---- kinds of lines ----

  /** One to six hashes, white space, and something after it. */
  predicate HeadingForm(line: string) {
    exists n: nat :: n + 2 <= |line| && 1 <= n <= 6 && (forall i :: 0 <= i < n ==> line[i] == '#') && RegexpSpace(line[n])
  }

  /** Behind margins a bullet, or a number with a dot or a parenthesis, and white space after it. */
  predicate ListForm(line: string) {
    exists a: nat, d: nat :: a <= d && d + 2 <= |line| && Marked(line, a, d)
  }

  predicate Marked(line: string, a: nat, d: nat)
    requires a <= d && d + 2 <= |line|
  {
    && (forall i :: 0 <= i < a ==> RegexpSpace(line[i]))
    && (forall i :: a <= i < d ==> '0' <= line[i] <= '9')
    && (if a == d then line[d] == '-' || line[d] == '+' || line[d] == '*' else line[d] == '.' || line[d] == ')')
    && RegexpSpace(line[d + 1])
  }

  /** Two bars at least, and one of them at the margin. */
  predicate TableForm(line: string) {
    var s := TrimSpace(line);
    s != "" && (s[0] == '|' || s[|s| - 1] == '|') && exists i, j :: 0 <= i < j < |s| && s[i] == '|' && s[j] == '|'
  }

  predicate FenceForm(line: string) {
    "```" <= TrimSpace(line)
  }

  predicate LineFits(line: string, kind: LineKind) {
    match kind
    case Blank => AllSpace(line)
    case HeadingLine => !AllSpace(line) && HeadingForm(line)
    case FenceLine => !AllSpace(line) && !HeadingForm(line) && FenceForm(line)
    case ListLine => !AllSpace(line) && !HeadingForm(line) && !FenceForm(line) && ListForm(line)
    case TableLine => !AllSpace(line) && !HeadingForm(line) && !FenceForm(line) && !ListForm(line) && TableForm(line)
    case TextLine => !AllSpace(line) && !HeadingForm(line) && !FenceForm(line) && !ListForm(line) && !TableForm(line)
  }

  lemma {:induction false} HashesAre(line: string)
    ensures forall i :: 0 <= i < Hashes(line) ==> line[i] == '#'
    ensures Hashes(line) < |line| ==> line[Hashes(line)] != '#'
  {
    if line != "" && line[0] == '#' {
      HashesAre(line[1..]);
      forall i | 0 <= i < Hashes(line) ensures line[i] == '#' {
        assert i > 0 ==> line[i] == line[1..][i - 1];
      }
    }
  }

  lemma HeadingHasForm(line: string)
    ensures IsHeading(line) <==> HeadingForm(line)
  {
    hide RegexpSpace;
    HashesAre(line);
    HashIsInk();
    if HeadingForm(line) {
      var n: nat :| n + 2 <= |line| && 1 <= n <= 6 && (forall i :: 0 <= i < n ==> line[i] == '#') && RegexpSpace(line[n]);
      assert n == Hashes(line);
    }
  }

  lemma HashIsInk()
    ensures !RegexpSpace('#')
  {
  }

  lemma {:induction false} SkipSpacesSplits(line: string) returns (a: nat)
    ensures a <= |line| && SkipSpaces(line) == line[a..] && forall i :: 0 <= i < a ==> RegexpSpace(line[i])
    ensures a < |line| ==> !RegexpSpace(line[a])
  {
    hide RegexpSpace;
    if line != "" && RegexpSpace(line[0]) {
      a := SkipSpacesSplits(line[1..]);
      a := a + 1;
      forall i | 0 <= i < a ensures RegexpSpace(line[i]) {
        assert i > 0 ==> line[i] == line[1..][i - 1];
      }
    } else {
      a := 0;
    }
  }

  lemma MarkIsInk(line: string, a: nat, d: nat)
    requires a <= d && d + 2 <= |line| && Marked(line, a, d)
    ensures !RegexpSpace(line[a])
  {
  }

  lemma ListHasForm(line: string)
    ensures IsList(line) <==> ListForm(line)
  {
    hide IsList, ListForm, RegexpSpace;
    if IsList(line) {
      ListIsMarked(line);
    }
    if ListForm(line) {
      MarkedIsList(line);
    }
  }

  lemma ListIsMarked(line: string)
    requires IsList(line)
    ensures ListForm(line)
  {
    hide RegexpSpace;
    var a := SkipSpacesSplits(line);
    var s := SkipSpaces(line);
    var d := DigitRun(s);
    var e := if d > 0 && d + 2 <= |s| && (s[d] == '.' || s[d] == ')') && RegexpSpace(s[d + 1]) then d else 0;
    forall i | a <= i < a + e ensures '0' <= line[i] <= '9' {
      assert line[i] == s[..d][i - a];
      assert s[..d][i - a] in s[..d];
    }
    assert line[a + e] == s[e] && line[a + e + 1] == s[e + 1];
    assert Marked(line, a, a + e);
  }

  lemma MarkedIsList(line: string)
    requires ListForm(line)
    ensures IsList(line)
  {
    hide RegexpSpace, SkipSpaces, DigitRun;
    var a := SkipSpacesSplits(line);
    var s := SkipSpaces(line);
    var b: nat, e: nat :| b <= e && e + 2 <= |line| && Marked(line, b, e);
    MarkIsInk(line, b, e);
    assert a == b;
    var d := e - a;
    assert s[d] == line[e] && s[d + 1] == line[e + 1];
    if d > 0 {
      forall i | 0 <= i < d ensures IsDigit(s[i]) {
        assert s[i] == line[a + i];
      }
      DigitsCounted(s, d);
    }
  }

  lemma DigitsCounted(s: string, d: nat)
    requires d < |s| && (forall i :: 0 <= i < d ==> IsDigit(s[i])) && !IsDigit(s[d])
    ensures DigitRun(s) == d
  {
    assert AllDigits(s[..d]);
    assert s == s[..d] + s[d..];
    DigitRunPrefix(s[..d], s[d..]);
  }

  lemma {:induction false} CountPositive(s: string, c: char)
    ensures Count(s, c) >= 1 <==> exists i :: 0 <= i < |s| && s[i] == c
  {
    if s != "" {
      CountPositive(s[1..], c);
      if i :| 0 <= i < |s| && s[i] == c {
        assert i > 0 ==> s[1..][i - 1] == c;
      }
      if j :| 0 <= j < |s[1..]| && s[1..][j] == c {
        assert s[j + 1] == c;
      }
    }
  }

  lemma {:induction false} CountTwo(s: string, c: char)
    ensures Count(s, c) >= 2 <==> exists i, j :: 0 <= i < j < |s| && s[i] == c && s[j] == c
  {
    if s != "" {
      CountTwo(s[1..], c);
      CountPositive(s[1..], c);
      if i, j :| 0 <= i < j < |s| && s[i] == c && s[j] == c {
        assert s[1..][j - 1] == c;
        assert i > 0 ==> s[1..][i - 1] == c;
      }
      if Count(s, c) >= 2 {
        if s[0] == c {
          var j :| 0 <= j < |s[1..]| && s[1..][j] == c;
          assert s[0] == c && s[j + 1] == c;
        } else {
          var i, j :| 0 <= i < j < |s[1..]| && s[1..][i] == c && s[1..][j] == c;
          assert s[i + 1] == c && s[j + 1] == c;
        }
      }
    }
  }

  lemma TableHasForm(line: string)
    ensures IsTable(line) <==> TableForm(line)
  {
    hide TrimSpace;
    CountTwo(TrimSpace(line), '|');
  }

  lemma FenceHasForm(line: string)
    ensures IsFence(line) <==> FenceForm(line)
  {
    hide TrimSpace;
  }

  /** Every line has the kind its characters give it, and no other. */
  lemma LineKindExactly(line: string, kind: LineKind)
    ensures KindOf(line) == kind <==> LineFits(line, kind)
  {
    hide TrimSpace, IsHeading, IsFence, IsList, IsTable, HeadingForm, FenceForm, ListForm, TableForm, AllSpace;
    TrimSpaceFacts(line);
    HeadingHasForm(line);
    FenceHasForm(line);
    ListHasForm(line);
    TableHasForm(line);
  }

  // ---- lines of a text ----

  datatype Ending = Newline | Return | ReturnNewline

  datatype Line = Line(text: string, ending: Ending)

  function Ended(line: Line): string {
    line.text + match line.ending case Newline => "\n" case Return => "\r" case ReturnNewline => "\r\n"
  }

  /** Lines with their endings, and a last one that has none. */
  function Written(lines: seq<Line>, last: string): string {
    if lines == [] then last else Ended(lines[0]) + Written(lines[1..], last)
  }

  predicate Unbroken(s: string) {
    '\r' !in s && '\n' !in s
  }

  /** A lone carriage return is not taken for half of a pair. */
  predicate Readable(lines: seq<Line>, last: string) {
    && Unbroken(last) && (forall l :: l in lines ==> Unbroken(l.text))
    && forall i :: 0 <= i < |lines| - 1 && lines[i].ending == Return ==> !(lines[i + 1].text == "" && lines[i + 1].ending == Newline)
  }

  function Texts(lines: seq<Line>): (r: seq<string>)
    ensures |r| == |lines| && forall i :: 0 <= i < |lines| ==> r[i] == lines[i].text
  {
    seq(|lines|, i requires 0 <= i < |lines| => lines[i].text)
  }

  lemma {:induction false} NewlinesPass(a: string, b: string)
    requires '\r' !in a
    ensures Newlines(a + b) == a + Newlines(b)
  {
    if a == "" {
      assert a + b == b;
    } else {
      assert a[0] in a && '\r' !in a[1..];
      NewlinesPass(a[1..], b);
      assert (a + b)[1..] == a[1..] + b;
    }
  }

  lemma NewlinesEnding(ending: Ending, rest: string)
    requires ending == Return ==> rest == "" || rest[0] != '\n'
    ensures Newlines((match ending case Newline => "\n" case Return => "\r" case ReturnNewline => "\r\n") + rest) == "\n" + Newlines(rest)
  {
    var e := match ending case Newline => "\n" case Return => "\r" case ReturnNewline => "\r\n";
    var s := e + rest;
    if ending == ReturnNewline {
      assert s[2..] == rest;
    } else {
      assert s[1..] == rest;
    }
  }

  lemma NoNewlineFirst(lines: seq<Line>, last: string)
    requires Readable(lines, last) && (lines != [] ==> !(lines[0].text == "" && lines[0].ending == Newline))
    ensures Written(lines, last) == "" || Written(lines, last)[0] != '\n'
  {
    if lines != [] {
      assert lines[0] in lines;
      var e := Ended(lines[0]);
      assert e[0] != '\n' by {
        if lines[0].text != "" {
          assert e[0] == lines[0].text[0] && e[0] in lines[0].text;
        }
      }
      assert Written(lines, last)[0] == e[0];
    }
  }

  /** However its lines end, a text is read as its lines. */
  lemma {:induction false} LinesAreRead(lines: seq<Line>, last: string)
    requires Readable(lines, last)
    ensures LinesOf(Written(lines, last)) == Texts(lines) + [last]
  {
    hide Newlines, Ended, Split, Unbroken;
    if lines == [] {
      LastLine(last);
      assert Texts(lines) + [last] == [last];
    } else {
      var rest := lines[1..];
      assert Readable(rest, last) by { RestReadable(lines, last); }
      LinesAreRead(rest, last);
      FirstLine(lines, last);
      assert Texts(lines) == [lines[0].text] + Texts(rest);
    }
  }

  lemma RestReadable(lines: seq<Line>, last: string)
    requires lines != [] && Readable(lines, last)
    ensures Readable(lines[1..], last)
  {
    hide Unbroken;
    var rest := lines[1..];
    forall i | 0 <= i < |rest| - 1 && rest[i].ending == Return ensures !(rest[i + 1].text == "" && rest[i + 1].ending == Newline) {
      assert lines[i + 1] == rest[i] && lines[i + 2] == rest[i + 1];
    }
  }

  lemma LastLine(last: string)
    requires Unbroken(last)
    ensures LinesOf(last) == [last]
  {
    NewlinesPass(last, "");
    assert last + "" == last;
    SplitPrefix(last, "", '\n');
    assert Split("", '\n') == [""];
  }

  lemma FirstLine(lines: seq<Line>, last: string)
    requires lines != [] && Readable(lines, last)
    ensures LinesOf(Written(lines, last)) == [lines[0].text] + LinesOf(Written(lines[1..], last))
  {
    hide Newlines, Split;
    var text, rest := lines[0].text, Written(lines[1..], last);
    assert lines[0] in lines;
    var e := match lines[0].ending case Newline => "\n" case Return => "\r" case ReturnNewline => "\r\n";
    assert Written(lines, last) == text + (e + rest);
    NewlinesPass(text, e + rest);
    if lines[0].ending == Return {
      RestReadable(lines, last);
      NoNewlineFirst(lines[1..], last);
    }
    NewlinesEnding(lines[0].ending, rest);
    assert Newlines(Written(lines, last)) == text + ("\n" + Newlines(rest));
    SplitFirst(text, Newlines(rest));
  }

  lemma SplitFirst(text: string, rest: string)
    requires '\n' !in text
    ensures Split(text + ("\n" + rest), '\n') == [text] + Split(rest, '\n')
  {
    var tail := "\n" + rest;
    assert tail[1..] == rest;
    assert Split(tail, '\n') == [""] + Split(rest, '\n');
    SplitPrefix(text, tail, '\n');
    assert text + "" == text;
  }

  // ---- what a block says ----

  /** Kind, level, text and place of the block of a span. */
  predicate BlockFits(lines: seq<string>, s: Span, b: Block)
    requires s.first <= s.last < |lines|
  {
    && (s.kind == HeadingLine ==> b.kind == Heading && HeadingSays(lines[s.first], b.level, b.content))
    && (s.kind == FenceLine ==> b.kind == Code)
    && (s.kind == ListLine ==> b.kind == List)
    && (s.kind == TableLine ==> b.kind == Table)
    && (s.kind == TextLine ==> b.kind == Paragraph)
    && (s.kind != HeadingLine ==> b.level == 0 && b.content == TrimSpace(Join(lines[s.first..s.last + 1], '\n')))
    && b.locator == (if s.first == s.last then "line:" + Decimal(s.first + 1)
                     else "lines:" + Decimal(s.first + 1) + "-" + Decimal(s.last + 1))
  }

  /** The level is the number of hashes; the title is what follows them, trimmed. */
  predicate HeadingSays(line: string, level: nat, title: string) {
    && 1 <= level <= 6 && level < |line|
    && (forall i :: 0 <= i < level ==> line[i] == '#') && RegexpSpace(line[level])
    && title == TrimSpace(line[level..])
  }

  /** In every parse each block fits its lines. */
  lemma BlockExactly(lines: seq<string>, spans: seq<Span>, blocks: seq<Block>, k: nat)
    requires Covers(lines, spans, |lines|) && Renders(lines, spans, blocks) && k < |spans|
    ensures |blocks| == |spans| && spans[k].first <= spans[k].last < |lines|
    ensures LineFits(lines[spans[k].first], spans[k].kind)
    ensures BlockFits(lines, spans[k], blocks[k])
  {
    hide Covers, Renders, KindOf, Decimal, TrimSpace, Join, RegexpSpace, LineFits, HeadingSays;
    Partition(lines, spans, |lines|);
    RendersBlock(lines, spans, blocks, k);
    LineKindExactly(lines[spans[k].first], spans[k].kind);
    var s := spans[k];
    if s.kind == HeadingLine {
      HeadingIs(lines[s.first]);
    }
  }

  lemma HeadingIs(line: string)
    requires KindOf(line) == HeadingLine
    ensures HeadingSays(line, Hashes(line), TitleOf(line))
  {
    hide TrimSpace, RegexpSpace, IsFence, IsList, IsTable;
    HashesAre(line);
  }
}
