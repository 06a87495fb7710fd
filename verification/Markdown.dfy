/** Markdown into blocks with line locators and heading paths, in the parser's own dialect. */
module Markdown {
  import opened Results
  import opened Text
  import ParseQueue

  // ---- lines ----

  datatype LineKind = Blank | HeadingLine | FenceLine | ListLine | TableLine | TextLine

  /** The class \s of Go regular expressions. */
  predicate RegexpSpace(c: char) {
    c == '\t' || c == '\n' || c == '\U{0C}' || c == '\r' || c == ' '
  }

  function Hashes(line: string): (n: nat)
    ensures n <= |line|
  {
    if line != "" && line[0] == '#' then 1 + Hashes(line[1..]) else 0
  }

  /** One to six hashes, a space, and at least one more character. */
  predicate IsHeading(line: string) {
    var h := Hashes(line);
    1 <= h <= 6 && h + 2 <= |line| && RegexpSpace(line[h])
  }

  predicate IsFence(line: string) {
    HasPrefix(TrimSpace(line), "```")
  }

  function SkipSpaces(line: string): string {
    if line != "" && RegexpSpace(line[0]) then SkipSpaces(line[1..]) else line
  }

  /** A bullet or a number with a dot or a parenthesis, followed by a space. */
  predicate IsList(line: string) {
    var s := SkipSpaces(line);
    var d := DigitRun(s);
    || (|s| >= 2 && (s[0] == '-' || s[0] == '+' || s[0] == '*') && RegexpSpace(s[1]))
    || (d > 0 && d + 2 <= |s| && (s[d] == '.' || s[d] == ')') && RegexpSpace(s[d + 1]))
  }

  function Count(s: string, c: char): nat {
    if s == "" then 0 else (if s[0] == c then 1 else 0) + Count(s[1..], c)
  }

  predicate IsTable(line: string) {
    var s := TrimSpace(line);
    Count(s, '|') >= 2 && (s[0] == '|' || s[|s| - 1] == '|')
  }

  function KindOf(line: string): LineKind {
    if TrimSpace(line) == "" then Blank
    else if IsHeading(line) then HeadingLine
    else if IsFence(line) then FenceLine
    else if IsList(line) then ListLine
    else if IsTable(line) then TableLine
    else TextLine
  }

  /** A fence is a fence, whatever the order of the tests. */
  lemma FenceIsItsKind(line: string)
    ensures IsFence(line) <==> KindOf(line) == FenceLine
  {
    if IsFence(line) {
      assert TrimSpace(line)[..3] == "```";
      if IsHeading(line) {
        HeadingStartsWithHash(line);
      }
    }
  }

  lemma HeadingStartsWithHash(line: string)
    requires IsHeading(line)
    ensures TrimSpace(line) != "" && TrimSpace(line)[0] == '#'
  {
    assert line[0] == '#' && !IsSpace('#');
    TrimRightFacts(TrimLeft(line));
  }

  predicate IsText(k: LineKind) {
    k == ListLine || k == TableLine || k == TextLine
  }

  // ---- blocks ----

  datatype BlockKind = Heading | Paragraph | List | Table | Code

  datatype Block = Block(kind: BlockKind, level: nat, content: string, locator: string, path: seq<string>)

  /** The lines first .. last of the input, counted from zero, and the kind of the first of them. */
  datatype Span = Span(kind: LineKind, first: nat, last: nat)

  function BlockKindOf(k: LineKind): BlockKind {
    match k
    case HeadingLine => Heading
    case FenceLine => Code
    case ListLine => List
    case TableLine => Table
    case _ => Paragraph
  }

  function LineLocator(first: nat, last: nat): string {
    if first == last then "line:" + Decimal(first) else "lines:" + Decimal(first) + "-" + Decimal(last)
  }

  /** A locator names one range of lines. */
  lemma LocatorNamesRange(a: nat, b: nat, c: nat, d: nat)
    ensures LineLocator(a, b) == LineLocator(c, d) <==> a == c && b == d
  {
    hide Decimal;
    if LineLocator(a, b) == LineLocator(c, d) {
      var x, y := LineLocator(a, b), LineLocator(c, d);
      assert x[4] == (if a == b then ':' else 's') && y[4] == (if c == d then ':' else 's');
      if a == b {
        assert x[5..] == Decimal(a) && y[5..] == Decimal(c);
      } else {
        assert x[6..] == Decimal(a) + "-" + Decimal(b) && y[6..] == Decimal(c) + "-" + Decimal(d);
        FieldInjective(a, c, '-', Decimal(b), Decimal(d));
      }
      DecimalRoundTrip(a);
      DecimalRoundTrip(b);
      DecimalRoundTrip(c);
      DecimalRoundTrip(d);
    }
  }

  // ---- heading paths ----

  datatype Mark = Mark(level: nat, title: string)

  /** The heading in force at a level: the last one no deeper than it, if it is exactly that deep. */
  function InForce(marks: seq<Mark>, level: nat): string {
    if marks == [] then ""
    else
      var last := marks[|marks| - 1];
      if last.level == level then last.title
      else if last.level < level then ""
      else InForce(marks[..|marks| - 1], level)
  }

  /** The headings that enclose what comes next: as many levels as the last heading is deep. */
  function Enclosing(marks: seq<Mark>): seq<string> {
    if marks == [] then [] else seq(marks[|marks| - 1].level, j requires 0 <= j => InForce(marks, j + 1))
  }

  function PathUpdated(path: seq<string>, level: nat, title: string): seq<string> {
    if level < 1 then path else PlacedAt(path, level, title)
  }

  method UpdateHeadingPath(current: seq<string>, level: nat, title: string) returns (path: seq<string>)
    ensures path == PathUpdated(current, level, title)
  {
    if level < 1 {
      return current;
    }
    path := current;
    if |path| >= level {
      path := path[..level - 1];
    }
    ghost var kept := path;
    while |path| < level - 1
      invariant |kept| <= |path| <= level - 1
      invariant path == kept + Padding(|path| - |kept|)
    {
      path := path + [""];
    }
    path := path + [title];
  }

  /** Updating the path by truncating, padding and appending keeps it the list of enclosing headings. */
  lemma UpdatedPathEncloses(marks: seq<Mark>, level: nat, title: string)
    requires level >= 1 && forall m :: m in marks ==> m.level >= 1
    ensures PathUpdated(Enclosing(marks), level, title) == Enclosing(marks + [Mark(level, title)])
  {
    var more := marks + [Mark(level, title)];
    assert more[..|more| - 1] == marks;
    var a, b := PathUpdated(Enclosing(marks), level, title), Enclosing(more);
    assert |a| == |b| == level;
    forall j | 0 <= j < level ensures a[j] == b[j] {
      if j < level - 1 {
        assert InForce(more, j + 1) == InForce(marks, j + 1);
      }
    }
  }

  // ---- what a parse is ----

  predicate AllBlank(lines: seq<string>, from: nat, to: nat)
    requires to <= |lines|
  {
    forall i :: from <= i < to ==> KindOf(lines[i]) == Blank
  }

  /** A span holds one heading; or a fence up to its closing fence or the end; or a maximal run of one kind of text. */
  predicate SpanOk(lines: seq<string>, s: Span) {
    && s.first <= s.last < |lines| && s.kind != Blank && KindOf(lines[s.first]) == s.kind
    && (s.kind == HeadingLine ==> s.last == s.first)
    && (s.kind == FenceLine ==>
          && (forall i :: s.first < i < s.last ==> KindOf(lines[i]) != FenceLine)
          && ((s.first < s.last && KindOf(lines[s.last]) == FenceLine) || s.last == |lines| - 1))
    && (IsText(s.kind) ==>
          && (forall i :: s.first <= i <= s.last ==> KindOf(lines[i]) == s.kind)
          && (s.last + 1 < |lines| ==> KindOf(lines[s.last + 1]) != s.kind))
  }

  /** The spans cover the lines before to: in order, with nothing but blank lines around them. */
  predicate Covers(lines: seq<string>, spans: seq<Span>, to: nat)
    requires to <= |lines|
    decreases |spans|
  {
    if spans == [] then AllBlank(lines, 0, to)
    else
      var s := spans[|spans| - 1];
      SpanOk(lines, s) && s.last < to && AllBlank(lines, s.last + 1, to) && Covers(lines, spans[..|spans| - 1], s.first)
  }

  function TitleOf(line: string): string {
    TrimSpace(line[Hashes(line)..])
  }

  /** The headings among the spans. */
  function MarksOf(lines: seq<string>, spans: seq<Span>): seq<Mark> {
    if spans == [] then []
    else
      var s := spans[|spans| - 1];
      MarksOf(lines, spans[..|spans| - 1]) +
      if s.kind == HeadingLine && s.first < |lines| then [Mark(Hashes(lines[s.first]), TitleOf(lines[s.first]))] else []
  }

  function BlockOf(lines: seq<string>, s: Span, path: seq<string>): Block
    requires s.first <= s.last < |lines|
  {
    var level := if s.kind == HeadingLine then Hashes(lines[s.first]) else 0;
    var content := if s.kind == HeadingLine then TitleOf(lines[s.first])
                   else TrimSpace(Join(lines[s.first..s.last + 1], '\n'));
    Block(BlockKindOf(s.kind), level, content, LineLocator(s.first + 1, s.last + 1), path)
  }

  /** One block per span: its lines as content, its lines as locator, the headings up to and including it as path. */
  predicate Renders(lines: seq<string>, spans: seq<Span>, blocks: seq<Block>)
    decreases |spans|
  {
    if spans == [] then blocks == []
    else
      var n := |spans| - 1;
      && |blocks| == |spans| && spans[n].first <= spans[n].last < |lines|
      && blocks[n] == BlockOf(lines, spans[n], Enclosing(MarksOf(lines, spans)))
      && Renders(lines, spans[..n], blocks[..n])
  }

  // ---- the parser ----

  /** Carriage returns, alone or before a newline, become newlines. */
  function Newlines(text: string): (r: string)
    ensures '\r' !in r
  {
    if text == "" then ""
    else if text[0] == '\r' then "\n" + Newlines(if |text| > 1 && text[1] == '\n' then text[2..] else text[1..])
    else [text[0]] + Newlines(text[1..])
  }

  function LinesOf(text: string): seq<string> {
    Split(Newlines(text), '\n')
  }

  method CodeEnd(lines: seq<string>, start: nat) returns (index: nat)
    requires start < |lines| && KindOf(lines[start]) == FenceLine
    ensures start < index <= |lines| && SpanOk(lines, Span(FenceLine, start, index - 1))
  {
    hide KindOf, IsFence;
    index := start + 1;
    while index < |lines| && !IsFence(lines[index])
      invariant start < index <= |lines|
      invariant forall i :: start < i < index ==> KindOf(lines[i]) != FenceLine
    {
      FenceIsItsKind(lines[index]);
      index := index + 1;
    }
    if index < |lines| {
      FenceIsItsKind(lines[index]);
      index := index + 1;
    }
  }

  method TextEnd(lines: seq<string>, start: nat) returns (index: nat)
    requires start < |lines| && IsText(KindOf(lines[start]))
    ensures start < index <= |lines| && SpanOk(lines, Span(KindOf(lines[start]), start, index - 1))
  {
    hide KindOf;
    var kind := KindOf(lines[start]);
    index := start + 1;
    while index < |lines| && KindOf(lines[index]) == kind
      invariant start < index <= |lines|
      invariant forall i :: start <= i < index ==> KindOf(lines[i]) == kind
    {
      index := index + 1;
    }
  }

  /** parseMarkdown. The spans it returns besides the blocks exist for the specification only. */
  method ParseMarkdown(text: string) returns (result: Result<seq<Block>>, ghost spans: seq<Span>)
    ensures result.Ok? ==> Covers(LinesOf(text), spans, |LinesOf(text)|) && Renders(LinesOf(text), spans, result.value)
    ensures result.Err? <==> '\0' in text || AllBlank(LinesOf(text), 0, |LinesOf(text)|)
  {
    hide KindOf, Covers, Renders, SpanOk, MarksOf, Enclosing, LinesOf, AllBlank, TitleOf, Hashes, PathUpdated, BlockOf,
         BlockKindOf, LineLocator, TrimSpace, Join;
    spans := [];
    if '\0' in text {
      return Err(InvalidInput), [];
    }
    var lines := LinesOf(text);
    var blocks: seq<Block> := [];
    var path: seq<string> := [];
    var index := 0;
    NothingYet(lines);
    while index < |lines|
      invariant 0 <= index <= |lines|
      invariant Covers(lines, spans, index) && Renders(lines, spans, blocks) && |spans| == |blocks|
      invariant path == Enclosing(MarksOf(lines, spans)) && forall m :: m in MarksOf(lines, spans) ==> m.level >= 1
    {
      var line := lines[index];
      var kind := KindOf(line);
      if kind == Blank {
        SkipBlank(lines, spans, index);
        index := index + 1;
        continue;
      }
      var start := index;
      if kind == HeadingLine {
        var level, title := Hashes(line), TitleOf(line);
        HeadingSpan(lines, spans, start);
        path := UpdateHeadingPath(path, level, title);
        index := index + 1;
        blocks := blocks + [Block(Heading, level, title, LineLocator(start + 1, start + 1), path)];
      } else if kind == FenceLine {
        index := CodeEnd(lines, start);
        TextMarks(lines, spans, Span(kind, start, index - 1));
        blocks := blocks + [Block(Code, 0, TrimSpace(Join(lines[start..index], '\n')), LineLocator(start + 1, index), path)];
      } else {
        index := TextEnd(lines, start);
        TextMarks(lines, spans, Span(kind, start, index - 1));
        var content := TrimSpace(Join(lines[start..index], '\n'));
        ContentIsVisible(lines, Span(kind, start, index - 1));
        if content != "" {
          blocks := blocks + [Block(BlockKindOf(kind), 0, content, LineLocator(start + 1, index), path)];
        }
      }
      ghost var s := Span(kind, start, index - 1);
      BlockIs(lines, s, path);
      OneMore(lines, spans, blocks, s);
      spans := spans + [s];
    }
    EmptyMeansBlank(lines, spans);
    if |blocks| == 0 {
      return Err(InvalidInput), spans;
    }
    result := Ok(blocks);
  }

  lemma BlockIs(lines: seq<string>, s: Span, path: seq<string>)
    requires s.first <= s.last < |lines|
    ensures s.kind == HeadingLine && s.last == s.first ==>
              BlockOf(lines, s, path) == Block(Heading, Hashes(lines[s.first]), TitleOf(lines[s.first]),
                                               LineLocator(s.first + 1, s.first + 1), path)
    ensures s.kind != HeadingLine ==>
              BlockOf(lines, s, path) == Block(BlockKindOf(s.kind), 0, TrimSpace(Join(lines[s.first..s.last + 1], '\n')),
                                               LineLocator(s.first + 1, s.last + 1), path)
    ensures BlockKindOf(FenceLine) == Code
  {
  }

  lemma NothingYet(lines: seq<string>)
    ensures Covers(lines, [], 0) && Renders(lines, [], []) && MarksOf(lines, []) == [] && Enclosing([]) == []
  {
  }

  lemma SkipBlank(lines: seq<string>, spans: seq<Span>, index: nat)
    requires index < |lines| && KindOf(lines[index]) == Blank && Covers(lines, spans, index)
    ensures Covers(lines, spans, index + 1)
  {
    hide KindOf, SpanOk;
  }

  lemma HeadingSpan(lines: seq<string>, spans: seq<Span>, start: nat)
    requires start < |lines| && KindOf(lines[start]) == HeadingLine
    requires forall m :: m in MarksOf(lines, spans) ==> m.level >= 1
    ensures var s := Span(HeadingLine, start, start); var level, title := Hashes(lines[start]), TitleOf(lines[start]);
            && SpanOk(lines, s) && level >= 1
            && MarksOf(lines, spans + [s]) == MarksOf(lines, spans) + [Mark(level, title)]
            && (forall m :: m in MarksOf(lines, spans + [s]) ==> m.level >= 1)
            && PathUpdated(Enclosing(MarksOf(lines, spans)), level, title) == Enclosing(MarksOf(lines, spans + [s]))
  {
    hide Enclosing, PathUpdated;
    var s := Span(HeadingLine, start, start);
    assert (spans + [s])[..|spans|] == spans;
    UpdatedPathEncloses(MarksOf(lines, spans), Hashes(lines[start]), TitleOf(lines[start]));
  }

  lemma TextMarks(lines: seq<string>, spans: seq<Span>, s: Span)
    requires s.kind != HeadingLine
    ensures MarksOf(lines, spans + [s]) == MarksOf(lines, spans)
  {
    assert (spans + [s])[..|spans|] == spans;
  }

  lemma OneMore(lines: seq<string>, spans: seq<Span>, blocks: seq<Block>, s: Span)
    requires SpanOk(lines, s) && Covers(lines, spans, s.first)
    requires |blocks| == |spans| + 1 && Renders(lines, spans, blocks[..|spans|])
    requires blocks[|spans|] == BlockOf(lines, s, Enclosing(MarksOf(lines, spans + [s])))
    ensures Covers(lines, spans + [s], s.last + 1) && Renders(lines, spans + [s], blocks)
  {
    hide KindOf, MarksOf, Enclosing, BlockOf;
    assert (spans + [s])[..|spans|] == spans;
  }

  lemma EmptyMeansBlank(lines: seq<string>, spans: seq<Span>)
    requires Covers(lines, spans, |lines|)
    ensures spans == [] <==> AllBlank(lines, 0, |lines|)
  {
    hide KindOf;
    if spans != [] {
      var s := spans[|spans| - 1];
      assert KindOf(lines[s.first]) != Blank;
    }
  }

  /** The check for empty content is dead: a text block starts with a line that is not blank. */
  lemma ContentIsVisible(lines: seq<string>, s: Span)
    requires SpanOk(lines, s) && s.kind != HeadingLine
    ensures TrimSpace(Join(lines[s.first..s.last + 1], '\n')) != ""
  {
    hide IsSpace, IsHeading, IsFence, IsList, IsTable;
    var part := lines[s.first..s.last + 1];
    TrimSpaceFacts(lines[s.first]);
    var c :| c in lines[s.first] && !IsSpace(c);
    assert part[0] == lines[s.first];
    JoinKeeps(part, '\n', lines[s.first], c);
    TrimSpaceFacts(Join(part, '\n'));
  }

  // ---- what the cover says, line by line ----

  predicate Holds(s: Span, i: nat) {
    s.first <= i <= s.last
  }

  /** The spans are disjoint and in order; a line outside all of them is blank; a blank line inside one is inside code. */
  lemma {:induction false} Partition(lines: seq<string>, spans: seq<Span>, to: nat)
    requires to <= |lines| && Covers(lines, spans, to)
    ensures forall k, l :: 0 <= k < l < |spans| ==> spans[k].last < spans[l].first
    ensures forall k :: 0 <= k < |spans| ==> SpanOk(lines, spans[k]) && spans[k].last < to
    ensures forall i :: 0 <= i < to && KindOf(lines[i]) != Blank ==> exists k :: 0 <= k < |spans| && Holds(spans[k], i)
    decreases |spans|
  {
    hide KindOf, SpanOk;
    if spans != [] {
      var n := |spans| - 1;
      var s := spans[n];
      Partition(lines, spans[..n], s.first) by { SpanInRange(lines, s); }
      SpanInRange(lines, s);
      forall i | 0 <= i < to && KindOf(lines[i]) != Blank ensures exists k :: 0 <= k < |spans| && Holds(spans[k], i) {
        if i < s.first {
          var k :| 0 <= k < n && Holds(spans[..n][k], i);
          assert Holds(spans[k], i);
        } else {
          assert Holds(spans[n], i);
        }
      }
    }
  }

  lemma SpanInRange(lines: seq<string>, s: Span)
    requires SpanOk(lines, s)
    ensures s.first <= s.last < |lines|
  {
  }

  /** Every line that is not blank lies in exactly one block; only code blocks hold blank lines. */
  lemma EveryLineOnce(text: string, spans: seq<Span>, i: nat)
    requires var lines := LinesOf(text); Covers(lines, spans, |lines|) && i < |lines|
    ensures var lines := LinesOf(text);
            && (KindOf(lines[i]) != Blank ==> exists k :: 0 <= k < |spans| && Holds(spans[k], i))
            && (forall k, l :: 0 <= k < l < |spans| ==> !(Holds(spans[k], i) && Holds(spans[l], i)))
            && (KindOf(lines[i]) == Blank ==> forall k :: 0 <= k < |spans| && Holds(spans[k], i) ==> spans[k].kind == FenceLine)
  {
    hide KindOf, LinesOf, Covers;
    Partition(LinesOf(text), spans, |LinesOf(text)|);
  }

  // ---- the parse is unique ----

  /** Two spans that start at the same line are the same. */
  lemma SameStart(lines: seq<string>, a: Span, b: Span)
    requires SpanOk(lines, a) && SpanOk(lines, b) && a.first == b.first
    ensures a == b
  {
    hide KindOf;
  }

  /** The k-th span starts at the first line that is not blank after the span before it. */
  lemma {:induction false} SameSpan(lines: seq<string>, a: seq<Span>, b: seq<Span>, k: nat)
    requires Covers(lines, a, |lines|) && Covers(lines, b, |lines|)
    requires k < |a| && k < |b| && forall j :: 0 <= j < k ==> a[j] == b[j]
    ensures a[k] == b[k]
  {
    hide KindOf, Covers, SpanOk;
    Partition(lines, a, |lines|);
    Partition(lines, b, |lines|);
    StartsNoLater(lines, a, b, k);
    StartsNoLater(lines, b, a, k);
    SameStart(lines, a[k], b[k]);
  }

  lemma StartsNoLater(lines: seq<string>, a: seq<Span>, b: seq<Span>, k: nat)
    requires k < |a| && k < |b| && forall j :: 0 <= j < k ==> a[j] == b[j]
    requires forall j :: 0 <= j < |a| ==> SpanOk(lines, a[j])
    requires forall j :: 0 <= j < |b| ==> SpanOk(lines, b[j])
    requires forall i, j :: 0 <= i < j < |a| ==> a[i].last < a[j].first
    requires forall i, j :: 0 <= i < j < |b| ==> b[i].last < b[j].first
    requires forall i :: 0 <= i < |lines| && KindOf(lines[i]) != Blank ==> exists j :: 0 <= j < |a| && Holds(a[j], i)
    ensures a[k].first <= b[k].first
  {
    hide KindOf, SpanOk;
    var i := b[k].first;
    SpanStarts(lines, b[k]);
    SpanInRange(lines, a[k]);
    forall j | 0 <= j < k ensures !Holds(a[j], i) {
      assert a[j] == b[j];
    }
    var j :| 0 <= j < |a| && Holds(a[j], i);
    assert k < j ==> a[k].last < a[j].first;
  }

  lemma {:induction false} SamePrefix(lines: seq<string>, a: seq<Span>, b: seq<Span>, k: nat)
    requires Covers(lines, a, |lines|) && Covers(lines, b, |lines|) && k <= |a| && k <= |b|
    ensures a[..k] == b[..k]
  {
    hide Covers;
    if k > 0 {
      SamePrefix(lines, a, b, k - 1);
      forall j | 0 <= j < k - 1 ensures a[j] == b[j] {
        assert a[..k - 1][j] == b[..k - 1][j];
      }
      SameSpan(lines, a, b, k - 1);
      assert a[..k] == a[..k - 1] + [a[k - 1]] && b[..k] == b[..k - 1] + [b[k - 1]];
    }
  }

  lemma NoMoreSpans(lines: seq<string>, a: seq<Span>, b: seq<Span>)
    requires Covers(lines, a, |lines|) && Covers(lines, b, |lines|) && |a| <= |b| && a == b[..|a|]
    ensures |a| == |b|
  {
    hide KindOf, Covers, SpanOk;
    Partition(lines, b, |lines|);
    if |a| < |b| {
      var s := b[|a|];
      SpanStarts(lines, s);
      forall j | 0 <= j < |a| ensures !Holds(a[j], s.first) {
        assert a[j] == b[j];
      }
      Partition(lines, a, |lines|);
    }
  }

  lemma SpanStarts(lines: seq<string>, s: Span)
    requires SpanOk(lines, s)
    ensures s.first < |lines| && KindOf(lines[s.first]) != Blank
  {
  }

  lemma RendersLast(lines: seq<string>, spans: seq<Span>, blocks: seq<Block>)
    requires Renders(lines, spans, blocks) && spans != []
    ensures var n := |spans| - 1;
            && |blocks| == |spans| && spans[n].first <= spans[n].last < |lines|
            && blocks == blocks[..n] + [BlockOf(lines, spans[n], Enclosing(MarksOf(lines, spans)))]
            && Renders(lines, spans[..n], blocks[..n])
  {
    hide BlockOf, Enclosing, MarksOf;
  }

  lemma {:induction false} SameBlocks(lines: seq<string>, spans: seq<Span>, a: seq<Block>, b: seq<Block>)
    requires Renders(lines, spans, a) && Renders(lines, spans, b)
    ensures a == b
    decreases |spans|
  {
    if spans != [] {
      hide Renders, BlockOf, Enclosing, MarksOf;
      RendersLast(lines, spans, a);
      RendersLast(lines, spans, b);
      SameBlocks(lines, spans[..|spans| - 1], a[..|spans| - 1], b[..|spans| - 1]);
    }
  }

  /** The specification leaves no choice: a text has one list of spans and one list of blocks. */
  lemma ParseIsUnique(lines: seq<string>, s: seq<Span>, t: seq<Span>, a: seq<Block>, b: seq<Block>)
    requires Covers(lines, s, |lines|) && Covers(lines, t, |lines|) && Renders(lines, s, a) && Renders(lines, t, b)
    ensures s == t && a == b
  {
    hide Covers, Renders;
    var k := if |s| <= |t| then |s| else |t|;
    SamePrefix(lines, s, t, k);
    if |s| <= |t| {
      assert s[..k] == s;
      NoMoreSpans(lines, s, t);
      assert t[..k] == t;
    } else {
      assert t[..k] == t;
      NoMoreSpans(lines, t, s);
    }
    SameBlocks(lines, s, a, b);
  }

  /** However the pattern divides the line into margins and a captured title, trimming the capture gives this title. */
  lemma TitleOfAnyMatch(line: string, before: string, captured: string, after: string)
    requires line[Hashes(line)..] == before + captured + after
    requires (forall c :: c in before ==> RegexpSpace(c)) && forall c :: c in after ==> RegexpSpace(c)
    ensures TrimSpace(captured) == TitleOf(line)
  {
    hide Hashes, TrimSpace;
    TrimIgnoresMargins(before, captured, after);
  }

  // ---- what can be stored ----

  function StoredKind(k: BlockKind): (r: ParseQueue.Kind)
    ensures (r.Heading? <==> k.Heading?) && (r.Paragraph? <==> k.Paragraph?) && (r.List? <==> k.List?) && (r.Table? <==> k.Table?)
  {
    match k
    case Heading => ParseQueue.Heading
    case Paragraph => ParseQueue.Paragraph
    case List => ParseQueue.List
    case Table => ParseQueue.Table
    case Code => ParseQueue.Code
  }

  /** The rows a parse is to be stored as. */
  function ForStorage(blocks: seq<Block>): (r: seq<ParseQueue.Block>)
    ensures |r| == |blocks|
    ensures forall k :: 0 <= k < |blocks| ==> r[k].level == blocks[k].level && r[k].content == blocks[k].content
    ensures forall k :: 0 <= k < |blocks| ==> r[k].kind == StoredKind(blocks[k].kind) && r[k].locator == blocks[k].locator
  {
    seq(|blocks|, k requires 0 <= k < |blocks| =>
      ParseQueue.Block(StoredKind(blocks[k].kind), blocks[k].level, blocks[k].content, blocks[k].locator))
  }

  /** A heading of hashes and white space alone. */
  predicate Untitled(lines: seq<string>, s: Span) {
    s.kind == HeadingLine && s.first < |lines| && AllSpace(lines[s.first][Hashes(lines[s.first])..])
  }

  lemma {:induction false} RendersBlock(lines: seq<string>, spans: seq<Span>, blocks: seq<Block>, k: nat)
    requires Renders(lines, spans, blocks) && k < |spans|
    ensures |blocks| == |spans| && spans[k].first <= spans[k].last < |lines|
    ensures exists path :: blocks[k] == BlockOf(lines, spans[k], path)
    decreases |spans|
  {
    hide BlockOf, Enclosing, MarksOf;
    if k < |spans| - 1 {
      RendersBlock(lines, spans[..|spans| - 1], blocks[..|spans| - 1], k);
    }
  }

  lemma BlockStorable(lines: seq<string>, s: Span, path: seq<string>)
    requires SpanOk(lines, s)
    ensures var b := BlockOf(lines, s, path);
            b.level <= 6 && (b.content == "" <==> Untitled(lines, s))
  {
    hide IsFence, IsList, IsTable, Join, TrimSpace, LineLocator, AllSpace;
    if s.kind == HeadingLine {
      TrimSpaceFacts(lines[s.first][Hashes(lines[s.first])..]);
    } else {
      ContentIsVisible(lines, s);
    }
  }

  /** Every block of a parse has content if and only if no heading in it is untitled. */
  lemma ContentExactly(lines: seq<string>, spans: seq<Span>, blocks: seq<Block>)
    requires Covers(lines, spans, |lines|) && Renders(lines, spans, blocks)
    ensures |blocks| == |spans|
    ensures (forall k :: 0 <= k < |blocks| ==> blocks[k].content != "") <==> forall k :: 0 <= k < |spans| ==> !Untitled(lines, spans[k])
    ensures forall k :: 0 <= k < |blocks| ==> blocks[k].level <= 6
  {
    hide Covers, Renders, Untitled, BlockOf, SpanOk;
    Partition(lines, spans, |lines|);
    RendersLength(lines, spans, blocks);
    forall k | 0 <= k < |spans| ensures blocks[k].level <= 6 && (blocks[k].content == "" <==> Untitled(lines, spans[k])) {
      RendersBlock(lines, spans, blocks, k);
      var path :| blocks[k] == BlockOf(lines, spans[k], path);
      BlockStorable(lines, spans[k], path);
    }
  }

  lemma RendersLength(lines: seq<string>, spans: seq<Span>, blocks: seq<Block>)
    requires Renders(lines, spans, blocks)
    ensures |blocks| == |spans|
  {
  }

  /** The block table refuses a parse, whoever saves it, if and only if a heading in it is untitled. */
  lemma RefusedExactly(lines: seq<string>, spans: seq<Span>, blocks: seq<Block>, v: ParseQueue.Version, token: nat)
    requires Covers(lines, spans, |lines|) && Renders(lines, spans, blocks)
    ensures ParseQueue.SavedParsed(v, token, ForStorage(blocks)) == Err(ConstraintViolated) <==>
            exists k :: 0 <= k < |spans| && Untitled(lines, spans[k])
  {
    hide Covers, Renders, Untitled, ParseQueue.HeldAt, ParseQueue.Numbered;
    ContentExactly(lines, spans, blocks);
    var rows := ForStorage(blocks);
    if b :| b in rows && !ParseQueue.Storable(b) {
      var k :| 0 <= k < |rows| && rows[k] == b;
      assert blocks[k].content == "";
    }
    if k :| 0 <= k < |blocks| && blocks[k].content == "" {
      assert rows[k] in rows && !ParseQueue.Storable(rows[k]);
    }
  }

  lemma HashLine()
    ensures LinesOf("#  ") == ["#  "] && KindOf("#  ") == HeadingLine && Hashes("#  ") == 1
    ensures AllSpace("#  "[1..]) && TitleOf("#  ") == ""
  {
    hide IsFence, IsList, IsTable, TrimSpace;
    var line := "#  ";
    NoReturns(line);
    assert line[1..] == "  " && line[1..][1..] == " " && line[1..][1..][1..] == "";
    assert Split(line, '\n') == [line];
    HeadingStartsWithHash(line);
    TrimSpaceFacts("  ");
  }

  /** Such a text: one hash and two spaces. It parses, and its one block has no content. */
  lemma EmptyHeading()
    ensures var lines := LinesOf("#  "); var s := Span(HeadingLine, 0, 0);
            && lines == ["#  "] && Covers(lines, [s], 1) && Untitled(lines, s)
            && Renders(lines, [s], [Block(Heading, 1, "", "line:1", [""])])
  {
    hide LinesOf, KindOf, Hashes, TitleOf, AllSpace;
    var lines, s := ["#  "], Span(HeadingLine, 0, 0);
    HashLine();
    assert [s][..0] == [] && MarksOf(lines, []) == [];
    assert MarksOf(lines, [s]) == [Mark(1, "")];
    assert Enclosing([Mark(1, "")]) == [""];
    assert LineLocator(1, 1) == "line:1" by { assert Decimal(1) == "1"; }
    assert [Block(Heading, 1, "", "line:1", [""])][..0] == [];
  }

  lemma {:induction false} NoReturns(text: string)
    requires '\r' !in text
    ensures Newlines(text) == text
  {
    if text != "" {
      NoReturns(text[1..]);
      assert text == [text[0]] + text[1..];
    }
  }
}
