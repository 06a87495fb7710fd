/** Document blocks into search chunks: splitting long text, table rows, keys and parents. */
module Semantic {
  import opened Text

  // ---- splitting ----

  /** White space or the end of a sentence. */
  predicate Boundary(c: char) {
    IsSpace(c) || c == '.' || c == ';' || c == '!' || c == '?'
  }

  /** The largest candidate in (low, c] right after a boundary; zero if there is none. */
  function LastBoundary(runes: string, low: nat, c: nat): (e: nat)
    requires c <= |runes|
    ensures e == 0 || (low < e <= c && Boundary(runes[e - 1]))
    ensures forall k :: low <= k < c && k >= e ==> !Boundary(runes[k])
  {
    if c <= low then 0
    else if Boundary(runes[c - 1]) then c
    else LastBoundary(runes, low, c - 1)
  }

  /** Where the next cut ends: everything if it fits, else the latest boundary in the second half, else the limit. */
  function CutEnd(runes: string, max: nat): (e: nat)
    requires max >= 1
    ensures e <= |runes| && e <= max && (runes != "" ==> e > 0)
    ensures |runes| > max ==> e > max / 2
  {
    if |runes| <= max then |runes|
    else
      var b := LastBoundary(runes, max / 2, max);
      if b > 0 then b else max
  }

  function Cuts(runes: string, max: nat): seq<string>
    requires max >= 1
  {
    if runes == "" then []
    else
      var e := CutEnd(runes, max);
      [runes[..e]] + Cuts(runes[e..], max)
  }

  function TrimAll(parts: seq<string>): (r: seq<string>)
    ensures |r| == |parts| && forall i :: 0 <= i < |parts| ==> r[i] == TrimSpace(parts[i])
  {
    seq(|parts|, i requires 0 <= i < |parts| => TrimSpace(parts[i]))
  }

  function Parts(input: string, max: nat): seq<string>
    requires max >= 1
  {
    var text := TrimSpace(input);
    if text == "" then [] else if |text| <= max then [text] else TrimAll(Cuts(text, max))
  }

  method CutPoint(runes: string, max: nat) returns (end: nat)
    requires max >= 1
    ensures end == CutEnd(runes, max)
  {
    end := if max < |runes| then max else |runes|;
    if end < |runes| {
      var candidate: nat := end;
      while candidate > max / 2
        invariant candidate <= max
        invariant LastBoundary(runes, max / 2, max) == LastBoundary(runes, max / 2, candidate)
      {
        if Boundary(runes[candidate - 1]) {
          return candidate;
        }
        candidate := candidate - 1;
      }
    }
  }

  method SplitContent(input: string, max: nat) returns (parts: seq<string>)
    requires max >= 1
    ensures parts == Parts(input, max)
  {
    hide CutEnd, TrimSpace;
    var runes := TrimSpace(input);
    if runes == "" {
      return [];
    }
    if |runes| <= max {
      return [runes];
    }
    ghost var all := Cuts(runes, max);
    ghost var done: seq<string> := [];
    parts := [];
    while |runes| > 0
      invariant done + Cuts(runes, max) == all && parts == TrimAll(done)
      decreases |runes|
    {
      var end := CutPoint(runes, max);
      assert done + Cuts(runes, max) == done + [runes[..end]] + Cuts(runes[end..], max);
      parts := parts + [TrimSpace(runes[..end])];
      done := done + [runes[..end]];
      runes := runes[end..];
    }
    assert done + [] == done;
  }

  /** The cuts are the text, end to end: no cut is longer than max, and all but the last are longer than half of it. */
  lemma {:induction false} CutsExact(runes: string, max: nat)
    requires max >= 1
    ensures Concat(Cuts(runes, max)) == runes
    ensures forall i :: 0 <= i < |Cuts(runes, max)| ==> 0 < |Cuts(runes, max)[i]| <= max
    ensures forall i :: 0 <= i < |Cuts(runes, max)| - 1 ==> |Cuts(runes, max)[i]| > max / 2
    ensures |Cuts(runes, max)| > 0 ==> (|Cuts(runes, max)| - 1) * (max / 2 + 1) < |runes|
  {
    hide CutEnd;
    if runes != "" {
      var e := CutEnd(runes, max);
      CutsExact(runes[e..], max);
      var rest := Cuts(runes[e..], max);
      assert Cuts(runes, max)[1..] == rest;
      assert runes[..e] + runes[e..] == runes;
      if rest != [] {
        CutEndOfShort(runes, max);
        CountStep(|rest|, max / 2 + 1, |runes[e..]|, |runes|);
      }
    }
  }

  lemma CutEndOfShort(runes: string, max: nat)
    requires max >= 1
    ensures |runes| <= max ==> Cuts(runes[CutEnd(runes, max)..], max) == []
  {
  }

  lemma CountStep(n: nat, half: nat, rest: nat, all: nat)
    requires (n - 1) * half < rest && rest + half <= all
    ensures n * half < all
  {
    assert (n - 1) * half + half == n * half;
  }

  lemma {:induction false} TrimAllKeeps(parts: seq<string>)
    ensures NonSpace(Concat(TrimAll(parts))) == NonSpace(Concat(parts))
  {
    hide TrimSpace, NonSpace;
    if parts != [] {
      TrimAllKeeps(parts[1..]);
      assert TrimAll(parts)[1..] == TrimAll(parts[1..]);
      TrimSpaceFacts(parts[0]);
      NonSpaceConcat(TrimSpace(parts[0]), Concat(TrimAll(parts[1..])));
      NonSpaceConcat(parts[0], Concat(parts[1..]));
    }
  }

  lemma LongTextSplit(text: string, max: nat)
    requires max >= 1 && text != ""
    ensures var parts := TrimAll(Cuts(text, max));
            && NonSpace(Concat(parts)) == NonSpace(text)
            && (forall p :: p in parts ==> |p| <= max)
            && parts != [] && (|parts| - 1) * (max / 2 + 1) < |text|
  {
    hide TrimSpace, Cuts, NonSpace, Concat;
    CutsExact(text, max);
    TrimAllKeeps(Cuts(text, max));
    CutsNotEmpty(text, max);
    forall p | p in TrimAll(Cuts(text, max)) ensures |p| <= max {
      var i :| 0 <= i < |Cuts(text, max)| && p == TrimSpace(Cuts(text, max)[i]);
      TrimSpaceFacts(Cuts(text, max)[i]);
    }
  }

  /**
   * Splitting keeps every visible character in order; no part is longer than max; and there are few parts, since every
   * raw cut but the last takes more than half of max.
   */
  lemma SplitExact(input: string, max: nat)
    requires max >= 1
    ensures var parts := Parts(input, max);
            && NonSpace(Concat(parts)) == NonSpace(input)
            && (forall p :: p in parts ==> |p| <= max)
            && (parts == [] <==> AllSpace(input))
            && (parts != [] ==> (|parts| - 1) * (max / 2 + 1) < |input|)
  {
    hide TrimSpace, Cuts, NonSpace, AllSpace, TrimAll;
    var text := TrimSpace(input);
    TrimSpaceFacts(input);
    if text == "" {
      assert Concat([]) == text;
    } else if |text| <= max {
      assert [text][1..] == [];
      assert Concat([text]) == text + "" == text;
    } else {
      LongTextSplit(text, max);
    }
  }

  lemma CutsNotEmpty(runes: string, max: nat)
    requires max >= 1 && runes != ""
    ensures Cuts(runes, max) != []
  {
  }

  // The limit the program uses.
  const MAX_RUNES: nat := 1800

  /** No more than n characters in a row are white space. */
  predicate RunsAtMost(s: string, n: nat) {
    forall i, j :: 0 <= i <= j <= |s| && AllSpace(s[i..j]) ==> j - i <= n
  }

  lemma SliceRuns(s: string, n: nat, a: nat, b: nat)
    requires RunsAtMost(s, n) && a <= b <= |s|
    ensures RunsAtMost(s[a..b], n)
  {
    hide AllSpace;
    forall i, j | 0 <= i <= j <= b - a && AllSpace(s[a..b][i..j]) ensures j - i <= n {
      SliceOfSlice(s, a, b, i, j);
    }
  }

  lemma SliceOfSlice(s: string, a: nat, b: nat, i: nat, j: nat)
    requires a <= b <= |s| && i <= j <= b - a
    ensures s[a..b][i..j] == s[a + i..a + j]
  {
    var x, y := s[a..b][i..j], s[a + i..a + j];
    assert |x| == |y| && forall k :: 0 <= k < |x| ==> x[k] == y[k];
  }

  lemma {:induction false} TrimLeftSlice(s: string, n: nat)
    requires RunsAtMost(s, n)
    ensures RunsAtMost(TrimLeft(s), n)
  {
    hide RunsAtMost;
    if s != "" && IsSpace(s[0]) {
      SliceRuns(s, n, 1, |s|);
      assert s[1..|s|] == s[1..];
      TrimLeftSlice(s[1..], n);
    }
  }

  lemma {:induction false} TrimRightSlice(s: string, n: nat)
    requires RunsAtMost(s, n)
    ensures RunsAtMost(TrimRight(s), n)
    ensures TrimRight(s) != "" ==> !IsSpace(TrimRight(s)[|TrimRight(s)| - 1])
  {
    hide RunsAtMost;
    if s != "" && IsSpace(s[|s| - 1]) {
      SliceRuns(s, n, 0, |s| - 1);
      assert s[0..|s| - 1] == s[..|s| - 1];
      TrimRightSlice(s[..|s| - 1], n);
    }
  }

  /** Where white space is short, every cut shows a character: all but the last are longer, and the last ends the text. */
  lemma {:induction false} NoBlankCut(runes: string, max: nat, n: nat)
    requires max >= 1 && n <= max / 2 && RunsAtMost(runes, n)
    requires runes != "" ==> !IsSpace(runes[|runes| - 1])
    ensures forall p :: p in Cuts(runes, max) ==> !AllSpace(p)
  {
    hide CutEnd, AllSpace, RunsAtMost;
    if runes != "" {
      var e := CutEnd(runes, max);
      SliceRuns(runes, n, e, |runes|);
      assert runes[e..|runes|] == runes[e..];
      NoBlankCut(runes[e..], max, n);
      assert !AllSpace(runes[..e]) by {
        if |runes| <= max {
          assert runes[..e] == runes by { CutEndOfAll(runes, max); }
          LastShows(runes);
        } else {
          LongShows(runes, e, n);
        }
      }
    }
  }

  lemma CutEndOfAll(runes: string, max: nat)
    requires max >= 1 && |runes| <= max
    ensures CutEnd(runes, max) == |runes|
  {
  }

  lemma LastShows(s: string)
    requires s != "" && !IsSpace(s[|s| - 1])
    ensures !AllSpace(s)
  {
    assert s[|s| - 1] in s;
  }

  lemma LongShows(s: string, e: nat, n: nat)
    requires n < e <= |s| && RunsAtMost(s, n)
    ensures !AllSpace(s[..e])
  {
    hide AllSpace;
    assert s[0..e] == s[..e];
  }

  lemma ShortRunsFillParts(input: string, max: nat, n: nat)
    requires max >= 1 && n <= max / 2 && RunsAtMost(input, n)
    ensures "" !in Parts(input, max)
  {
    hide RunsAtMost, AllSpace, IsSpace, Cuts;
    TrimLeftSlice(input, n);
    TrimRightSlice(TrimLeft(input), n);
    var text := TrimSpace(input);
    NoBlankCut(text, max, n);
    forall p | p in TrimAll(Cuts(text, max)) ensures p != "" {
      var i :| 0 <= i < |Cuts(text, max)| && p == TrimSpace(Cuts(text, max)[i]);
      assert Cuts(text, max)[i] in Cuts(text, max);
      TrimSpaceFacts(Cuts(text, max)[i]);
    }
  }

  function Repeat(c: char, n: nat): (s: string)
    ensures |s| == n && forall i :: 0 <= i < n ==> s[i] == c
  {
    seq(n, i requires 0 <= i < n => c)
  }

  /** A gap of spaces just longer than half the limit, between two runs of letters as long as the limit. */
  function Gapped(max: nat): string {
    Repeat('a', max) + Repeat(' ', max / 2 + 1) + Repeat('a', max)
  }

  lemma GappedRuns(max: nat)
    requires max >= 1
    ensures RunsAtMost(Gapped(max), max / 2 + 1) && TrimSpace(Gapped(max)) == Gapped(max)
  {
    var s, n := Gapped(max), max / 2 + 1;
    forall i, j | 0 <= i <= j <= |s| && AllSpace(s[i..j]) ensures j - i <= n {
      if i < j {
        assert s[i..j][0] == s[i] && s[i..j][j - i - 1] == s[j - 1];
        assert s[i] in s[i..j] && s[j - 1] in s[i..j];
      }
    }
    assert s[0] == 'a' && s[|s| - 1] == 'a';
  }

  lemma LettersCut(runes: string, max: nat)
    requires 1 <= max < |runes| && forall i :: 0 <= i < max ==> runes[i] == 'a'
    ensures CutEnd(runes, max) == max
  {
    assert LastBoundary(runes, max / 2, max) == 0;
  }

  lemma SpacesCut(runes: string, max: nat)
    requires 1 <= max < |runes|
    requires forall i :: 0 <= i < max ==> runes[i] == if i <= max / 2 then ' ' else 'a'
    ensures CutEnd(runes, max) == max / 2 + 1
  {
    var e := LastBoundary(runes, max / 2, max);
    assert Boundary(runes[max / 2]);
    assert e > max / 2;
    assert Boundary(runes[e - 1]);
  }

  /** The gap is cut out whole and leaves an empty part. */
  lemma GapLeavesNothing(max: nat)
    requires max >= 1
    ensures "" in Parts(Gapped(max), max)
  {
    hide CutEnd, TrimSpace;
    var s, gap := Gapped(max), Repeat(' ', max / 2 + 1);
    GappedRuns(max);
    LettersCut(s, max);
    var rest := s[max..];
    assert rest == gap + Repeat('a', max);
    SpacesCut(rest, max);
    assert rest[..max / 2 + 1] == gap;
    assert Cuts(s, max)[1..] == Cuts(rest, max) && Cuts(rest, max)[0] == gap;
    assert Cuts(s, max)[1] == gap;
    TrimSpaceFacts(gap);
    assert AllSpace(gap);
    assert TrimAll(Cuts(s, max))[1] == "";
  }

  lemma LongerRuns(s: string, m: nat, n: nat)
    requires RunsAtMost(s, m) && m <= n
    ensures RunsAtMost(s, n)
  {
    hide AllSpace;
  }

  /**
   * Empty parts: texts whose white space comes in runs of at most n never leave one exactly if n is at most half the
   * limit.
   */
  lemma EmptyPartsExactly(max: nat, n: nat)
    requires max >= 1
    ensures (forall input :: RunsAtMost(input, n) ==> "" !in Parts(input, max)) <==> n <= max / 2
  {
    hide RunsAtMost, Parts, Gapped;
    if n <= max / 2 {
      forall input | RunsAtMost(input, n) ensures "" !in Parts(input, max) {
        ShortRunsFillParts(input, max, n);
      }
    } else {
      GappedRuns(max);
      LongerRuns(Gapped(max), max / 2 + 1, n);
      GapLeavesNothing(max);
    }
  }

  /** With the program's limit a text of 4501 characters does it. */
  lemma PartsCanBeEmpty()
    ensures |Gapped(MAX_RUNES)| == 4501 && RunsAtMost(Gapped(MAX_RUNES), 901) && "" in Parts(Gapped(MAX_RUNES), MAX_RUNES)
  {
    hide RunsAtMost, Parts;
    GappedRuns(MAX_RUNES);
    GapLeavesNothing(MAX_RUNES);
  }

  // ---- table rows ----

  /** Only characters of table rules and margins. */
  predicate IsSeparator(line: string) {
    forall c :: c in line ==> c == '|' || c == ' ' || c == ':' || c == '-' || c == '\t'
  }

  /** The trimmed lines of a table that are neither blank nor rules. */
  function Rows(lines: seq<string>): seq<string> {
    if lines == [] then []
    else
      var line := TrimSpace(lines[|lines| - 1]);
      Rows(lines[..|lines| - 1]) + if line == "" || IsSeparator(line) then [] else [line]
  }

  lemma SeparatorTail(line: string)
    requires line != ""
    ensures IsSeparator(line) <==> IsSeparator([line[0]]) && IsSeparator(line[1..])
  {
    assert line == [line[0]] + line[1..];
    assert forall c :: c in line <==> c in [line[0]] || c in line[1..];
  }

  /** isTableSeparator: nothing is left once bars, spaces, colons, dashes and tabs are trimmed off. */
  method IsTableSeparator(line: string) returns (rule: bool)
    ensures rule <==> IsSeparator(line)
  {
    var trimmed := line;
    while trimmed != "" && (trimmed[0] == '|' || trimmed[0] == ' ' || trimmed[0] == ':' || trimmed[0] == '-' || trimmed[0] == '\t')
      invariant IsSeparator(trimmed) <==> IsSeparator(line)
      decreases |trimmed|
    {
      SeparatorTail(trimmed);
      trimmed := trimmed[1..];
    }
    assert trimmed != "" ==> trimmed[0] in trimmed;
    rule := trimmed == "";
  }

  method TableRows(content: string) returns (rows: seq<string>)
    ensures rows == Rows(Split(content, '\n'))
  {
    hide TrimSpace, IsSeparator;
    var lines := Split(content, '\n');
    rows := [];
    var i := 0;
    while i < |lines|
      invariant 0 <= i <= |lines| && rows == Rows(lines[..i])
    {
      assert lines[..i + 1][..i] == lines[..i];
      var line := TrimSpace(lines[i]);
      i := i + 1;
      if line == "" {
        continue;
      }
      var rule := IsTableSeparator(line);
      if rule {
        continue;
      }
      rows := rows + [line];
    }
    assert lines[..|lines|] == lines;
  }

  // ---- chunks ----

  datatype Kind = Heading | Paragraph | List | Table | Code

  datatype Block = Block(ordinal: nat, kind: Kind, level: int, content: string)

  datatype Flow = NoFlow | MainFlow | AlternateFlow | ExceptionFlow

  datatype Chunk = Chunk(ordinal: nat, seed: string, key: string, parentKey: string, chunkType: string, flow: Flow,
                         identifier: string, title: string, raw: string, content: string)

  /** What is foreign to the chunker's control flow: pattern matching for identifiers and flows, and the digest. */
  datatype Env = Env(identify: string -> string, flowOf: string -> Flow, digest: string -> string)

  /** The running variables of the chunker. */
  datatype State = State(path: seq<string>, parentIdentifier: string, parentKey: string, flow: Flow)

  const START := State([], "", "", NoFlow)

  function ChunkType(kind: Kind, identifier: string): string {
    if HasPrefix(identifier, "UC") then "USE_CASE"
    else if HasPrefix(identifier, "BR") then "BUSINESS_RULE"
    else if HasPrefix(identifier, "AC") then "ACCEPTANCE_CRITERION"
    else if HasPrefix(identifier, "NFR") then "NON_FUNCTIONAL"
    else if HasPrefix(identifier, "FR") || HasPrefix(identifier, "PR") then "REQUIREMENT"
    else match kind
      case Heading => "SECTION"
      case List => "FLOW_STEP"
      case Code => "CODE_REFERENCE"
      case _ => "PROSE"
  }

  /** A level below one counts as one. */
  function PathUpdated(path: seq<string>, level: int, value: string): (r: seq<string>)
    ensures r != [] && r[|r| - 1] == value && |r| == if level < 1 then 1 else level
  {
    PlacedAt(path, if level < 1 then 1 else level, value)
  }

  method UpdateHeadingPath(current: seq<string>, level: int, value: string) returns (path: seq<string>)
    ensures path == PathUpdated(current, level, value)
  {
    var l := if level < 1 then 1 else level;
    path := if |current| >= l then current[..l - 1] else current;
    ghost var kept := path;
    while |path| < l - 1
      invariant |kept| <= |path| <= l - 1 && path == kept + Padding(|path| - |kept|)
    {
      path := path + [""];
    }
    path := path + [value];
  }

  /** Path and flow as they are when the block's own chunks are made. */
  function Enter(env: Env, s: State, b: Block): State {
    if b.kind != Heading then s
    else
      var flow := if env.flowOf(b.content) != NoFlow then env.flowOf(b.content)
                  else if b.level <= 2 && env.identify(b.content) != "" then NoFlow else s.flow;
      s.(path := PathUpdated(s.path, b.level, b.content), flow := flow)
  }

  function Seed(version: nat, ordinal: nat, chunkType: string, suffix: string): string {
    Decimal(version) + ":" + Decimal(ordinal) + ":" + chunkType + ":" + suffix
  }

  /** A non-breaking space is white space to Fields already. */
  function Normalized(raw: string): string {
    Join(Fields(raw), ' ')
  }

  function MakeChunk(env: Env, version: nat, s: State, b: Block, raw: string, chunkType: string, suffix: string): Chunk {
    var own := env.identify(raw);
    var seed := Seed(version, b.ordinal, chunkType, suffix);
    Chunk(b.ordinal, seed, env.digest(seed), s.parentKey, chunkType, s.flow,
          if own == "" && s.flow != NoFlow then s.parentIdentifier else own,
          if s.path == [] then "" else s.path[|s.path| - 1], raw, Normalized(raw))
  }

  function RowChunks(env: Env, version: nat, s: State, b: Block, rows: seq<string>): (r: seq<Chunk>)
    requires rows != []
    ensures |r| == |rows| - 1
    ensures forall i :: 0 <= i < |r| ==>
              r[i] == MakeChunk(env, version, s, b, rows[0] + "\n" + rows[i + 1], "TABLE_ROW", "row-" + Decimal(i + 1))
  {
    seq(|rows| - 1, i requires 0 <= i < |rows| - 1 =>
      MakeChunk(env, version, s, b, rows[0] + "\n" + rows[i + 1], "TABLE_ROW", "row-" + Decimal(i + 1)))
  }

  function PartSuffix(n: nat, i: nat): string {
    if n > 1 then "part-" + Decimal(i + 1) else ""
  }

  function PartChunks(env: Env, version: nat, s: State, b: Block, parts: seq<string>): (r: seq<Chunk>)
    ensures |r| == |parts|
    ensures forall i :: 0 <= i < |r| ==>
              r[i] == MakeChunk(env, version, s, b, parts[i], ChunkType(b.kind, env.identify(parts[i])), PartSuffix(|parts|, i))
  {
    seq(|parts|, i requires 0 <= i < |parts| =>
      MakeChunk(env, version, s, b, parts[i], ChunkType(b.kind, env.identify(parts[i])), PartSuffix(|parts|, i)))
  }

  predicate IsRowTable(b: Block) {
    b.kind == Table && |Rows(Split(b.content, '\n'))| > 1
  }

  /** The chunks of one block. */
  function BlockChunks(env: Env, version: nat, max: nat, s: State, b: Block): seq<Chunk>
    requires max >= 1
  {
    if IsRowTable(b) then RowChunks(env, version, s, b, Rows(Split(b.content, '\n')))
    else PartChunks(env, version, s, b, Parts(b.content, max))
  }

  /** The heading becomes the parent of what follows, if it has an identifier and any chunk. */
  function Leave(env: Env, s: State, b: Block, chunks: seq<Chunk>): State {
    if b.kind == Heading && env.identify(b.content) != "" && chunks != []
    then s.(parentIdentifier := env.identify(b.content), parentKey := chunks[0].key) else s
  }

  function After(env: Env, version: nat, max: nat, blocks: seq<Block>): State
    requires max >= 1
  {
    if blocks == [] then START
    else
      var b := blocks[|blocks| - 1];
      var s := Enter(env, After(env, version, max, blocks[..|blocks| - 1]), b);
      Leave(env, s, b, BlockChunks(env, version, max, s, b))
  }

  function Chunks(env: Env, version: nat, max: nat, blocks: seq<Block>): seq<Chunk>
    requires max >= 1
  {
    if blocks == [] then []
    else
      var init, b := blocks[..|blocks| - 1], blocks[|blocks| - 1];
      Chunks(env, version, max, init) + BlockChunks(env, version, max, Enter(env, After(env, version, max, init), b), b)
  }

  method ChunkDocument(env: Env, version: nat, max: nat, blocks: seq<Block>) returns (chunks: seq<Chunk>)
    requires max >= 1
    ensures chunks == Chunks(env, version, max, blocks)
  {
    hide BlockChunks, PathUpdated;
    chunks := [];
    var path: seq<string>, parentIdentifier, parentKey, flow := [], "", "", NoFlow;
    var i := 0;
    while i < |blocks|
      invariant 0 <= i <= |blocks|
      invariant chunks == Chunks(env, version, max, blocks[..i])
      invariant State(path, parentIdentifier, parentKey, flow) == After(env, version, max, blocks[..i])
    {
      assert blocks[..i + 1][..i] == blocks[..i] && blocks[..i + 1][i] == blocks[i];
      var block := blocks[i];
      var headingIdentifier := "";
      if block.kind == Heading {
        path := UpdateHeadingPath(path, block.level, block.content);
        headingIdentifier := env.identify(block.content);
        if env.flowOf(block.content) != NoFlow {
          flow := env.flowOf(block.content);
        } else if block.level <= 2 && headingIdentifier != "" {
          flow := NoFlow;
        }
      }
      var s := State(path, parentIdentifier, parentKey, flow);
      var blockChunks := MakeBlockChunks(env, version, max, s, block);
      chunks := chunks + blockChunks;
      if headingIdentifier != "" && |blockChunks| > 0 {
        parentIdentifier, parentKey := headingIdentifier, blockChunks[0].key;
      }
      i := i + 1;
    }
    assert blocks[..|blocks|] == blocks;
  }

  method MakeBlockChunks(env: Env, version: nat, max: nat, s: State, block: Block) returns (made: seq<Chunk>)
    requires max >= 1
    ensures made == BlockChunks(env, version, max, s, block)
  {
    hide MakeChunk, Rows, Parts, Split, RowChunks, PartChunks;
    if block.kind == Table {
      var rows := TableRows(block.content);
      if |rows| > 1 {
        made := MakeRowChunks(env, version, s, block, rows);
        return;
      }
    }
    var parts := SplitContent(block.content, max);
    made := MakePartChunks(env, version, s, block, parts);
  }

  method MakeRowChunks(env: Env, version: nat, s: State, block: Block, rows: seq<string>) returns (made: seq<Chunk>)
    requires |rows| > 1
    ensures made == RowChunks(env, version, s, block, rows)
  {
    hide MakeChunk, Decimal;
    made := [];
    var r := 1;
    while r < |rows|
      invariant 1 <= r <= |rows| && |made| == r - 1
      invariant forall i :: 0 <= i < r - 1 ==>
                  made[i] == MakeChunk(env, version, s, block, rows[0] + "\n" + rows[i + 1], "TABLE_ROW", "row-" + Decimal(i + 1))
    {
      made := made + [MakeChunk(env, version, s, block, rows[0] + "\n" + rows[r], "TABLE_ROW", "row-" + Decimal(r))];
      r := r + 1;
    }
  }

  method MakePartChunks(env: Env, version: nat, s: State, block: Block, parts: seq<string>) returns (made: seq<Chunk>)
    ensures made == PartChunks(env, version, s, block, parts)
  {
    hide MakeChunk, Decimal, ChunkType;
    made := [];
    var i := 0;
    while i < |parts|
      invariant 0 <= i <= |parts| && |made| == i
      invariant forall k :: 0 <= k < i ==>
                  made[k] == MakeChunk(env, version, s, block, parts[k], ChunkType(block.kind, env.identify(parts[k])), PartSuffix(|parts|, k))
    {
      var suffix := "";
      if |parts| > 1 {
        suffix := "part-" + Decimal(i + 1);
      }
      made := made + [MakeChunk(env, version, s, block, parts[i], ChunkType(block.kind, env.identify(parts[i])), suffix)];
      i := i + 1;
    }
  }

  // ---- keys ----

  predicate NoColon(s: string) {
    ':' !in s
  }

  lemma ChunkTypesArePlain(kind: Kind, identifier: string)
    ensures NoColon(ChunkType(kind, identifier)) && NoColon("TABLE_ROW")
  {
    hide HasPrefix;
  }

  /** A seed is four fields, read from the left. */
  lemma SeedFields(version: nat, a: nat, s: string, u: string)
    ensures Seed(version, a, s, u) == Decimal(version) + ":" + (Decimal(a) + ":" + (s + ":" + u))
  {
    hide Decimal;
  }

  lemma TypeTellsApart(s: string, t: string, u: string, v: string)
    requires NoColon(s) && NoColon(t) && s + ":" + u == t + ":" + v
    ensures s == t && u == v
  {
    hide Split, NoColon;
    HeadOfSplit(s, u);
    HeadOfSplit(t, v);
  }

  /** Seeds of different ordinals or suffixes differ, whatever the chunk types. */
  lemma SeedsTellApart(version: nat, a: nat, b: nat, s: string, t: string, u: string, v: string)
    requires NoColon(s) && NoColon(t)
    ensures Seed(version, a, s, u) == Seed(version, b, t, v) <==> a == b && s == t && u == v
  {
    hide Decimal, Seed, NoColon;
    if Seed(version, a, s, u) == Seed(version, b, t, v) {
      SeedFields(version, a, s, u);
      SeedFields(version, b, t, v);
      FieldInjective(version, version, ':', Decimal(a) + ":" + (s + ":" + u), Decimal(b) + ":" + (t + ":" + v));
      FieldInjective(a, b, ':', s + ":" + u, t + ":" + v);
      TypeTellsApart(s, t, u, v);
    }
  }

  lemma HeadOfSplit(s: string, u: string)
    requires NoColon(s)
    ensures Split(s + ":" + u, ':')[0] == s
    ensures (s + ":" + u)[|s| + 1..] == u
  {
    SplitPrefix(s, ":" + u, ':');
    assert s + ":" + u == s + (":" + u);
    assert (":" + u)[1..] == u && (":" + u)[0] == ':';
    assert Split(":" + u, ':')[0] == "";
    assert s + "" == s;
  }

  /** The form of a chunk's seed. */
  predicate SeedOk(version: nat, b: Block, c: Chunk, suffix: string) {
    c.ordinal == b.ordinal && NoColon(c.chunkType) && c.seed == Seed(version, b.ordinal, c.chunkType, suffix)
  }

  function SuffixOf(b: Block, n: nat, i: nat): string {
    if IsRowTable(b) then "row-" + Decimal(i + 1) else PartSuffix(n, i)
  }

  lemma BlockSeeds(env: Env, version: nat, max: nat, s: State, b: Block)
    requires max >= 1
    ensures var cs := BlockChunks(env, version, max, s, b);
            forall i :: 0 <= i < |cs| ==> SeedOk(version, b, cs[i], SuffixOf(b, |cs|, i)) && cs[i].key == env.digest(cs[i].seed) &&
                                           cs[i].parentKey == s.parentKey
  {
    hide Rows, Parts, Split, Seed, PartSuffix, NoColon, ChunkType;
    var cs := BlockChunks(env, version, max, s, b);
    forall i | 0 <= i < |cs|
      ensures SeedOk(version, b, cs[i], SuffixOf(b, |cs|, i)) && cs[i].key == env.digest(cs[i].seed) &&
              cs[i].parentKey == s.parentKey
    {
      ChunkTypesArePlain(b.kind, env.identify(cs[i].raw));
    }
  }

  lemma SuffixesTellApart(b: Block, n: nat, i: nat, j: nat)
    requires i < j < n
    ensures SuffixOf(b, n, i) != SuffixOf(b, n, j)
  {
    hide Decimal, IsRowTable;
    DecimalRoundTrip(i + 1);
    DecimalRoundTrip(j + 1);
    if IsRowTable(b) {
      assert ("row-" + Decimal(i + 1))[4..] == Decimal(i + 1) && ("row-" + Decimal(j + 1))[4..] == Decimal(j + 1);
    } else {
      assert ("part-" + Decimal(i + 1))[5..] == Decimal(i + 1) && ("part-" + Decimal(j + 1))[5..] == Decimal(j + 1);
    }
  }

  lemma BlockSeedsDistinct(env: Env, version: nat, max: nat, s: State, b: Block)
    requires max >= 1
    ensures DistinctSeeds(BlockChunks(env, version, max, s, b))
  {
    hide BlockChunks, Seed, SuffixOf;
    var cs := BlockChunks(env, version, max, s, b);
    BlockSeeds(env, version, max, s, b);
    forall i, j | 0 <= i < j < |cs| ensures cs[i].seed != cs[j].seed {
      SuffixesTellApart(b, |cs|, i, j);
      SeedsTellApart(version, b.ordinal, b.ordinal, cs[i].chunkType, cs[j].chunkType,
                     SuffixOf(b, |cs|, i), SuffixOf(b, |cs|, j));
    }
  }

  predicate DistinctOrdinals(blocks: seq<Block>) {
    forall i, j :: 0 <= i < j < |blocks| ==> blocks[i].ordinal != blocks[j].ordinal
  }

  /** Every chunk's seed names the version, its block's ordinal, its type and a suffix. */
  ghost predicate FromBlocks(version: nat, blocks: seq<Block>, c: Chunk) {
    exists k, suffix :: 0 <= k < |blocks| && SeedOk(version, blocks[k], c, suffix)
  }

  lemma {:induction false} ChunksComeFromBlocks(env: Env, version: nat, max: nat, blocks: seq<Block>)
    requires max >= 1
    ensures forall c :: c in Chunks(env, version, max, blocks) ==> FromBlocks(version, blocks, c) && c.key == env.digest(c.seed)
  {
    hide BlockChunks, Seed, SuffixOf, SeedOk, Enter, After;
    if blocks != [] {
      var n := |blocks| - 1;
      var init, b := blocks[..n], blocks[n];
      var s := Enter(env, After(env, version, max, init), b);
      ChunksComeFromBlocks(env, version, max, init);
      BlockSeeds(env, version, max, s, b);
      var first, second := Chunks(env, version, max, init), BlockChunks(env, version, max, s, b);
      forall c | c in Chunks(env, version, max, blocks) ensures FromBlocks(version, blocks, c) && c.key == env.digest(c.seed) {
        if c in first {
          var k, suffix :| 0 <= k < n && SeedOk(version, init[k], c, suffix);
          assert SeedOk(version, blocks[k], c, suffix);
        } else {
          var i :| 0 <= i < |second| && second[i] == c;
          assert SeedOk(version, blocks[n], c, SuffixOf(b, |second|, i));
        }
      }
    }
  }

  lemma SeedsOfBlocksDiffer(version: nat, a: Block, b: Block, c: Chunk, d: Chunk, s: string, t: string)
    requires SeedOk(version, a, c, s) && SeedOk(version, b, d, t) && a.ordinal != b.ordinal
    ensures c.seed != d.seed
  {
    SeedsTellApart(version, a.ordinal, b.ordinal, c.chunkType, d.chunkType, s, t);
  }

  predicate DistinctSeeds(cs: seq<Chunk>) {
    forall i, j :: 0 <= i < j < |cs| ==> cs[i].seed != cs[j].seed
  }

  /** Over a whole document with distinct ordinals no two chunks share a key seed. */
  lemma {:induction false} SeedsDistinct(env: Env, version: nat, max: nat, blocks: seq<Block>)
    requires max >= 1 && DistinctOrdinals(blocks)
    ensures DistinctSeeds(Chunks(env, version, max, blocks))
  {
    hide BlockChunks, Seed, SuffixOf, SeedOk, Enter, After;
    if blocks != [] {
      var n := |blocks| - 1;
      var init, b := blocks[..n], blocks[n];
      var s := Enter(env, After(env, version, max, init), b);
      SeedsDistinct(env, version, max, init);
      ChunksComeFromBlocks(env, version, max, init);
      BlockSeeds(env, version, max, s, b);
      BlockSeedsDistinct(env, version, max, s, b);
      var first, second := Chunks(env, version, max, init), BlockChunks(env, version, max, s, b);
      forall i, j | 0 <= i < |first| && 0 <= j < |second| ensures first[i].seed != second[j].seed {
        assert first[i] in first;
        var k, suffix :| 0 <= k < n && SeedOk(version, init[k], first[i], suffix);
        SeedsOfBlocksDiffer(version, init[k], b, first[i], second[j], suffix, SuffixOf(b, |second|, j));
      }
    }
  }

  ghost predicate Injective(f: string -> string) {
    forall a, b :: f(a) == f(b) ==> a == b
  }

  /** With a digest that does not collide, chunk keys are unique in the document. */
  lemma KeysDistinct(env: Env, version: nat, max: nat, blocks: seq<Block>)
    requires max >= 1 && DistinctOrdinals(blocks) && Injective(env.digest)
    ensures var cs := Chunks(env, version, max, blocks); forall i, j :: 0 <= i < j < |cs| ==> cs[i].key != cs[j].key
  {
    hide Chunks;
    SeedsDistinct(env, version, max, blocks);
    ChunksComeFromBlocks(env, version, max, blocks);
    var cs := Chunks(env, version, max, blocks);
    forall i, j | 0 <= i < j < |cs| ensures cs[i].key != cs[j].key {
      assert cs[i] in cs && cs[j] in cs;
    }
  }

  // ---- parents and titles ----

  /** The last heading with an identifier and at least one chunk: the parent of what follows the blocks. */
  function ParentHeading(env: Env, version: nat, max: nat, blocks: seq<Block>): (h: int)
    requires max >= 1
    ensures -1 <= h < |blocks|
  {
    if blocks == [] then -1
    else
      var n := |blocks| - 1;
      if blocks[n].kind == Heading && env.identify(blocks[n].content) != "" && !AllSpace(blocks[n].content) then n
      else ParentHeading(env, version, max, blocks[..n])
  }

  /** First chunk of the h-th block within all chunks of the document. */
  function Offset(env: Env, version: nat, max: nat, blocks: seq<Block>, h: nat): nat
    requires max >= 1 && h <= |blocks|
  {
    |Chunks(env, version, max, blocks[..h])|
  }

  lemma HeadingChunks(env: Env, version: nat, max: nat, s: State, b: Block)
    requires max >= 1 && b.kind == Heading
    ensures BlockChunks(env, version, max, s, b) == [] <==> AllSpace(b.content)
  {
    hide Parts, Rows, Split, MakeChunk, ChunkType, PartSuffix;
    SplitExact(b.content, max);
  }

  lemma {:induction false} ChunksGrow(env: Env, version: nat, max: nat, blocks: seq<Block>, h: nat)
    requires max >= 1 && h <= |blocks|
    ensures Chunks(env, version, max, blocks[..h]) <= Chunks(env, version, max, blocks)
  {
    hide BlockChunks, Enter, After;
    if h == |blocks| {
      assert blocks[..h] == blocks;
    } else {
      assert blocks[..|blocks| - 1][..h] == blocks[..h];
      ChunksGrow(env, version, max, blocks[..|blocks| - 1], h);
    }
  }

  /** The parent key in force after some blocks is the key of the parent heading's first chunk, which exists already. */
  lemma {:induction false} ParentIsHeading(env: Env, version: nat, max: nat, blocks: seq<Block>)
    requires max >= 1
    ensures var h := ParentHeading(env, version, max, blocks); var s := After(env, version, max, blocks);
            if h < 0 then s.parentKey == "" && s.parentIdentifier == ""
            else
              var o := Offset(env, version, max, blocks, h); var cs := Chunks(env, version, max, blocks);
              o < |cs| && s.parentKey == cs[o].key && s.parentIdentifier == env.identify(blocks[h].content) &&
              cs[o].ordinal == blocks[h].ordinal
  {
    hide BlockChunks, PathUpdated;
    if blocks != [] {
      var n := |blocks| - 1;
      var init, b := blocks[..n], blocks[n];
      ParentIsHeading(env, version, max, init);
      ChunksGrow(env, version, max, blocks, n);
      var s := Enter(env, After(env, version, max, init), b);
      if b.kind == Heading { HeadingChunks(env, version, max, s, b); }
      var h := ParentHeading(env, version, max, blocks);
      if h == n {
        BlockSeeds(env, version, max, s, b);
      } else if h >= 0 {
        assert blocks[..h] == init[..h];
      }
    }
  }

  /** A chunk's parent key is empty or the key of an earlier chunk: the first chunk of the nearest identified heading before it. */
  lemma ParentsComeEarlier(env: Env, version: nat, max: nat, blocks: seq<Block>, k: nat, i: nat)
    requires max >= 1 && k < |blocks|
    requires var s := Enter(env, After(env, version, max, blocks[..k]), blocks[k]); i < |BlockChunks(env, version, max, s, blocks[k])|
    ensures var init := blocks[..k]; var cs := Chunks(env, version, max, blocks);
            var o := Offset(env, version, max, blocks, k) + i; var h := ParentHeading(env, version, max, init);
            && o < |cs| && cs[o].ordinal == blocks[k].ordinal
            && if h < 0 then cs[o].parentKey == ""
               else var p := Offset(env, version, max, init, h); p < o && cs[o].parentKey == cs[p].key && cs[p].ordinal == blocks[h].ordinal
  {
    hide BlockChunks, PathUpdated, SeedOk;
    var init, b := blocks[..k], blocks[k];
    var s := Enter(env, After(env, version, max, init), b);
    ParentIsHeading(env, version, max, init);
    BlockSeeds(env, version, max, s, b);
    SeedOrdinal(version, b, BlockChunks(env, version, max, s, b)[i], SuffixOf(b, |BlockChunks(env, version, max, s, b)|, i));
    ChunksGrow(env, version, max, blocks, k + 1);
    assert blocks[..k + 1][..k] == init;
    assert Chunks(env, version, max, blocks[..k + 1]) == Chunks(env, version, max, init) + BlockChunks(env, version, max, s, b);
  }

  lemma SeedOrdinal(version: nat, b: Block, c: Chunk, suffix: string)
    requires SeedOk(version, b, c, suffix)
    ensures c.ordinal == b.ordinal
  {
  }

  /** The nearest heading at or before the end of the blocks names the title of the chunks that follow. */
  function NearestHeading(blocks: seq<Block>): string {
    if blocks == [] then ""
    else if blocks[|blocks| - 1].kind == Heading then blocks[|blocks| - 1].content
    else NearestHeading(blocks[..|blocks| - 1])
  }

  lemma {:induction false} PathEndsAtHeading(env: Env, version: nat, max: nat, blocks: seq<Block>)
    requires max >= 1
    ensures var path := After(env, version, max, blocks).path;
            (if path == [] then "" else path[|path| - 1]) == NearestHeading(blocks)
  {
    hide BlockChunks;
    if blocks != [] {
      PathEndsAtHeading(env, version, max, blocks[..|blocks| - 1]);
    }
  }

  /** A heading that says which flow follows: it names one, or it opens a new use case or section. */
  predicate Decisive(env: Env, b: Block) {
    b.kind == Heading && (env.flowOf(b.content) != NoFlow || (b.level <= 2 && env.identify(b.content) != ""))
  }

  /** The flow is the one the last decisive heading names, if it names one. */
  predicate FlowFollows(env: Env, blocks: seq<Block>, flow: Flow) {
    || (flow == NoFlow && forall j :: 0 <= j < |blocks| ==> !Decisive(env, blocks[j]))
    || exists h :: 0 <= h < |blocks| && Decisive(env, blocks[h]) && flow == env.flowOf(blocks[h].content) &&
                   forall j :: h < j < |blocks| ==> !Decisive(env, blocks[j])
  }

  lemma {:induction false} FlowIsDecided(env: Env, version: nat, max: nat, blocks: seq<Block>)
    requires max >= 1
    ensures FlowFollows(env, blocks, After(env, version, max, blocks).flow)
  {
    hide BlockChunks, PathUpdated, FlowFollows, Decisive;
    if blocks == [] {
      NothingDecided(env);
    } else {
      FlowIsDecided(env, version, max, blocks[..|blocks| - 1]);
      FlowStep(env, After(env, version, max, blocks[..|blocks| - 1]), blocks);
    }
  }

  lemma NothingDecided(env: Env)
    ensures FlowFollows(env, [], NoFlow)
  {
  }

  lemma FlowStep(env: Env, s: State, blocks: seq<Block>)
    requires blocks != [] && FlowFollows(env, blocks[..|blocks| - 1], s.flow)
    ensures FlowFollows(env, blocks, Enter(env, s, blocks[|blocks| - 1]).flow)
  {
    hide PathUpdated;
    var n := |blocks| - 1;
    if !Decisive(env, blocks[n]) {
      assert Enter(env, s, blocks[n]).flow == s.flow;
      if h :| 0 <= h < n && Decisive(env, blocks[..n][h]) && s.flow == env.flowOf(blocks[..n][h].content) &&
              forall j :: h < j < n ==> !Decisive(env, blocks[..n][j]) {
        assert Decisive(env, blocks[h]) && forall j :: h < j < |blocks| ==> !Decisive(env, blocks[j]);
      }
    } else {
      assert Enter(env, s, blocks[n]).flow == env.flowOf(blocks[n].content);
    }
  }

  /** What a chunk is called: by the prefix of its identifier, or by the kind of its block. */
  predicate TypeFits(kind: Kind, identifier: string, chunkType: string) {
    && ("UC" <= identifier ==> chunkType == "USE_CASE")
    && ("BR" <= identifier ==> chunkType == "BUSINESS_RULE")
    && ("AC" <= identifier ==> chunkType == "ACCEPTANCE_CRITERION")
    && ("NFR" <= identifier ==> chunkType == "NON_FUNCTIONAL")
    && ("FR" <= identifier || "PR" <= identifier ==> chunkType == "REQUIREMENT")
    && (!("UC" <= identifier || "BR" <= identifier || "AC" <= identifier || "NFR" <= identifier || "FR" <= identifier ||
          "PR" <= identifier) ==>
          && (kind == Heading ==> chunkType == "SECTION")
          && (kind == List ==> chunkType == "FLOW_STEP")
          && (kind == Code ==> chunkType == "CODE_REFERENCE")
          && (kind == Paragraph || kind == Table ==> chunkType == "PROSE"))
  }

  lemma PrefixIs(s: string, prefix: string)
    ensures HasPrefix(s, prefix) <==> prefix <= s
  {
  }

  lemma TypeOfChunk(kind: Kind, identifier: string)
    ensures TypeFits(kind, identifier, ChunkType(kind, identifier))
  {
    hide HasPrefix;
    forall prefix ensures HasPrefix(identifier, prefix) <==> prefix <= identifier { PrefixIs(identifier, prefix); }
    PrefixesApart(identifier);
  }

  lemma PrefixesApart(s: string)
    ensures "UC" <= s ==> s[0] == 'U'
    ensures "BR" <= s ==> s[0] == 'B'
    ensures "AC" <= s ==> s[0] == 'A'
    ensures "NFR" <= s ==> s[0] == 'N'
    ensures "FR" <= s ==> s[0] == 'F'
    ensures "PR" <= s ==> s[0] == 'P'
  {
  }

  /** The chunk's own identifier, or within a flow that of the parent heading. */
  predicate IdentifierFits(env: Env, parent: string, c: Chunk) {
    if env.identify(c.raw) != "" then c.identifier == env.identify(c.raw)
    else if c.flow == NoFlow then c.identifier == ""
    else c.identifier == parent
  }

  /** What a block's chunks take over from the state, and what from the block. */
  lemma ChunkFields(env: Env, version: nat, max: nat, s: State, b: Block, i: nat)
    requires max >= 1 && i < |BlockChunks(env, version, max, s, b)|
    ensures var c := BlockChunks(env, version, max, s, b)[i];
            && c.title == (if s.path == [] then "" else s.path[|s.path| - 1])
            && c.flow == s.flow && IdentifierFits(env, s.parentIdentifier, c)
            && c.content == Normalized(c.raw) && SeedFits(env, version, max, b, i, c)
            && (if IsRowTable(b) then c.chunkType == "TABLE_ROW" else TypeFits(b.kind, env.identify(c.raw), c.chunkType))
  {
    hide Rows, Parts, Split, ChunkType, TypeFits, Normalized, Decimal, Join;
    var c := BlockChunks(env, version, max, s, b)[i];
    var suffix := if IsRowTable(b) then "row-" + Decimal(i + 1)
                  else if |Parts(b.content, max)| > 1 then "part-" + Decimal(i + 1) else "";
    if !IsRowTable(b) {
      TypeOfChunk(b.kind, env.identify(c.raw));
    }
    JoinFour(Decimal(version), Decimal(b.ordinal), c.chunkType, suffix);
  }

  lemma JoinFour(a: string, b: string, c: string, d: string)
    ensures Join([a, b, c, d], ':') == a + ":" + b + ":" + c + ":" + d
  {
    assert [a, b, c, d][1..] == [b, c, d] && [b, c, d][1..] == [c, d] && [c, d][1..] == [d];
    assert Join([c, d], ':') == c + ":" + d;
    assert Join([b, c, d], ':') == b + ":" + (c + ":" + d);
    assert Join([a, b, c, d], ':') == a + ":" + (b + ":" + (c + ":" + d));
  }

  /** Where a chunk of block k counts from in the seed: its row, or its part if there are several. */
  predicate SeedFits(env: Env, version: nat, max: nat, b: Block, i: nat, c: Chunk)
    requires max >= 1
  {
    var suffix := if IsRowTable(b) then "row-" + Decimal(i + 1)
                  else if |Parts(b.content, max)| > 1 then "part-" + Decimal(i + 1) else "";
    c.seed == Join([Decimal(version), Decimal(b.ordinal), c.chunkType, suffix], ':') && c.key == env.digest(c.seed)
  }

  /**
   * The i-th chunk of block k, read off the blocks alone: it is titled by the nearest heading, stands in the flow the
   * last decisive heading names, carries its own identifier or, in a flow, the parent heading's, and has the type its
   * identifier or its kind gives it.
   */
  predicate ChunkFits(env: Env, version: nat, max: nat, blocks: seq<Block>, k: nat, i: nat, c: Chunk)
    requires max >= 1 && k < |blocks|
  {
    var h := ParentHeading(env, version, max, blocks[..k]);
    && c.title == NearestHeading(blocks[..k + 1])
    && FlowFollows(env, blocks[..k + 1], c.flow)
    && IdentifierFits(env, if h < 0 then "" else env.identify(blocks[h].content), c)
    && (if IsRowTable(blocks[k]) then c.chunkType == "TABLE_ROW" else TypeFits(blocks[k].kind, env.identify(c.raw), c.chunkType))
    && c.content == Normalized(c.raw) && SeedFits(env, version, max, blocks[k], i, c)
  }

  /** Where the i-th chunk of block k is. */
  lemma ChunkAt(env: Env, version: nat, max: nat, blocks: seq<Block>, k: nat, i: nat)
    requires max >= 1 && k < |blocks|
    requires var s := Enter(env, After(env, version, max, blocks[..k]), blocks[k]); i < |BlockChunks(env, version, max, s, blocks[k])|
    ensures var s := Enter(env, After(env, version, max, blocks[..k]), blocks[k]); var o := Offset(env, version, max, blocks, k) + i;
            o < |Chunks(env, version, max, blocks)| &&
            Chunks(env, version, max, blocks)[o] == BlockChunks(env, version, max, s, blocks[k])[i]
  {
    hide BlockChunks, Enter, After;
    assert blocks[..k + 1][..k] == blocks[..k] && blocks[..k + 1][k] == blocks[k];
    var s := Enter(env, After(env, version, max, blocks[..k]), blocks[k]);
    ChunksGrow(env, version, max, blocks, k + 1);
    assert Chunks(env, version, max, blocks[..k + 1]) ==
           Chunks(env, version, max, blocks[..k]) + BlockChunks(env, version, max, s, blocks[k]);
  }

  /** Every chunk of the document is what the blocks alone say it is. */
  lemma ChunkExactly(env: Env, version: nat, max: nat, blocks: seq<Block>, k: nat, i: nat)
    requires max >= 1 && k < |blocks|
    requires var s := Enter(env, After(env, version, max, blocks[..k]), blocks[k]); i < |BlockChunks(env, version, max, s, blocks[k])|
    ensures var cs := Chunks(env, version, max, blocks); var o := Offset(env, version, max, blocks, k) + i;
            o < |cs| && ChunkFits(env, version, max, blocks, k, i, cs[o])
  {
    hide BlockChunks, Enter, After, Chunks, FlowFollows, TypeFits, IdentifierFits, Normalized, SeedFits, ParentHeading, NearestHeading, IsRowTable;
    var init, b := blocks[..k], blocks[k];
    assert blocks[..k + 1][..k] == init && blocks[..k + 1][k] == b;
    var before := After(env, version, max, init);
    var s := Enter(env, before, b);
    ChunkAt(env, version, max, blocks, k, i);
    ChunkFields(env, version, max, s, b, i);
    EnterKeepsParent(env, before, b);
    ParentInForce(env, version, max, init);
    FlowIsDecided(env, version, max, init);
    FlowStep(env, before, blocks[..k + 1]);
    PathEndsAtHeading(env, version, max, init);
    TitleStep(env, before, blocks[..k + 1]);
    if ParentHeading(env, version, max, init) >= 0 {
      assert init[ParentHeading(env, version, max, init)] == blocks[ParentHeading(env, version, max, init)];
    }
  }

  /** And every chunk is some chunk of some block. */
  lemma {:induction false} EveryChunkFits(env: Env, version: nat, max: nat, blocks: seq<Block>, o: nat) returns (k: nat, i: nat)
    requires max >= 1 && o < |Chunks(env, version, max, blocks)|
    ensures k < |blocks| && o == Offset(env, version, max, blocks, k) + i
    ensures i < |BlockChunks(env, version, max, Enter(env, After(env, version, max, blocks[..k]), blocks[k]), blocks[k])|
    ensures ChunkFits(env, version, max, blocks, k, i, Chunks(env, version, max, blocks)[o])
  {
    hide BlockChunks, Enter, After, ChunkFits;
    var n := |blocks| - 1;
    var init := blocks[..n];
    if o < |Chunks(env, version, max, init)| {
      k, i := EveryChunkFits(env, version, max, init, o);
      assert init[..k] == blocks[..k];
    } else {
      k, i := n, o - |Chunks(env, version, max, init)|;
    }
    ChunkExactly(env, version, max, blocks, k, i);
  }

  lemma EnterKeepsParent(env: Env, s: State, b: Block)
    ensures Enter(env, s, b).parentIdentifier == s.parentIdentifier && Enter(env, s, b).parentKey == s.parentKey
  {
  }

  lemma ParentInForce(env: Env, version: nat, max: nat, blocks: seq<Block>)
    requires max >= 1
    ensures var h := ParentHeading(env, version, max, blocks);
            After(env, version, max, blocks).parentIdentifier == if h < 0 then "" else env.identify(blocks[h].content)
  {
    hide BlockChunks, Enter, After, Chunks, ParentHeading;
    ParentIsHeading(env, version, max, blocks);
  }

  lemma TitleStep(env: Env, s: State, blocks: seq<Block>)
    requires blocks != []
    requires (if s.path == [] then "" else s.path[|s.path| - 1]) == NearestHeading(blocks[..|blocks| - 1])
    ensures var path := Enter(env, s, blocks[|blocks| - 1]).path;
            (if path == [] then "" else path[|path| - 1]) == NearestHeading(blocks)
  {
  }

  // ---- conservation ----

  lemma {:induction false} WordsKeepVisible(s: string)
    ensures NonSpace(Concat(Fields(s))) == NonSpace(s)
    decreases |s|
  {
    hide IsSpace;
    var t := TrimLeft(s);
    TrimLeftFacts(s);
    if t != "" {
      var k := WordLength(t);
      WordsKeepVisible(t[k..]);
      assert Fields(s) == [t[..k]] + Fields(t[k..]);
      assert Fields(s)[1..] == Fields(t[k..]);
      assert t[..k] + t[k..] == t;
      NonSpaceConcat(t[..k], t[k..]);
      NonSpaceConcat(t[..k], Concat(Fields(t[k..])));
    }
  }

  lemma {:induction false} JoinKeepsVisible(words: seq<string>)
    ensures NonSpace(Join(words, ' ')) == NonSpace(Concat(words))
  {
    hide NonSpace;
    if |words| == 1 {
      assert words[1..] == [];
      assert words[0] + "" == words[0];
    } else if |words| > 1 {
      var rest := Join(words[1..], ' ');
      JoinKeepsVisible(words[1..]);
      assert words[0] + [' '] + rest == words[0] + ([' '] + rest);
      NonSpaceConcat(words[0], [' '] + rest);
      NonSpaceConcat([' '], rest);
      NonSpaceConcat(words[0], Concat(words[1..]));
      SpaceIsInvisible();
    }
  }

  lemma SpaceIsInvisible()
    ensures NonSpace([' ']) == ""
  {
  }

  /** Normalizing keeps every visible character. */
  lemma NormalizedKeepsVisible(raw: string)
    ensures NonSpace(Normalized(raw)) == NonSpace(raw)
  {
    hide NonSpace, Fields, Join;
    WordsKeepVisible(raw);
    JoinKeepsVisible(Fields(raw));
  }

  lemma {:induction false} JoinHasWords(words: seq<string>)
    requires forall i :: 0 <= i < |words| ==> Word(words[i])
    ensures WordsOf(Join(words, ' '), words)
  {
    hide IsSpace, Word;
    if |words| == 1 {
      assert Join(words, ' ') == "" + (words[0] + "") && AllSpace("");
      assert Begins(Join(words, ' '), words[0], "") && WordsOf("", words[1..]);
    } else if |words| > 1 {
      JoinHasWords(words[1..]);
      var rest := Join(words[1..], ' ');
      assert Join(words, ' ') == "" + (words[0] + ([' '] + rest)) && AllSpace("");
      SpaceIsSpace();
      assert Begins(Join(words, ' '), words[0], [' '] + rest);
      WordsBehindSpace(rest, words[1..]);
    }
  }

  lemma SpaceIsSpace()
    ensures IsSpace(' ')
  {
  }

  lemma WordsBehindSpace(s: string, words: seq<string>)
    requires WordsOf(s, words)
    ensures WordsOf([' '] + s, words)
  {
    hide IsSpace, Word;
    FieldsExactly(s, words);
    FieldsExactly([' '] + s, words);
    SpaceIsSpace();
    TrimLeftSkips([' '], s);
  }

  /** Normalizing keeps the words, and puts one space between them. */
  lemma NormalizedKeepsWords(raw: string)
    ensures Fields(Normalized(raw)) == Fields(raw)
    ensures Normalized(raw) == Join(Fields(raw), ' ')
  {
    hide Fields, Join, WordsOf, Word;
    FieldsExactly(raw, Fields(raw));
    AllWords(raw, Fields(raw));
    JoinHasWords(Fields(raw));
    FieldsExactly(Normalized(raw), Fields(raw));
  }

  function Raws(cs: seq<Chunk>): (r: seq<string>)
    ensures |r| == |cs| && forall i :: 0 <= i < |cs| ==> r[i] == cs[i].raw
  {
    seq(|cs|, i requires 0 <= i < |cs| => cs[i].raw)
  }

  function Contents(cs: seq<Chunk>): (r: seq<string>)
    ensures |r| == |cs| && forall i :: 0 <= i < |cs| ==> r[i] == cs[i].content
  {
    seq(|cs|, i requires 0 <= i < |cs| => cs[i].content)
  }

  lemma {:induction false} SameVisible(a: seq<string>, b: seq<string>)
    requires |a| == |b| && forall i :: 0 <= i < |a| ==> NonSpace(a[i]) == NonSpace(b[i])
    ensures NonSpace(Concat(a)) == NonSpace(Concat(b))
  {
    hide NonSpace;
    if a != [] {
      SameVisible(a[1..], b[1..]);
      NonSpaceConcat(a[0], Concat(a[1..]));
      NonSpaceConcat(b[0], Concat(b[1..]));
    }
  }

  /** A block that is not cut into table rows loses nothing: its chunks together show every visible character in order. */
  lemma BlockTextConserved(env: Env, version: nat, max: nat, s: State, b: Block)
    requires max >= 1 && !IsRowTable(b)
    ensures var cs := BlockChunks(env, version, max, s, b);
            && NonSpace(Concat(Raws(cs))) == NonSpace(b.content)
            && NonSpace(Concat(Contents(cs))) == NonSpace(b.content)
            && forall c :: c in cs ==> |c.raw| <= max
  {
    hide NonSpace, Parts, Concat, IsRowTable, Normalized, ChunkType, PartSuffix;
    var cs := BlockChunks(env, version, max, s, b);
    SplitExact(b.content, max);
    assert Raws(cs) == Parts(b.content, max);
    forall i | 0 <= i < |cs| ensures NonSpace(Contents(cs)[i]) == NonSpace(Raws(cs)[i]) {
      NormalizedKeepsVisible(cs[i].raw);
    }
    SameVisible(Contents(cs), Raws(cs));
  }

  /** A row table keeps every row: one chunk per row after the header, each showing header and row. */
  lemma RowsConserved(env: Env, version: nat, max: nat, s: State, b: Block)
    requires max >= 1 && IsRowTable(b)
    ensures var cs := BlockChunks(env, version, max, s, b); var rows := Rows(Split(b.content, '\n'));
            && |cs| == |rows| - 1
            && forall i :: 0 <= i < |cs| ==> cs[i].raw == rows[0] + "\n" + rows[i + 1]
    ensures forall line :: line in Split(b.content, '\n') && !AllSpace(line) && !IsSeparator(TrimSpace(line)) ==>
              TrimSpace(line) in Rows(Split(b.content, '\n'))
  {
    hide Normalized, Seed, IsSeparator, Split, AllSpace, TrimSpace;
    RowsKeepLines(Split(b.content, '\n'));
  }

  lemma {:induction false} RowsKeepLines(lines: seq<string>)
    ensures forall line :: line in lines && !AllSpace(line) && !IsSeparator(TrimSpace(line)) ==> TrimSpace(line) in Rows(lines)
  {
    hide IsSeparator, AllSpace, TrimSpace;
    if lines != [] {
      var n := |lines| - 1;
      RowsKeepLines(lines[..n]);
      TrimSpaceFacts(lines[n]);
      assert lines == lines[..n] + [lines[n]];
    }
  }
}
