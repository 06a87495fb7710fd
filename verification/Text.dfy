/** String primitives the text pipelines share: splitting, joining, trimming, decimal numbers. */
module Text {
  const NUL: char := '\0'

  /** strings.Split with a one-character separator: never empty. */
  function Split(s: string, sep: char): (parts: seq<string>)
    ensures parts != []
    ensures forall p :: p in parts ==> sep !in p
  {
    if s == "" then [""]
    else if s[0] == sep then [""] + Split(s[1..], sep)
    else
      var rest := Split(s[1..], sep);
      [[s[0]] + rest[0]] + rest[1..]
  }

  /** strings.Join with a one-character separator. */
  function Join(parts: seq<string>, sep: char): string {
    if parts == [] then ""
    else if |parts| == 1 then parts[0]
    else parts[0] + [sep] + Join(parts[1..], sep)
  }

  /** Joining pieces free of the separator and splitting again gives the pieces back. */
  lemma {:induction false} SplitJoin(parts: seq<string>, sep: char)
    requires parts != []
    requires forall p :: p in parts ==> sep !in p
    ensures Split(Join(parts, sep), sep) == parts
  {
    if |parts| == 1 {
      SplitPrefix(parts[0], "", sep);
      assert parts[0] + "" == parts[0];
    } else {
      SplitJoin(parts[1..], sep);
      var tail := [sep] + Join(parts[1..], sep);
      SplitPrefix(parts[0], tail, sep);
      assert parts[0] + tail == Join(parts, sep);
      assert tail[1..] == Join(parts[1..], sep);
      assert Split(tail, sep) == [""] + parts[1..];
      assert parts[0] + "" == parts[0];
      assert parts == [parts[0]] + parts[1..];
    }
  }

  lemma {:induction false} SplitPrefix(p: string, tail: string, sep: char)
    requires sep !in p
    ensures var t := Split(tail, sep); Split(p + tail, sep) == [p + t[0]] + t[1..]
  {
    if p == "" {
      assert p + tail == tail;
      var t := Split(tail, sep);
      assert t == [t[0]] + t[1..];
      assert p + t[0] == t[0];
    } else {
      SplitPrefix(p[1..], tail, sep);
      assert (p + tail)[1..] == p[1..] + tail;
      var t := Split(tail, sep);
      assert [p[0]] + (p[1..] + t[0]) == p + t[0];
    }
  }

  /** Different lists of non-empty, separator-free pieces have different joins. */
  lemma JoinInjective(a: seq<string>, b: seq<string>, sep: char)
    requires forall p :: p in a || p in b ==> p != "" && sep !in p
    ensures Join(a, sep) == Join(b, sep) <==> a == b
  {
    if Join(a, sep) == Join(b, sep) && a != b {
      if a != [] && b != [] {
        SplitJoin(a, sep);
        SplitJoin(b, sep);
      } else {
        var c := if a == [] then b else a;
        assert c[0] in c;
        JoinOfNonEmpty(c, sep);
      }
    }
  }

  lemma JoinOfNonEmpty(parts: seq<string>, sep: char)
    requires parts != [] && parts[0] != ""
    ensures Join(parts, sep) != ""
  {
  }

  /** Every character of a piece is in the join. */
  lemma {:induction false} JoinKeeps(parts: seq<string>, sep: char, part: string, c: char)
    requires part in parts && c in part
    ensures c in Join(parts, sep)
  {
    if |parts| > 1 && part != parts[0] {
      assert part in parts[1..];
      JoinKeeps(parts[1..], sep, part, c);
    }
  }

  // ---- white space ----

  /** unicode.IsSpace. */
  predicate IsSpace(c: char) {
    '\t' <= c <= '\r' || c == ' ' || c == '\U{85}' || c == '\U{A0}' || c == '\U{1680}' ||
    '\U{2000}' <= c <= '\U{200A}' || c == '\U{2028}' || c == '\U{2029}' || c == '\U{202F}' ||
    c == '\U{205F}' || c == '\U{3000}'
  }

  predicate AllSpace(s: string) {
    forall c :: c in s ==> IsSpace(c)
  }

  function TrimLeft(s: string): string {
    if s != "" && IsSpace(s[0]) then TrimLeft(s[1..]) else s
  }

  function TrimRight(s: string): string {
    if s != "" && IsSpace(s[|s| - 1]) then TrimRight(s[..|s| - 1]) else s
  }

  /** strings.TrimSpace. */
  function TrimSpace(s: string): string {
    TrimRight(TrimLeft(s))
  }

  /** The text with all its white space removed: what no reformatting step may change. */
  function NonSpace(s: string): string {
    if s == "" then ""
    else if IsSpace(s[0]) then NonSpace(s[1..])
    else [s[0]] + NonSpace(s[1..])
  }

  lemma {:induction false} NonSpaceConcat(a: string, b: string)
    ensures NonSpace(a + b) == NonSpace(a) + NonSpace(b)
  {
    hide IsSpace;
    if a == "" {
      assert a + b == b;
    } else {
      NonSpaceConcat(a[1..], b);
      assert (a + b)[0] == a[0] && (a + b)[1..] == a[1..] + b;
      assert NonSpace(a + b) == (if IsSpace(a[0]) then "" else [a[0]]) + (NonSpace(a[1..]) + NonSpace(b));
    }
  }

  lemma {:induction false} TrimLeftFacts(s: string)
    ensures NonSpace(TrimLeft(s)) == NonSpace(s)
    ensures |TrimLeft(s)| <= |s|
    ensures AllSpace(s) ==> TrimLeft(s) == ""
    ensures TrimLeft(s) != "" ==> !IsSpace(TrimLeft(s)[0])
  {
    if s != "" && IsSpace(s[0]) {
      TrimLeftFacts(s[1..]);
    } else if s != "" {
      assert s[0] in s;
    }
  }

  lemma {:induction false} TrimRightFacts(s: string)
    ensures NonSpace(TrimRight(s)) == NonSpace(s)
    ensures |TrimRight(s)| <= |s|
    ensures s != "" && !IsSpace(s[0]) ==> TrimRight(s) != "" && TrimRight(s)[0] == s[0]
  {
    if s != "" && IsSpace(s[|s| - 1]) {
      TrimRightFacts(s[..|s| - 1]);
      assert s == s[..|s| - 1] + [s[|s| - 1]];
      NonSpaceConcat(s[..|s| - 1], [s[|s| - 1]]);
    }
  }

  /** Trimming keeps every visible character, never lengthens, and empties exactly the blank texts. */
  lemma TrimSpaceFacts(s: string)
    ensures NonSpace(TrimSpace(s)) == NonSpace(s)
    ensures |TrimSpace(s)| <= |s|
    ensures TrimSpace(s) == "" <==> AllSpace(s)
  {
    TrimLeftFacts(s);
    TrimRightFacts(TrimLeft(s));
    NonSpaceEmpty(s);
    if TrimLeft(s) == "" {
      assert NonSpace(s) == "";
    }
  }

  /** t is s without its margins. */
  ghost predicate Trimmed(s: string, t: string) {
    && (exists a, b :: AllSpace(a) && AllSpace(b) && s == a + t + b)
    && (t != "" ==> !IsSpace(t[0]) && !IsSpace(t[|t| - 1]))
  }

  lemma {:induction false} TrimRightSplits(s: string) returns (b: string)
    ensures AllSpace(b) && s == TrimRight(s) + b
    ensures TrimRight(s) != "" ==> !IsSpace(TrimRight(s)[|TrimRight(s)| - 1])
  {
    hide IsSpace;
    if s != "" && IsSpace(s[|s| - 1]) {
      var n := |s| - 1;
      b := TrimRightSplits(s[..n]);
      assert s == s[..n] + [s[n]] == TrimRight(s) + (b + [s[n]]);
      b := b + [s[n]];
    } else {
      b := "";
    }
  }

  /** Trimming takes the margins off, and nothing else is a way of doing so. */
  lemma TrimSpaceExactly(s: string, t: string)
    ensures Trimmed(s, t) <==> t == TrimSpace(s)
  {
    hide IsSpace;
    TrimLeftSplits(s);
    TrimLeftFacts(s);
    TrimRightFacts(TrimLeft(s));
    var b := TrimRightSplits(TrimLeft(s));
    var a := s[..|s| - |TrimLeft(s)|];
    assert s == a + TrimSpace(s) + b;
    assert Trimmed(s, TrimSpace(s));
    if Trimmed(s, t) {
      var c, d :| AllSpace(c) && AllSpace(d) && s == c + t + d;
      TrimIgnoresMargins(c, t, d);
      TrimmedStays(t);
    }
  }

  lemma TrimmedStays(t: string)
    requires t != "" ==> !IsSpace(t[0]) && !IsSpace(t[|t| - 1])
    ensures TrimSpace(t) == t
  {
    hide IsSpace;
  }

  lemma {:induction false} NonSpaceEmpty(s: string)
    ensures NonSpace(s) == "" <==> AllSpace(s)
  {
    if s != "" {
      NonSpaceEmpty(s[1..]);
      assert s == [s[0]] + s[1..];
      assert s[0] in s;
      if AllSpace(s) {
        assert forall c :: c in s[1..] ==> c in s;
      }
    }
  }

  lemma {:induction false} TrimLeftSkips(a: string, t: string)
    requires AllSpace(a)
    ensures TrimLeft(a + t) == TrimLeft(t)
  {
    if a == "" {
      assert a + t == t;
    } else {
      assert a[0] in a && forall c :: c in a[1..] ==> c in a;
      TrimLeftSkips(a[1..], t);
      assert (a + t)[1..] == a[1..] + t;
    }
  }

  lemma {:induction false} TrimRightSkips(t: string, b: string)
    requires AllSpace(b)
    ensures TrimRight(t + b) == TrimRight(t)
  {
    if b == "" {
      assert t + b == t;
    } else {
      var n := |b| - 1;
      assert b[n] in b && forall c :: c in b[..n] ==> c in b;
      TrimRightSkips(t, b[..n]);
      assert (t + b)[..|t + b| - 1] == t + b[..n];
    }
  }

  lemma {:induction false} TrimLeftStops(t: string, b: string)
    requires !AllSpace(t)
    ensures TrimLeft(t + b) == TrimLeft(t) + b
  {
    if IsSpace(t[0]) {
      var c :| c in t && !IsSpace(c);
      assert t == [t[0]] + t[1..];
      assert c in t[1..];
      TrimLeftStops(t[1..], b);
      assert (t + b)[1..] == t[1..] + b;
    }
  }

  /** White space around a text makes no difference once it is trimmed. */
  lemma TrimIgnoresMargins(a: string, t: string, b: string)
    requires AllSpace(a) && AllSpace(b)
    ensures TrimSpace(a + t + b) == TrimSpace(t)
  {
    hide IsSpace;
    assert a + t + b == a + (t + b);
    TrimLeftSkips(a, t + b);
    if AllSpace(t) {
      TrimLeftSkips(t, b);
      TrimLeftFacts(b);
      TrimLeftFacts(t);
    } else {
      TrimLeftStops(t, b);
      TrimRightSkips(TrimLeft(t), b);
    }
  }

  /** strings.Fields: the maximal runs of non-space characters. */
  function Fields(s: string): (words: seq<string>)
    ensures forall w :: w in words ==> w != "" && forall c :: c in w ==> c in s
    decreases |s|
  {
    var t := TrimLeft(s);
    TrimLeftFacts(s);
    TrimLeftSuffix(s);
    if t == "" then []
    else
      var k := WordLength(t);
      assert forall c :: c in t[..k] ==> c in t;
      assert forall c :: c in t[k..] ==> c in t;
      [t[..k]] + Fields(t[k..])
  }

  lemma {:induction false} TrimLeftSuffix(s: string)
    ensures forall c :: c in TrimLeft(s) ==> c in s
  {
    if s != "" && IsSpace(s[0]) {
      TrimLeftSuffix(s[1..]);
    }
  }

  function WordLength(s: string): (k: nat)
    ensures k <= |s| && (s != "" && !IsSpace(s[0]) ==> k > 0)
  {
    if s == "" || IsSpace(s[0]) then 0 else 1 + WordLength(s[1..])
  }

  predicate Word(s: string) {
    s != "" && forall i :: 0 <= i < |s| ==> !IsSpace(s[i])
  }

  /** Behind white space the text begins with the word w, which ends where b begins. */
  ghost predicate Begins(s: string, w: string, b: string) {
    Word(w) && (b == "" || IsSpace(b[0])) && exists a :: AllSpace(a) && s == a + (w + b)
  }

  /** The words, in this order, are what the text has between its white space. */
  ghost predicate WordsOf(s: string, words: seq<string>)
    decreases |words|
  {
    if words == [] then AllSpace(s) else exists b :: Begins(s, words[0], b) && WordsOf(b, words[1..])
  }

  lemma {:induction false} WordLengthIs(w: string, b: string)
    requires forall i :: 0 <= i < |w| ==> !IsSpace(w[i])
    requires b == "" || IsSpace(b[0])
    ensures WordLength(w + b) == |w|
  {
    hide IsSpace;
    if w == "" {
      assert w + b == b;
    } else {
      assert (w + b)[1..] == w[1..] + b;
      WordLengthIs(w[1..], b);
    }
  }

  lemma {:induction false} WordLengthFacts(t: string)
    ensures forall i :: 0 <= i < WordLength(t) ==> !IsSpace(t[i])
    ensures t[WordLength(t)..] == "" || IsSpace(t[WordLength(t)..][0])
  {
    hide IsSpace;
    if t != "" && !IsSpace(t[0]) {
      WordLengthFacts(t[1..]);
      assert t[1..][WordLength(t[1..])..] == t[WordLength(t)..];
    }
  }

  /** What is trimmed off the front is white space. */
  lemma {:induction false} TrimLeftSplits(s: string)
    ensures |TrimLeft(s)| <= |s|
    ensures var a := s[..|s| - |TrimLeft(s)|]; AllSpace(a) && s == a + TrimLeft(s)
  {
    hide IsSpace;
    if s != "" && IsSpace(s[0]) {
      TrimLeftSplits(s[1..]);
      var a := s[1..][..|s[1..]| - |TrimLeft(s)|];
      assert s[..|s| - |TrimLeft(s)|] == [s[0]] + a;
      forall c | c in [s[0]] + a ensures IsSpace(c) {
        assert c == s[0] || c in a;
      }
      assert s == [s[0]] + (a + TrimLeft(s));
    } else {
      assert s[..0] == "" && s == "" + s;
    }
  }

  /** There is one such word and one such rest, unless the text is blank. */
  lemma BeginsExactly(s: string, w: string, b: string)
    ensures var t := TrimLeft(s); var k := WordLength(t);
            Begins(s, w, b) <==> t != "" && w == t[..k] && b == t[k..]
  {
    hide IsSpace, Word, AllSpace, TrimLeft, WordLength;
    var t := TrimLeft(s);
    if t != "" {
      FirstWordFound(s);
    }
    if Begins(s, w, b) {
      var a :| AllSpace(a) && s == a + (w + b);
      TrimLeftSkips(a, w + b);
      StartsWithWord(w, b);
    }
  }

  lemma FirstWordFound(s: string)
    requires TrimLeft(s) != ""
    ensures |TrimLeft(s)| <= |s|
    ensures var t := TrimLeft(s); var k := WordLength(t); Begins(s, t[..k], t[k..])
  {
    hide IsSpace, Word, AllSpace;
    var t := TrimLeft(s);
    var k := WordLength(t);
    TrimLeftFacts(s);
    TrimLeftSplits(s);
    FirstWord(t);
    assert t == t[..k] + t[k..];
    var a := s[..|s| - |t|];
    assert AllSpace(a) && s == a + (t[..k] + t[k..]);
  }

  /** A text has one list of words only, and Fields finds it. */
  lemma {:induction false} FieldsExactly(s: string, words: seq<string>)
    ensures WordsOf(s, words) <==> words == Fields(s)
    decreases |s|
  {
    hide IsSpace, Word, AllSpace, Begins, TrimLeft, WordLength;
    var t := TrimLeft(s);
    TrimLeftFacts(s);
    if words == [] {
      BlankTrimmed(s);
    } else {
      BeginsExactly(s, words[0], t[WordLength(t)..]);
      forall b ensures Begins(s, words[0], b) ==> t != "" && b == t[WordLength(t)..] {
        BeginsExactly(s, words[0], b);
      }
      if t != "" {
        FieldsExactly(t[WordLength(t)..], words[1..]);
        assert words == [words[0]] + words[1..];
      }
    }
  }

  lemma BlankTrimmed(s: string)
    ensures AllSpace(s) <==> TrimLeft(s) == ""
  {
    hide IsSpace;
    TrimLeftFacts(s);
    TrimLeftSplits(s);
  }

  lemma FirstWord(t: string)
    requires t != "" && !IsSpace(t[0])
    ensures Word(t[..WordLength(t)])
    ensures t[WordLength(t)..] == "" || IsSpace(t[WordLength(t)..][0])
  {
    hide IsSpace;
    WordLengthFacts(t);
  }

  lemma StartsWithWord(w: string, b: string)
    requires Word(w) && (b == "" || IsSpace(b[0]))
    ensures TrimLeft(w + b) == w + b && WordLength(w + b) == |w| && w + b != ""
  {
    hide IsSpace;
    WordLengthIs(w, b);
  }

  lemma {:induction false} AllWords(s: string, words: seq<string>)
    requires WordsOf(s, words)
    ensures forall i :: 0 <= i < |words| ==> Word(words[i])
    decreases |words|
  {
    hide Word, IsSpace;
    if words != [] {
      var b :| Begins(s, words[0], b) && WordsOf(b, words[1..]);
      AllWords(b, words[1..]);
      forall i | 0 <= i < |words| ensures Word(words[i]) {
        assert i > 0 ==> words[i] == words[1..][i - 1];
      }
    }
  }

  /** Texts one after the other. */
  function Concat(parts: seq<string>): string {
    if parts == [] then "" else parts[0] + Concat(parts[1..])
  }

  lemma {:induction false} NonSpaceOfWord(w: string)
    requires forall i :: 0 <= i < |w| ==> !IsSpace(w[i])
    ensures NonSpace(w) == w
  {
    hide IsSpace;
    if w != "" {
      NonSpaceOfWord(w[1..]);
    }
  }

  /** A text and its words one after the other differ in white space only. */
  lemma {:induction false} FieldsKeepVisible(s: string)
    ensures NonSpace(s) == Concat(Fields(s))
    decreases |s|
  {
    hide IsSpace, AllSpace;
    var t := TrimLeft(s);
    TrimLeftFacts(s);
    if t == "" {
      assert NonSpace(s) == NonSpace(t) == "";
    } else {
      var k := WordLength(t);
      WordLengthFacts(t);
      FieldsKeepVisible(t[k..]);
      assert t == t[..k] + t[k..];
      NonSpaceConcat(t[..k], t[k..]);
      NonSpaceOfWord(t[..k]);
      assert Fields(s)[1..] == Fields(t[k..]);
    }
  }

  // ---- decimal numbers ----

  predicate IsDigit(c: char) { '0' <= c <= '9' }

  predicate AllDigits(s: string) { forall c :: c in s ==> IsDigit(c) }

  function DigitChar(n: nat): (c: char)
    requires n < 10
    ensures IsDigit(c) && DigitValue(c) == n
  {
    '0' + n as char
  }

  function DigitValue(c: char): (n: nat)
    requires IsDigit(c)
    ensures n < 10
  {
    c as int - '0' as int
  }

  /** strconv.Itoa and the verb %d on a non-negative number. */
  function Decimal(n: nat): (s: string)
    ensures s != "" && AllDigits(s)
  {
    if n < 10 then [DigitChar(n)] else Decimal(n / 10) + [DigitChar(n % 10)]
  }

  /** The number a run of decimal digits denotes. */
  function DecimalValue(s: string): nat
    requires AllDigits(s)
  {
    if s == "" then 0
    else 10 * DecimalValue(s[..|s| - 1]) + DigitValue(s[|s| - 1])
  }

  /** Reading a printed number gives the number back, so printing is injective. */
  lemma {:induction false} DecimalRoundTrip(n: nat)
    ensures DecimalValue(Decimal(n)) == n
  {
    if n >= 10 {
      DecimalRoundTrip(n / 10);
      assert Decimal(n)[..|Decimal(n)| - 1] == Decimal(n / 10);
    }
  }

  /** Number of leading digits. */
  function DigitRun(s: string): (k: nat)
    ensures k <= |s| && AllDigits(s[..k])
    ensures k < |s| ==> !IsDigit(s[k])
  {
    if s == "" || !IsDigit(s[0]) then 0
    else
      var k := 1 + DigitRun(s[1..]);
      assert s[..k] == [s[0]] + s[1..][..k - 1];
      k
  }

  /** A run of digits is delimited by the first character that is not one. */
  lemma {:induction false} DigitRunPrefix(digits: string, tail: string)
    requires AllDigits(digits) && (tail == "" || !IsDigit(tail[0]))
    ensures DigitRun(digits + tail) == |digits|
    ensures (digits + tail)[..|digits|] == digits && (digits + tail)[|digits|..] == tail
  {
    if digits == "" {
      assert digits + tail == tail;
    } else {
      assert digits[0] in digits;
      assert forall c :: c in digits[1..] ==> c in digits;
      DigitRunPrefix(digits[1..], tail);
      assert (digits + tail)[1..] == digits[1..] + tail;
    }
  }

  /** A decimal field followed by the same non-digit can be read off in one way only. */
  lemma FieldInjective(m: nat, n: nat, stop: char, s: string, t: string)
    requires !IsDigit(stop)
    ensures Decimal(m) + [stop] + s == Decimal(n) + [stop] + t <==> m == n && s == t
  {
    if Decimal(m) + [stop] + s == Decimal(n) + [stop] + t {
      var x, y := [stop] + s, [stop] + t;
      assert Decimal(m) + [stop] + s == Decimal(m) + x && Decimal(n) + [stop] + t == Decimal(n) + y;
      DigitRunPrefix(Decimal(m), x);
      DigitRunPrefix(Decimal(n), y);
      DecimalRoundTrip(m);
      DecimalRoundTrip(n);
      assert x[1..] == s && y[1..] == t;
    }
  }

  predicate HasPrefix(s: string, prefix: string) {
    |prefix| <= |s| && s[..|prefix|] == prefix
  }

  // ---- heading paths ----

  function Padding(n: nat): seq<string> {
    seq(n, _ => "")
  }

  /** A title placed at a level of a path: what is deeper goes, levels that are missing become empty. */
  function PlacedAt(path: seq<string>, level: nat, title: string): (r: seq<string>)
    requires level >= 1
    ensures |r| == level && r[level - 1] == title
  {
    if |path| >= level then path[..level - 1] + [title] else path + Padding(level - 1 - |path|) + [title]
  }
}
