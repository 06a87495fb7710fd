/** The guard that keeps a repaired test asserting what its ancestor asserted. */
module RepairGuard {
  import opened Sorting
  import opened Text

  /** Letter folding: it leaves white space as it is, and makes neither white space nor NUL out of anything else. */
  ghost predicate FoldsLetters(f: char -> char) {
    forall c :: (f(c) == NUL ==> c == NUL) && (IsSpace(c) ==> f(c) == c) && (IsSpace(f(c)) ==> IsSpace(c))
  }

  type Folding = f: char -> char | FoldsLetters(f) witness (c: char) => c

  /** strings.ToLower, for any letter folding. */
  function Lower(s: string, fold: char -> char): (r: string)
    ensures |r| == |s|
    ensures forall i :: 0 <= i < |s| ==> r[i] == fold(s[i])
  {
    seq(|s|, i requires 0 <= i < |s| => fold(s[i]))
  }

  /** One assertion with its spacing and letter case made canonical. */
  function NormalizedAssertion(value: string, fold: char -> char): string {
    Lower(Join(Fields(value), ' '), fold)
  }

  function NonEmptyNormalized(values: seq<string>, fold: char -> char): (r: seq<string>)
    ensures "" !in r
  {
    if values == [] then []
    else
      var v := NormalizedAssertion(values[0], fold);
      (if v != "" then [v] else []) + NonEmptyNormalized(values[1..], fold)
  }

  /** normalizedAssertions as the program computes it: a loop that appends, then a sort. */
  method NormalizedAssertions(values: seq<string>, fold: char -> char) returns (result: seq<string>)
    ensures result == Sort(StringLe, NonEmptyNormalized(values, fold))
  {
    hide NormalizedAssertion, Sort, StringLe;
    result := [];
    var i := 0;
    assert values[0..] == values;
    while i < |values|
      invariant 0 <= i <= |values|
      invariant result + NonEmptyNormalized(values[i..], fold) == NonEmptyNormalized(values, fold)
    {
      var value := NormalizedAssertion(values[i], fold);
      assert values[i..][1..] == values[i + 1..];
      ghost var rest := NonEmptyNormalized(values[i + 1..], fold);
      if value != "" {
        assert result + ([value] + rest) == result + [value] + rest;
        result := result + [value];
      } else {
        assert result + ([] + rest) == result + rest;
      }
      i := i + 1;
    }
    assert values[|values|..] == [];
    assert result + [] == result;
    result := Sort(StringLe, result);
  }

  /** The guard: the sorted normalized assertions, joined with NUL bytes, are the same text. */
  predicate SameSemanticAssertions(before: seq<string>, after: seq<string>, fold: char -> char) {
    Join(Sort(StringLe, NonEmptyNormalized(before, fold)), NUL) ==
    Join(Sort(StringLe, NonEmptyNormalized(after, fold)), NUL)
  }

  /** The normal forms, in any order. */
  function Forms(values: seq<string>, fold: char -> char): multiset<string> {
    multiset(NonEmptyNormalized(values, fold))
  }

  predicate NulFree(values: seq<string>, fold: char -> char) {
    forall v :: v in NonEmptyNormalized(values, fold) ==> NUL !in v
  }

  /** For assertions without NUL the guard compares normal forms: it passes just when both lists have the same ones. */
  lemma GuardComparesForms(before: seq<string>, after: seq<string>, fold: char -> char)
    requires NulFree(before, fold) && NulFree(after, fold)
    ensures SameSemanticAssertions(before, after, fold) <==> Forms(before, fold) == Forms(after, fold)
  {
    hide Sort, Join;
    var a, b := NonEmptyNormalized(before, fold), NonEmptyNormalized(after, fold);
    StringLeOrder();
    SortSorts(StringLe, a);
    SortSorts(StringLe, b);
    JoinInjective(Sort(StringLe, a), Sort(StringLe, b), NUL);
    SortCanonical(StringLe, a, b);
  }

  /** The same normal forms always pass, NUL or not. */
  lemma FormsPass(before: seq<string>, after: seq<string>, fold: char -> char)
    requires Forms(before, fold) == Forms(after, fold)
    ensures SameSemanticAssertions(before, after, fold)
  {
    hide Sort, Join;
    StringLeOrder();
    SortCanonical(StringLe, NonEmptyNormalized(before, fold), NonEmptyNormalized(after, fold));
  }

  // ---- what an assertion means: its words ----

  /** The same words in the same order, but for letter case. */
  predicate SameWords(a: string, b: string, fold: char -> char) {
    && |Fields(a)| == |Fields(b)|
    && forall i :: 0 <= i < |Fields(a)| ==>
         |Fields(a)[i]| == |Fields(b)[i]| && forall j :: 0 <= j < |Fields(a)[i]| ==> fold(Fields(a)[i][j]) == fold(Fields(b)[i][j])
  }

  /** The words of an assertion, folded. */
  function FoldedWords(value: string, fold: char -> char): (r: seq<string>)
    ensures |r| == |Fields(value)| && forall i :: 0 <= i < |r| ==> r[i] == Lower(Fields(value)[i], fold)
  {
    seq(|Fields(value)|, i requires 0 <= i < |Fields(value)| => Lower(Fields(value)[i], fold))
  }

  lemma SameWordsFolded(a: string, b: string, fold: char -> char)
    ensures SameWords(a, b, fold) <==> FoldedWords(a, fold) == FoldedWords(b, fold)
  {
    hide Fields;
    var v, w := FoldedWords(a, fold), FoldedWords(b, fold);
    if SameWords(a, b, fold) {
      forall i | 0 <= i < |v| ensures v[i] == w[i] {
      }
    }
    if v == w {
      forall i | 0 <= i < |v|
        ensures |Fields(a)[i]| == |Fields(b)[i]|
        ensures forall j :: 0 <= j < |Fields(a)[i]| ==> fold(Fields(a)[i][j]) == fold(Fields(b)[i][j])
      {
        assert Lower(Fields(a)[i], fold) == v[i] == w[i] == Lower(Fields(b)[i], fold);
        forall j | 0 <= j < |Fields(a)[i]| ensures fold(Fields(a)[i][j]) == fold(Fields(b)[i][j]) {
          assert v[i][j] == w[i][j];
        }
      }
    }
  }

  lemma LowerConcat(a: string, b: string, fold: char -> char)
    ensures Lower(a + b, fold) == Lower(a, fold) + Lower(b, fold)
  {
  }

  lemma {:induction false} LowerJoin(words: seq<string>, folded: seq<string>, fold: Folding)
    requires |folded| == |words| && forall i :: 0 <= i < |words| ==> folded[i] == Lower(words[i], fold)
    ensures Lower(Join(words, ' '), fold) == Join(folded, ' ')
  {
    hide IsSpace;
    if |words| > 1 {
      LowerJoin(words[1..], folded[1..], fold);
      LowerConcat(words[0] + [' '], Join(words[1..], ' '), fold);
      LowerConcat(words[0], [' '], fold);
      FoldsSpace(fold);
      assert Lower([' '], fold) == [' '];
    } else if words == [] {
      assert Join(words, ' ') == "" == Join(folded, ' ');
    }
  }

  lemma FoldsSpace(fold: Folding)
    ensures fold(' ') == ' '
  {
    assert IsSpace(' ');
  }

  lemma WordsFolded(value: string, fold: Folding)
    ensures forall w :: w in FoldedWords(value, fold) ==> w != "" && ' ' !in w
    ensures NormalizedAssertion(value, fold) == Join(FoldedWords(value, fold), ' ')
  {
    hide Fields, Join;
    LowerJoin(Fields(value), FoldedWords(value, fold), fold);
    FieldsExactly(value, Fields(value));
    AllWords(value, Fields(value));
    var folded := FoldedWords(value, fold);
    forall w | w in folded ensures w != "" && ' ' !in w {
      var i :| 0 <= i < |folded| && folded[i] == w;
      FoldedWord(Fields(value)[i], fold);
    }
  }

  lemma FoldedWord(w: string, fold: Folding)
    requires Word(w)
    ensures Lower(w, fold) != "" && ' ' !in Lower(w, fold)
  {
    hide IsSpace;
    assert IsSpace(' ') by { FoldsSpace(fold); SpaceIsSpace(); }
    forall i | 0 <= i < |w| ensures Lower(w, fold)[i] != ' ' {
      assert !IsSpace(w[i]);
    }
  }

  lemma SpaceIsSpace()
    ensures IsSpace(' ')
  {
  }

  /** Two assertions have the same normal form exactly if they have the same words but for letter case. */
  lemma NormalFormTellsWords(a: string, b: string, fold: Folding)
    ensures NormalizedAssertion(a, fold) == NormalizedAssertion(b, fold) <==> SameWords(a, b, fold)
  {
    hide NormalizedAssertion, Join, Fields, SameWords, Lower, IsSpace;
    WordsFolded(a, fold);
    WordsFolded(b, fold);
    JoinInjective(FoldedWords(a, fold), FoldedWords(b, fold), ' ');
    SameWordsFolded(a, b, fold);
  }

  /** A normal form has the visible characters of the assertion, folded. */
  lemma NormalFormKeepsVisible(value: string, fold: Folding)
    ensures NonSpace(NormalizedAssertion(value, fold)) == Lower(NonSpace(value), fold)
  {
    hide Fields, Join, IsSpace, NonSpace;
    FieldsKeepVisible(value);
    FieldsExactly(value, Fields(value));
    AllWords(value, Fields(value));
    VisibleOfJoin(Fields(value));
    FoldedVisible(Join(Fields(value), ' '), fold);
  }

  lemma {:induction false} VisibleOfJoin(words: seq<string>)
    requires forall i :: 0 <= i < |words| ==> Word(words[i])
    ensures NonSpace(Join(words, ' ')) == Concat(words)
  {
    hide IsSpace, NonSpace, Word;
    if |words| > 1 {
      VisibleOfJoin(words[1..]);
      VisibleOfPair(words[0], Join(words[1..], ' '));
    } else if |words| == 1 {
      VisibleWord(words[0]);
      assert Concat(words[1..]) == "";
    } else {
      NonSpaceOfWord("");
    }
  }

  lemma VisibleWord(w: string)
    requires Word(w)
    ensures NonSpace(w) == w
  {
    hide IsSpace;
    NonSpaceOfWord(w);
  }

  lemma VisibleOfPair(w: string, rest: string)
    requires Word(w)
    ensures NonSpace(w + [' '] + rest) == w + NonSpace(rest)
  {
    hide IsSpace, NonSpace, Word;
    VisibleWord(w);
    OneSpace();
    NonSpaceConcat(w, [' ']);
    NonSpaceConcat(w + [' '], rest);
  }

  lemma OneSpace()
    ensures NonSpace([' ']) == ""
  {
    assert [' '][1..] == "";
  }

  lemma {:induction false} FoldedVisible(s: string, fold: Folding)
    ensures NonSpace(Lower(s, fold)) == Lower(NonSpace(s), fold)
  {
    hide IsSpace;
    if s != "" {
      FoldedVisible(s[1..], fold);
      assert Lower(s, fold)[1..] == Lower(s[1..], fold);
      assert FoldsLetters(fold);
      assert IsSpace(fold(s[0])) <==> IsSpace(s[0]);
      if !IsSpace(s[0]) {
        LowerConcat([s[0]], NonSpace(s[1..]), fold);
        assert Lower([s[0]], fold) == [fold(s[0])];
      }
    } else {
      assert Lower(s, fold) == "";
    }
  }

  /** The word lists of the assertions that are not blank. */
  function WordLists(values: seq<string>, fold: char -> char): seq<seq<string>> {
    if values == [] then []
    else (if Fields(values[0]) != [] then [FoldedWords(values[0], fold)] else []) + WordLists(values[1..], fold)
  }

  /** What a list of assertions means: the words of each that is not blank, but for letter case; their order is nothing. */
  function Meaning(values: seq<string>, fold: char -> char): multiset<seq<string>> {
    multiset(WordLists(values, fold))
  }

  predicate Spelled(words: seq<string>) {
    words != [] && forall w :: w in words ==> w != "" && ' ' !in w
  }

  /** The forms are the word lists, each joined. */
  predicate Joins(forms: seq<string>, lists: seq<seq<string>>) {
    |forms| == |lists| && forall i :: 0 <= i < |lists| ==> Spelled(lists[i]) && forms[i] == Join(lists[i], ' ')
  }

  lemma {:induction false} FormsAreJoins(values: seq<string>, fold: Folding)
    ensures Joins(NonEmptyNormalized(values, fold), WordLists(values, fold))
  {
    hide NormalizedAssertion, Join, Fields, FoldedWords;
    if values != [] {
      FormsAreJoins(values[1..], fold);
      WordsFolded(values[0], fold);
      NormalFormEmpty(values[0], fold);
      assert |FoldedWords(values[0], fold)| == |Fields(values[0])|;
    }
  }

  /** A form occurs as often as its words do. */
  lemma {:induction false} JoinsCount(forms: seq<string>, lists: seq<seq<string>>, words: seq<string>)
    requires Joins(forms, lists) && Spelled(words)
    ensures multiset(forms)[Join(words, ' ')] == multiset(lists)[words]
  {
    hide Join, Spelled;
    if forms != [] {
      JoinsCount(forms[1..], lists[1..], words);
      assert forms == [forms[0]] + forms[1..] && lists == [lists[0]] + lists[1..];
      SpelledApart(lists[0], words);
    }
  }

  lemma SpelledApart(a: seq<string>, b: seq<string>)
    requires Spelled(a) && Spelled(b)
    ensures Join(a, ' ') == Join(b, ' ') <==> a == b
  {
    hide Join;
    JoinInjective(a, b, ' ');
  }

  lemma NormalFormEmpty(value: string, fold: Folding)
    ensures NormalizedAssertion(value, fold) == "" <==> FoldedWords(value, fold) == []
  {
    hide NormalizedAssertion, Fields, FoldedWords;
    WordsFolded(value, fold);
    var ws := FoldedWords(value, fold);
    if ws != [] {
      assert ws[0] in ws;
      JoinOfNonEmpty(ws, ' ');
    }
  }

  /** The same normal forms are the same meaning. */
  lemma FormsTellMeaning(a: seq<string>, b: seq<string>, fold: Folding)
    ensures Forms(a, fold) == Forms(b, fold) <==> Meaning(a, fold) == Meaning(b, fold)
  {
    hide NonEmptyNormalized, WordLists, Join, Spelled;
    var f, g, v, w := NonEmptyNormalized(a, fold), NonEmptyNormalized(b, fold), WordLists(a, fold), WordLists(b, fold);
    FormsAreJoins(a, fold);
    FormsAreJoins(b, fold);
    if Forms(a, fold) == Forms(b, fold) {
      forall ws ensures multiset(v)[ws] == multiset(w)[ws] {
        if ws in v || ws in w {
          JoinsCount(f, v, ws);
          JoinsCount(g, w, ws);
        }
      }
    }
    if Meaning(a, fold) == Meaning(b, fold) {
      forall x ensures multiset(f)[x] == multiset(g)[x] {
        if x in f || x in g {
          var ws := WordsBehind(f, v, g, w, x);
          JoinsCount(f, v, ws);
          JoinsCount(g, w, ws);
        }
      }
    }
  }

  lemma WordsBehind(f: seq<string>, v: seq<seq<string>>, g: seq<string>, w: seq<seq<string>>, x: string) returns (words: seq<string>)
    requires Joins(f, v) && Joins(g, w) && (x in f || x in g)
    ensures Spelled(words) && Join(words, ' ') == x
  {
    hide Join, Spelled;
    if x in f {
      var i :| 0 <= i < |f| && f[i] == x;
      words := v[i];
    } else {
      var i :| 0 <= i < |g| && g[i] == x;
      words := w[i];
    }
  }

  /**
   * For assertions without NUL the guard is exact: it passes just when both lists, blank ones aside, have the same
   * assertions word for word, in whatever order, spacing and letter case.
   */
  lemma GuardExact(before: seq<string>, after: seq<string>, fold: Folding)
    requires NulFree(before, fold) && NulFree(after, fold)
    ensures SameSemanticAssertions(before, after, fold) <==> Meaning(before, fold) == Meaning(after, fold)
  {
    hide SameSemanticAssertions, Forms, Meaning;
    GuardComparesForms(before, after, fold);
    FormsTellMeaning(before, after, fold);
  }

  /** The same meaning always passes, NUL or not: the guard never rejects a mere rewording of spacing or order. */
  lemma GuardComplete(before: seq<string>, after: seq<string>, fold: Folding)
    requires Meaning(before, fold) == Meaning(after, fold)
    ensures SameSemanticAssertions(before, after, fold)
  {
    hide SameSemanticAssertions, Forms, Meaning;
    FormsTellMeaning(before, after, fold);
    FormsPass(before, after, fold);
  }

  /** Stored text has no NUL, and then neither has its normal form. */
  lemma {:induction false} NulFreeStored(values: seq<string>, fold: Folding)
    requires forall v :: v in values ==> NUL !in v
    ensures NulFree(values, fold)
  {
    hide NormalizedAssertion;
    if values != [] {
      NormalizedNulFree(values[0], fold);
      NulFreeStored(values[1..], fold);
    }
  }

  lemma NormalizedNulFree(value: string, fold: Folding)
    requires NUL !in value
    ensures NUL !in NormalizedAssertion(value, fold)
  {
    JoinedFrom(Fields(value), ' ');
    var joined := Join(Fields(value), ' ');
    assert NUL !in joined;
    forall i | 0 <= i < |joined| ensures Lower(joined, fold)[i] != NUL {
      assert joined[i] in joined;
    }
  }

  lemma {:induction false} JoinedFrom(parts: seq<string>, sep: char)
    ensures forall c :: c in Join(parts, sep) ==> c == sep || exists p :: p in parts && c in p
  {
    if |parts| > 1 {
      JoinedFrom(parts[1..], sep);
      forall c | c in Join(parts, sep) ensures c == sep || exists p :: p in parts && c in p {
        if c !in parts[0] && c != sep {
          assert c in Join(parts[1..], sep);
          var p :| p in parts[1..] && c in p;
          assert p in parts;
        }
      }
    } else if |parts| == 1 {
      assert parts[0] in parts;
    }
  }

  /** Against stored assertions: the proposal means the same exactly if it passes and brings no NUL of its own. */
  lemma GuardMeans(before: seq<string>, after: seq<string>, fold: Folding)
    requires NulFree(before, fold)
    ensures Meaning(before, fold) == Meaning(after, fold) <==> SameSemanticAssertions(before, after, fold) && NulFree(after, fold)
  {
    hide SameSemanticAssertions, Meaning;
    if Meaning(before, fold) == Meaning(after, fold) {
      GuardComplete(before, after, fold);
      FormsTellMeaning(before, after, fold);
      SameFormsNulFree(before, after, fold);
    }
    if NulFree(after, fold) {
      GuardExact(before, after, fold);
    }
  }

  lemma SameFormsNulFree(before: seq<string>, after: seq<string>, fold: char -> char)
    requires Forms(before, fold) == Forms(after, fold) && NulFree(before, fold)
    ensures NulFree(after, fold)
  {
    var a, b := NonEmptyNormalized(before, fold), NonEmptyNormalized(after, fold);
    forall v | v in b ensures NUL !in v {
      assert v in multiset(b);
      assert v in multiset(a);
      assert v in a;
    }
  }

  const UNFOLDED: Folding := (c: char) => c

  const JOINED: string := ['a', NUL, 'b']

  lemma ProposalNormal()
    ensures NonEmptyNormalized([JOINED], UNFOLDED) == [JOINED]
  {
    hide NormalizedAssertion;
    WordIsNormal(JOINED, UNFOLDED);
    assert [JOINED][1..] == [];
  }

  lemma StoredNormal()
    ensures NonEmptyNormalized(["a", "b"], UNFOLDED) == ["a", "b"]
  {
    hide NormalizedAssertion;
    var fold := UNFOLDED;
    WordIsNormal("a", fold);
    WordIsNormal("b", fold);
    assert ["a", "b"][1..] == ["b"] && ["b"][1..] == [];
    assert NonEmptyNormalized(["b"], fold) == ["b"];
  }

  lemma SortOne(s: string)
    ensures Sort(StringLe, [s]) == [s]
  {
    assert [s][1..] == [];
  }

  /** A proposal with a NUL inside passes for two stored assertions; only the column that refuses it stops it. */
  lemma GuardConfusedByNul()
    ensures SameSemanticAssertions(["a", "b"], [JOINED], UNFOLDED)
    ensures Meaning(["a", "b"], UNFOLDED) != Meaning([JOINED], UNFOLDED)
  {
    hide NonEmptyNormalized, Meaning;
    FormsTellMeaning(["a", "b"], [JOINED], UNFOLDED);
    ProposalNormal();
    StoredNormal();
    SortOne(JOINED);
    SortOne("b");
    assert ["a", "b"][1..] == ["b"];
    assert Sort(StringLe, ["a", "b"]) == Insert(StringLe, "a", ["b"]) == ["a", "b"];
    assert Join(["a", "b"], NUL) == "a" + [NUL] + Join(["b"], NUL) == JOINED;
    assert multiset([JOINED])[JOINED] == 1 && multiset(["a", "b"])[JOINED] == 0;
  }

  lemma {:induction false} WholeWord(s: string)
    requires forall i :: 0 <= i < |s| ==> !IsSpace(s[i])
    ensures WordLength(s) == |s|
  {
    hide IsSpace;
    if s != "" {
      WholeWord(s[1..]);
    }
  }

  /** A single word in lower case is its own normal form. */
  lemma WordIsNormal(s: string, fold: char -> char)
    requires Word(s) && forall c :: fold(c) == c
    ensures NormalizedAssertion(s, fold) == s
  {
    hide IsSpace;
    WholeWord(s);
    assert TrimLeft(s) == s && s[..|s|] == s && s[|s|..] == "";
    assert Fields(s) == [s] + Fields("") == [s];
    assert Join([s], ' ') == s && Lower(s, fold) == s;
  }
}
