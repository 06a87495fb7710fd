/** From changed line numbers to changed symbols. */
module SymbolMapper {
  import opened Sorting
  import opened Text
  import opened ImpactGraph

  datatype ChangeType = Added | Deleted | Modified

  datatype SymbolChange = SymbolChange(symbol: Symbol, changeType: ChangeType)

  const ZERO := Symbol("", "", "", "", 0, 0)

  function SymbolKey(s: Symbol): string {
    s.kind + [NUL] + s.receiver + [NUL] + s.name
  }

  /** Two symbols share a key exactly when kind, receiver and name agree, since none of them contains a NUL. */
  lemma KeysTellSymbolsApart(a: Symbol, b: Symbol)
    requires forall s :: s in [a, b] ==> NUL !in s.kind && NUL !in s.receiver && NUL !in s.name
    ensures SymbolKey(a) == SymbolKey(b) <==> a.kind == b.kind && a.receiver == b.receiver && a.name == b.name
  {
    assert a in [a, b] && b in [a, b];
    KeyIsJoin(a);
    KeyIsJoin(b);
    SplitJoin([a.kind, a.receiver, a.name], NUL);
    SplitJoin([b.kind, b.receiver, b.name], NUL);
    if SymbolKey(a) == SymbolKey(b) {
      assert [a.kind, a.receiver, a.name][0] == b.kind;
      assert [a.kind, a.receiver, a.name][1] == b.receiver;
      assert [a.kind, a.receiver, a.name][2] == b.name;
    }
  }

  lemma KeyIsJoin(s: Symbol)
    ensures SymbolKey(s) == Join([s.kind, s.receiver, s.name], NUL)
  {
    var parts := [s.kind, s.receiver, s.name];
    assert parts[1..] == [s.receiver, s.name] && parts[1..][1..] == [s.name];
    assert Join([s.name], NUL) == s.name;
    assert Join([s.receiver, s.name], NUL) == s.receiver + [NUL] + s.name;
    assert s.kind + [NUL] + (s.receiver + [NUL] + s.name) == SymbolKey(s);
  }

  // ---- symbols by key ----

  /** The last symbol with the key, if any. */
  function LastWith(symbols: seq<Symbol>, key: string): (i: int)
    ensures -1 <= i < |symbols|
    ensures i >= 0 ==> SymbolKey(symbols[i]) == key && forall k :: i < k < |symbols| ==> SymbolKey(symbols[k]) != key
    ensures i < 0 ==> forall k :: 0 <= k < |symbols| ==> SymbolKey(symbols[k]) != key
  {
    if symbols == [] then -1
    else if SymbolKey(symbols[|symbols| - 1]) == key then |symbols| - 1
    else LastWith(symbols[..|symbols| - 1], key)
  }

  /** table holds, for every key of the symbols, its last symbol. */
  ghost predicate ByKey(table: map<string, Symbol>, symbols: seq<Symbol>) {
    forall key :: if LastWith(symbols, key) < 0 then key !in table
                  else key in table && table[key] == symbols[LastWith(symbols, key)]
  }

  method SymbolsByKey(symbols: seq<Symbol>) returns (table: map<string, Symbol>)
    ensures ByKey(table, symbols)
  {
    hide SymbolKey;
    table := map[];
    var i := 0;
    while i < |symbols|
      invariant 0 <= i <= |symbols| && ByKey(table, symbols[..i])
    {
      ghost var before := table;
      table := table[SymbolKey(symbols[i]) := symbols[i]];
      assert symbols[..i + 1][..i] == symbols[..i];
      assert ByKey(table, symbols[..i + 1]);
      i := i + 1;
    }
    assert symbols[..|symbols|] == symbols;
  }

  // ---- hits ----

  /** Some changed line lies within the symbol. */
  predicate Overlaps(s: Symbol, lines: set<int>) {
    exists line :: line in lines && s.startLine <= line <= s.endLine
  }

  predicate HitKey(symbols: seq<Symbol>, lines: set<int>, key: string) {
    exists i :: 0 <= i < |symbols| && SymbolKey(symbols[i]) == key && Overlaps(symbols[i], lines)
  }

  predicate IntLe(a: int, b: int) { a <= b }

  /** sort.SearchInts: the first position whose value is at least x, found by halving. */
  method SearchInts(lines: seq<int>, x: int) returns (index: nat)
    requires SortedBy(IntLe, lines)
    ensures index <= |lines|
    ensures forall k :: 0 <= k < index ==> lines[k] < x
    ensures index < |lines| ==> lines[index] >= x
  {
    var low, high := 0, |lines|;
    while low < high
      invariant 0 <= low <= high <= |lines|
      invariant forall k :: 0 <= k < low ==> lines[k] < x
      invariant high < |lines| ==> lines[high] >= x
    {
      var mid := (low + high) / 2;
      if lines[mid] < x {
        forall k | 0 <= k <= mid ensures lines[k] < x {
          assert k < mid ==> IntLe(lines[k], lines[mid]);
        }
        low := mid + 1;
      } else {
        high := mid;
      }
    }
    index := low;
  }

  lemma NoLineLeft(lines: set<int>)
    ensures (forall line :: line !in lines) ==> lines == {}
  {
    if forall line :: line !in lines {
      assert lines == {};
    }
  }

  lemma SomeLine(lines: set<int>)
    requires lines != {}
    ensures exists line :: line in lines
  {
    NoLineLeft(lines);
  }

  method SortedLines(changed: set<int>) returns (lines: seq<int>)
    ensures SortedBy(IntLe, lines) && forall x :: x in lines <==> x in changed
  {
    lines := [];
    var todo := changed;
    while todo != {}
      invariant todo <= changed && forall x :: x in lines <==> x in changed && x !in todo
    {
      SomeLine(todo);
      var line :| line in todo;
      lines := lines + [line];
      todo := todo - {line};
    }
    SortSorts(IntLe, lines);
    lines := Sort(IntLe, lines);
  }

  /** The position the search finds answers the overlap question: halving and looking at every line agree. */
  lemma SearchFindsOverlap(lines: seq<int>, changed: set<int>, s: Symbol, index: nat)
    requires SortedBy(IntLe, lines) && forall x :: x in lines <==> x in changed
    requires index <= |lines| && (forall k :: 0 <= k < index ==> lines[k] < s.startLine)
    requires index < |lines| ==> lines[index] >= s.startLine
    ensures index < |lines| && lines[index] <= s.endLine <==> Overlaps(s, changed)
  {
    if Overlaps(s, changed) {
      var line :| line in changed && s.startLine <= line <= s.endLine;
      assert line in lines;
      var k :| 0 <= k < |lines| && lines[k] == line;
      assert k >= index;
      assert index < k ==> IntLe(lines[index], lines[k]);
    }
    if index < |lines| && lines[index] <= s.endLine {
      assert lines[index] in lines;
    }
  }

  method HitSymbols(symbols: seq<Symbol>, changed: set<int>) returns (keys: set<string>)
    ensures forall key :: key in keys <==> HitKey(symbols, changed, key)
  {
    hide SymbolKey, Overlaps;
    keys := {};
    if changed == {} {
      NothingOverlaps(symbols);
      return;
    }
    var lines := SortedLines(changed);
    var i := 0;
    while i < |symbols|
      invariant 0 <= i <= |symbols|
      invariant forall key :: key in keys <==> HitKey(symbols[..i], changed, key)
    {
      var index := SearchInts(lines, symbols[i].startLine);
      SearchFindsOverlap(lines, changed, symbols[i], index);
      HitStep(symbols, changed, i);
      if index < |lines| && lines[index] <= symbols[i].endLine {
        keys := keys + {SymbolKey(symbols[i])};
      }
      i := i + 1;
    }
    assert symbols[..|symbols|] == symbols;
  }

  lemma NothingOverlaps(symbols: seq<Symbol>)
    ensures forall key :: !HitKey(symbols, {}, key)
  {
  }

  lemma HitStep(symbols: seq<Symbol>, changed: set<int>, i: nat)
    requires i < |symbols|
    ensures forall key :: HitKey(symbols[..i + 1], changed, key) <==>
              HitKey(symbols[..i], changed, key) || (key == SymbolKey(symbols[i]) && Overlaps(symbols[i], changed))
  {
    hide SymbolKey, Overlaps;
    var more, less := symbols[..i + 1], symbols[..i];
    forall key
      ensures HitKey(more, changed, key) <==>
                HitKey(less, changed, key) || (key == SymbolKey(symbols[i]) && Overlaps(symbols[i], changed))
    {
      if HitKey(more, changed, key) {
        var k :| 0 <= k < |more| && SymbolKey(more[k]) == key && Overlaps(more[k], changed);
        assert k < i ==> less[k] == more[k];
      }
      if HitKey(less, changed, key) {
        var k :| 0 <= k < |less| && SymbolKey(less[k]) == key && Overlaps(less[k], changed);
        assert more[k] == less[k];
      }
      assert more[i] == symbols[i];
    }
  }

  // ---- changes ----

  predicate Has(symbols: seq<Symbol>, key: string) {
    LastWith(symbols, key) >= 0
  }

  /** The symbol reported for a key: the new one if there is one, else the old one. */
  function Reported(key: string, before: seq<Symbol>, after: seq<Symbol>): Symbol {
    if Has(after, key) then after[LastWith(after, key)]
    else if Has(before, key) then before[LastWith(before, key)] else ZERO
  }

  /** What the changed key is reported as. */
  ghost predicate Reports(c: SymbolChange, key: string, before: seq<Symbol>, after: seq<Symbol>) {
    && SymbolKey(c.symbol) == key
    && (c.changeType == Added <==> !Has(before, key))
    && (c.changeType == Deleted <==> !Has(after, key))
    && c.symbol == Reported(key, before, after)
  }

  predicate ChangeLe(a: SymbolChange, b: SymbolChange) {
    if a.symbol.startLine != b.symbol.startLine then a.symbol.startLine < b.symbol.startLine
    else StringLe(a.symbol.name, b.symbol.name)
  }

  lemma ChangeOrder()
    ensures Total(ChangeLe) && Transitive(ChangeLe)
  {
    StringLeOrder();
  }

  ghost predicate Hit(before: seq<Symbol>, after: seq<Symbol>, deleted: set<int>, inserted: set<int>, key: string) {
    HitKey(before, deleted, key) || HitKey(after, inserted, key)
  }

  /** One change per hit key, each reported by where the key exists, in order of start line and name. */
  ghost predicate IsResult(changes: seq<SymbolChange>, before: seq<Symbol>, after: seq<Symbol>, deleted: set<int>, inserted: set<int>) {
    && SortedBy(ChangeLe, changes)
    && (forall c :: c in changes ==>
          var key := SymbolKey(c.symbol);
          Hit(before, after, deleted, inserted, key) && Reports(c, key, before, after))
    && (forall key :: Hit(before, after, deleted, inserted, key) ==>
          exists c :: c in changes && SymbolKey(c.symbol) == key)
    && (forall i, j :: 0 <= i < j < |changes| ==> SymbolKey(changes[i].symbol) != SymbolKey(changes[j].symbol))
  }

  /** The four-way decision for one key; its last branch is dead, because a hit key exists in one of the files. */
  method Classify(key: string, before: seq<Symbol>, after: seq<Symbol>, oldSymbols: map<string, Symbol>, newSymbols: map<string, Symbol>)
    returns (c: SymbolChange)
    requires ByKey(oldSymbols, before) && ByKey(newSymbols, after) && (Has(before, key) || Has(after, key))
    ensures Reports(c, key, before, after)
  {
    hide SymbolKey;
    assert (key in oldSymbols <==> Has(before, key)) && (key in newSymbols <==> Has(after, key));
    var changeType, selected := Modified, if key in newSymbols then newSymbols[key] else ZERO;
    if key !in oldSymbols && key in newSymbols {
      changeType := Added;
    } else if key in oldSymbols && key !in newSymbols {
      changeType, selected := Deleted, oldSymbols[key];
    } else if key !in newSymbols {
      assert false;
    }
    c := SymbolChange(selected, changeType);
  }

  lemma HitMeansHas(symbols: seq<Symbol>, lines: set<int>, key: string)
    requires HitKey(symbols, lines, key)
    ensures Has(symbols, key)
  {
  }

  /** MapChangedSymbols; a missing file is a file without symbols. */
  method MapChangedSymbols(before: seq<Symbol>, after: seq<Symbol>, deleted: set<int>, inserted: set<int>)
    returns (changes: seq<SymbolChange>)
    ensures IsResult(changes, before, after, deleted, inserted)
  {
    hide SymbolKey, HitKey, Reports, LastWith, Has, ByKey, ChangeLe, Total, Transitive;
    var oldSymbols := SymbolsByKey(before);
    var newSymbols := SymbolsByKey(after);
    var oldHits := HitSymbols(before, deleted);
    var newHits := HitSymbols(after, inserted);
    var keys := oldHits + newHits;
    changes := [];
    var todo := keys;
    while todo != {}
      invariant todo <= keys
      invariant forall c :: c in changes ==> SymbolKey(c.symbol) in keys - todo && Reports(c, SymbolKey(c.symbol), before, after)
      invariant forall key :: key in keys - todo ==> exists c :: c in changes && SymbolKey(c.symbol) == key
      invariant forall i, j :: 0 <= i < j < |changes| ==> SymbolKey(changes[i].symbol) != SymbolKey(changes[j].symbol)
    {
      var key :| key in todo;
      if key in oldHits { HitMeansHas(before, deleted, key); } else { HitMeansHas(after, inserted, key); }
      var c := Classify(key, before, after, oldSymbols, newSymbols);
      assert SymbolKey(c.symbol) == key by { ReportsKey(c, key, before, after); }
      assert keys - (todo - {key}) == (keys - todo) + {key};
      changes := changes + [c];
      todo := todo - {key};
    }
    assert keys - todo == keys;
    ghost var found := changes;
    ChangeOrder();
    SortSorts(ChangeLe, changes);
    changes := Sort(ChangeLe, changes);
    KeysStayDistinct(found, changes);
    forall key | Hit(before, after, deleted, inserted, key)
      ensures exists c :: c in changes && SymbolKey(c.symbol) == key
    {
      assert key in keys;
      var c :| c in found && SymbolKey(c.symbol) == key;
      assert c in changes;
    }
  }

  lemma ReportsKey(c: SymbolChange, key: string, before: seq<Symbol>, after: seq<Symbol>)
    requires Reports(c, key, before, after)
    ensures SymbolKey(c.symbol) == key
  {
  }

  lemma KeysStayDistinct(a: seq<SymbolChange>, b: seq<SymbolChange>)
    requires multiset(a) == multiset(b)
    requires forall i, j :: 0 <= i < j < |a| ==> SymbolKey(a[i].symbol) != SymbolKey(a[j].symbol)
    ensures forall i, j :: 0 <= i < j < |b| ==> SymbolKey(b[i].symbol) != SymbolKey(b[j].symbol)
  {
    hide SymbolKey;
    assert Distinct(a);
    forall x ensures multiset(b)[x] <= 1 { DistinctCount(a, x); }
    CountsDistinct(b);
    forall i, j | 0 <= i < j < |b| ensures SymbolKey(b[i].symbol) != SymbolKey(b[j].symbol) {
      assert b[i] in multiset(a) && b[j] in multiset(a);
      var k :| 0 <= k < |a| && a[k] == b[i];
      var l :| 0 <= l < |a| && a[l] == b[j];
    }
  }

  // ---- the result does not depend on map order ----

  /** Changes that tie on start line and name: the one thing the sort cannot order. */
  predicate NoTies(changes: seq<SymbolChange>) {
    forall i, j :: 0 <= i < j < |changes| ==>
      changes[i].symbol.startLine != changes[j].symbol.startLine || changes[i].symbol.name != changes[j].symbol.name
  }

  /** Two changed keys whose reported symbols have the same start line and name. */
  ghost predicate Tied(before: seq<Symbol>, after: seq<Symbol>, deleted: set<int>, inserted: set<int>, k: string, l: string) {
    && k != l && Hit(before, after, deleted, inserted, k) && Hit(before, after, deleted, inserted, l)
    && Reported(k, before, after).startLine == Reported(l, before, after).startLine
    && Reported(k, before, after).name == Reported(l, before, after).name
  }

  /** Whatever order the maps are walked in, the same changes are reported, and without ties in the same order. */
  lemma OrderIndependent(a: seq<SymbolChange>, b: seq<SymbolChange>, before: seq<Symbol>, after: seq<Symbol>,
                         deleted: set<int>, inserted: set<int>)
    requires IsResult(a, before, after, deleted, inserted) && IsResult(b, before, after, deleted, inserted)
    ensures multiset(a) == multiset(b)
    ensures NoTies(a) ==> a == b
  {
    hide SymbolKey, HitKey, LastWith, Has, StringLe, Hit;
    forall c ensures c in a <==> c in b {
    }
    assert Distinct(a) && Distinct(b);
    DistinctPermutation(a, b);
    if NoTies(a) {
      NoTiesSeparate(a);
      SortedUnique(ChangeLe, a, b);
    }
  }

  lemma NoTiesSeparate(a: seq<SymbolChange>)
    requires NoTies(a)
    ensures Separates(ChangeLe, a)
  {
    hide SymbolKey;
    StringLeOrder();
    forall x, y | x in a && y in a && ChangeLe(x, y) && ChangeLe(y, x) ensures x == y {
      var i :| 0 <= i < |a| && a[i] == x;
      var j :| 0 <= j < |a| && a[j] == y;
      assert x.symbol.startLine == y.symbol.startLine && x.symbol.name == y.symbol.name;
    }
  }

  /** Equally placed changes can be swapped. */
  function Swapped(a: seq<SymbolChange>, i: nat, j: nat): seq<SymbolChange>
    requires i < j < |a|
  {
    a[i := a[j]][j := a[i]]
  }

  lemma SwappedOrdered(a: seq<SymbolChange>, i: nat, j: nat)
    requires SortedBy(ChangeLe, a) && i < j < |a|
    requires a[i].symbol.startLine == a[j].symbol.startLine && a[i].symbol.name == a[j].symbol.name
    ensures SortedBy(ChangeLe, Swapped(a, i, j))
  {
    hide StringLe;
    var b := Swapped(a, i, j);
    assert forall p :: 0 <= p < |a| ==> b[p].symbol.startLine == a[p].symbol.startLine && b[p].symbol.name == a[p].symbol.name;
    forall p, q | 0 <= p < q < |b| ensures ChangeLe(b[p], b[q]) {
      assert ChangeLe(a[p], a[q]);
    }
  }

  lemma SwappedMembers(a: seq<SymbolChange>, i: nat, j: nat)
    requires i < j < |a|
    ensures forall c :: c in Swapped(a, i, j) <==> c in a
    ensures multiset(Swapped(a, i, j)) == multiset(a)
  {
    var b := Swapped(a, i, j);
    assert forall c :: c in multiset(b) <==> c in b;
    assert forall c :: c in multiset(a) <==> c in a;
  }

  lemma SwappedResult(a: seq<SymbolChange>, i: nat, j: nat, before: seq<Symbol>, after: seq<Symbol>,
                      deleted: set<int>, inserted: set<int>)
    requires IsResult(a, before, after, deleted, inserted) && i < j < |a|
    requires a[i].symbol.startLine == a[j].symbol.startLine && a[i].symbol.name == a[j].symbol.name
    ensures IsResult(Swapped(a, i, j), before, after, deleted, inserted) && Swapped(a, i, j) != a
  {
    hide SymbolKey, Reports, Hit, ChangeLe, SortedBy;
    SwappedOrdered(a, i, j);
    SwappedMembers(a, i, j);
    KeysStayDistinct(a, Swapped(a, i, j));
    assert SymbolKey(a[i].symbol) != SymbolKey(a[j].symbol);
  }

  lemma TiesAreTied(a: seq<SymbolChange>, before: seq<Symbol>, after: seq<Symbol>, deleted: set<int>, inserted: set<int>)
    requires IsResult(a, before, after, deleted, inserted)
    ensures NoTies(a) <==> forall k, l :: !Tied(before, after, deleted, inserted, k, l)
  {
    hide SymbolKey, Hit, Reported, ChangeLe;
    if !NoTies(a) {
      var i, j :| 0 <= i < j < |a| && a[i].symbol.startLine == a[j].symbol.startLine && a[i].symbol.name == a[j].symbol.name;
      assert a[i] in a && a[j] in a;
      assert Tied(before, after, deleted, inserted, SymbolKey(a[i].symbol), SymbolKey(a[j].symbol));
    }
    if k, l :| Tied(before, after, deleted, inserted, k, l) {
      var c :| c in a && SymbolKey(c.symbol) == k;
      var d :| d in a && SymbolKey(d.symbol) == l;
      var i :| 0 <= i < |a| && a[i] == c;
      var j :| 0 <= j < |a| && a[j] == d;
      assert i != j;
    }
  }

  /** A result is the only one, whatever the map order, if and only if no two changed keys tie. */
  lemma OrderDecidedExactly(a: seq<SymbolChange>, before: seq<Symbol>, after: seq<Symbol>, deleted: set<int>, inserted: set<int>)
    requires IsResult(a, before, after, deleted, inserted)
    ensures (forall b :: IsResult(b, before, after, deleted, inserted) ==> b == a) <==>
            (forall k, l :: !Tied(before, after, deleted, inserted, k, l))
  {
    hide IsResult, Tied, Swapped;
    TiesAreTied(a, before, after, deleted, inserted);
    if NoTies(a) {
      forall b | IsResult(b, before, after, deleted, inserted) ensures b == a {
        OrderIndependent(a, b, before, after, deleted, inserted);
      }
    } else {
      var i, j :| 0 <= i < j < |a| && a[i].symbol.startLine == a[j].symbol.startLine && a[i].symbol.name == a[j].symbol.name;
      SwappedResult(a, i, j, before, after, deleted, inserted);
    }
  }

  // A method of its type, and a function of the same name, on one line.
  const METHOD := Symbol("F", "p", "T", "method", 3, 3)
  const FUNCTION := Symbol("F", "p", "", "function", 3, 3)

  /** Two symbols on one line with one name tie: both orders are possible. */
  lemma TieReached()
    ensures Tied([], [METHOD, FUNCTION], {}, {3}, SymbolKey(METHOD), SymbolKey(FUNCTION))
  {
    var after := [METHOD, FUNCTION];
    assert "method" + [NUL] + "T" + [NUL] + "F" != "function" + [NUL] + "" + [NUL] + "F" by {
      assert ("method" + [NUL] + "T" + [NUL] + "F")[0] == 'm' && ("function" + [NUL] + "" + [NUL] + "F")[0] == 'f';
    }
    assert after[0] == METHOD && after[1] == FUNCTION && after[..1] == [METHOD];
    assert Overlaps(METHOD, {3}) && Overlaps(FUNCTION, {3}) by { assert 3 in {3}; }
    assert HitKey(after, {3}, SymbolKey(METHOD)) && HitKey(after, {3}, SymbolKey(FUNCTION));
    assert LastWith([METHOD], SymbolKey(METHOD)) == 0;
    assert LastWith(after, SymbolKey(FUNCTION)) == 1 && LastWith(after, SymbolKey(METHOD)) == 0;
  }
}
