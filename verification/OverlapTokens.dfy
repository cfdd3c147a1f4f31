// What the units of src/asr/OverlapDeduplicator.cpp are, in terms of the characters of the text alone: its ideographs
// and the longest runs of its word characters, in order.

module OverlapTokens {
  import opened Outcomes
  import opened OverlapDeduplicator

  // The code point at k is an ideograph that takes width code units.
  predicate IdeographAt(text: Text, k: nat, width: nat) {
    && k + width <= |text|
    && (|| (width == 1 && IsCjk(text[k]))
        || (&& width == 2 && IsHighSurrogate(text[k]) && IsLowSurrogate(text[k + 1])
            && IsCjk(SurrogateToUcs4(text[k], text[k + 1]))))
  }

  predicate WordAt(u: Unicode, text: Text, k: int) {
    0 <= k < |text| && !IsCjk(text[k]) && (u.category(text[k]) == LetterOrNumber || text[k] == UNDERSCORE)
  }

  // An ideograph, or a run of word characters that cannot be made longer.
  predicate TokenAt(u: Unicode, text: Text, unit: Unit) {
    && unit.start < unit.end <= |text|
    && if unit.cjk then IdeographAt(text, unit.start, unit.end - unit.start) && unit.normalized == text[unit.start..unit.end]
       else
         && (forall k :: unit.start <= k < unit.end ==> WordAt(u, text, k))
         && !WordAt(u, text, unit.start - 1) && !WordAt(u, text, unit.end)
         && unit.normalized == u.Folded(text[unit.start..unit.end])
  }

  predicate InWord(units: seq<Unit>, k: int) {
    exists i :: 0 <= i < |units| && !units[i].cjk && units[i].start <= k < units[i].end
  }

  predicate IsIdeograph(units: seq<Unit>, start: int, width: int) {
    exists i :: 0 <= i < |units| && units[i].cjk && units[i].start == start && units[i].end == start + width
  }

  predicate Ordered(units: seq<Unit>) {
    forall i, j :: 0 <= i < j < |units| ==> units[i].end <= units[j].start
  }

  // All of them between two positions, in order.
  ghost predicate Tokens(u: Unicode, text: Text, units: seq<Unit>, from: nat, to: nat) {
    && (forall i :: 0 <= i < |units| ==> from <= units[i].start && units[i].end <= to && TokenAt(u, text, units[i]))
    && Ordered(units) && HoldsWords(u, text, units, from, to) && HoldsIdeographs(text, units, from, to)
  }

  predicate HoldsWords(u: Unicode, text: Text, units: seq<Unit>, from: nat, to: nat) {
    forall k {:trigger InWord(units, k)} :: from <= k < to && WordAt(u, text, k) ==> InWord(units, k)
  }

  ghost predicate HoldsIdeographs(text: Text, units: seq<Unit>, from: nat, to: nat) {
    forall k, width: nat {:trigger IsIdeograph(units, k, width)} ::
      from <= k < to && IdeographAt(text, k, width) ==> IsIdeograph(units, k, width)
  }

  lemma {:induction false} JoinTokens(u: Unicode, text: Text, a: seq<Unit>, b: seq<Unit>, from: nat, mid: nat, to: nat)
    requires Tokens(u, text, a, from, mid) && Tokens(u, text, b, mid, to) && from <= mid <= to
    ensures Tokens(u, text, a + b, from, to)
  {
    JoinWords(u, text, a, b, from, mid, to);
    JoinIdeographs(text, a, b, from, mid, to);
  }

  lemma {:induction false} JoinWords(u: Unicode, text: Text, a: seq<Unit>, b: seq<Unit>, from: nat, mid: nat, to: nat)
    requires HoldsWords(u, text, a, from, mid) && HoldsWords(u, text, b, mid, to)
    ensures HoldsWords(u, text, a + b, from, to)
  {
    forall k | from <= k < to && WordAt(u, text, k) ensures InWord(a + b, k) {
      if k < mid {
        assert InWord(a, k);
        var i :| 0 <= i < |a| && !a[i].cjk && a[i].start <= k < a[i].end;
        assert (a + b)[i] == a[i];
      } else {
        assert InWord(b, k);
        var i :| 0 <= i < |b| && !b[i].cjk && b[i].start <= k < b[i].end;
        assert (a + b)[|a| + i] == b[i];
      }
    }
  }

  lemma {:induction false} JoinIdeographs(text: Text, a: seq<Unit>, b: seq<Unit>, from: nat, mid: nat, to: nat)
    requires HoldsIdeographs(text, a, from, mid) && HoldsIdeographs(text, b, mid, to)
    ensures HoldsIdeographs(text, a + b, from, to)
  {
    forall k, width: nat | from <= k < to && IdeographAt(text, k, width) ensures IsIdeograph(a + b, k, width) {
      if k < mid {
        assert IsIdeograph(a, k, width);
        var i :| 0 <= i < |a| && a[i].cjk && a[i].start == k && a[i].end == k + width;
        assert (a + b)[i] == a[i];
      } else {
        assert IsIdeograph(b, k, width);
        var i :| 0 <= i < |b| && b[i].cjk && b[i].start == k && b[i].end == k + width;
        assert (a + b)[|a| + i] == b[i];
      }
    }
  }

  // The open word, when it ends here.
  lemma {:induction false} WordIsToken(u: Unicode, text: Text, at: nat, word: Text)
    requires u.Valid() && |word| <= at <= |text| && word == text[at - |word|..at]
    requires (forall k :: at - |word| <= k < at ==> WordAt(u, text, k)) && (word != [] ==> !WordAt(u, text, at - |word| - 1))
    requires !WordAt(u, text, at)
    ensures Tokens(u, text, FlushWord(u, word, at), at - |word|, at)
  {
    var units := FlushWord(u, word, at);
    forall k, width: nat | at - |word| <= k < at ensures !IdeographAt(text, k, width) {
      assert WordAt(u, text, k) && u.Consistent(text[k]);
    }
    if word != [] {
      assert units[0].start == at - |word| && units[0].end == at && !units[0].cjk;
    }
  }

  predicate NoWord(u: Unicode, text: Text, from: nat, to: nat) {
    forall k :: from <= k < to ==> !WordAt(u, text, k)
  }

  ghost predicate NoIdeograph(text: Text, from: nat, to: nat) {
    forall k: nat, width: nat :: from <= k < to ==> !IdeographAt(text, k, width)
  }

  // What a symbol at position at says of the text there.
  ghost predicate Stands(u: Unicode, text: Text, at: nat, symbol: Symbol) {
    var next := at + |symbol.Code()|;
    && at < next <= |text| && symbol.Code() == text[at..next]
    && match symbol
       case WordCharacter(_) => WordAt(u, text, at)
       case Ideograph(code) => |code| <= 2 && IdeographAt(text, at, |code|) && NoWord(u, text, at, next)
       case Separator(_) => NoWord(u, text, at, next) && NoIdeograph(text, at, next)
  }

  lemma {:induction false} FirstSymbolStands(u: Unicode, text: Text, at: nat)
    requires u.Valid() && at < |text|
    ensures Stands(u, text, at, FirstSymbol(u, text[at..]))
  {
    var rest, symbol := text[at..], FirstSymbol(u, text[at..]);
    assert symbol.Code() == rest[..|symbol.Code()|] == text[at..at + |symbol.Code()|];
    assert rest[0] == text[at] && (at + 1 < |text| ==> rest[1] == text[at + 1]);
    assert u.Consistent(text[at]) && u.Consistent(text[at + |symbol.Code()| - 1]);
  }

  // The symbols of the text from at on.
  ghost predicate Spells(u: Unicode, text: Text, at: nat, symbols: seq<Symbol>)
    decreases |symbols|
  {
    && at <= |text|
    && if symbols == [] then at == |text|
       else Stands(u, text, at, symbols[0]) && Spells(u, text, at + |symbols[0].Code()|, symbols[1..])
  }

  lemma {:induction false} SymbolsSpell(u: Unicode, text: Text, at: nat, rest: Text)
    requires u.Valid() && at <= |text| && rest == text[at..]
    ensures Spells(u, text, at, Symbols(u, rest))
    decreases |text| - at
  {
    if at < |text| {
      var next := at + |FirstSymbol(u, rest).Code()|;
      FirstSymbolStands(u, text, at);
      SymbolsSpell(u, text, next, text[next..]);
      assert rest[|FirstSymbol(u, rest).Code()|..] == text[next..];
      assert Symbols(u, rest)[1..] == Symbols(u, text[next..]);
    }
  }

  lemma {:induction false} SpellsOn(u: Unicode, text: Text, at: nat, symbols: seq<Symbol>) returns (next: nat)
    requires Spells(u, text, at, symbols) && symbols != []
    ensures Stands(u, text, at, symbols[0]) && next == at + |symbols[0].Code()| && Spells(u, text, next, symbols[1..])
  {
    next := at + |symbols[0].Code()|;
  }

  // The open word and what comes before the text ends: word stands open at a position where a symbol begins.
  predicate Opens(u: Unicode, text: Text, at: nat, word: Text) {
    && |word| <= at <= |text| && word == text[at - |word|..at]
    && (forall k :: at - |word| <= k < at ==> WordAt(u, text, k)) && !WordAt(u, text, at - |word| - 1)
  }

  lemma {:induction false} NextOpens(u: Unicode, text: Text, at: nat, word: Text, symbol: Symbol)
    requires Opens(u, text, at, word) && Stands(u, text, at, symbol)
    ensures Opens(u, text, at + |symbol.Code()|, OpenWord(symbol, word))
  {
    if symbol.WordCharacter? {
      assert text[at - |word|..at + 1] == word + text[at..at + 1];
    } else {
      assert !WordAt(u, text, at + |symbol.Code()| - 1);
    }
  }

  lemma {:induction false} OneIdeograph(u: Unicode, text: Text, at: nat, code: Text, units: seq<Unit>)
    requires u.Valid() && Stands(u, text, at, Ideograph(code)) && units == [Unit(code, at, at + |code|, true)]
    ensures Tokens(u, text, units, at, at + |code|)
  {
    assert units[0].cjk && units[0].start == at && units[0].end == at + |code|;
    forall k, width: nat | at <= k < at + |code| && IdeographAt(text, k, width) ensures k == at && width == |code| {
      assert k == at || k == at + 1;
    }
    assert IsIdeograph(units, at, |code|);
  }

  // What a symbol completes are the tokens from the open word up to it.
  lemma {:induction false} CompletedIsTokens(u: Unicode, text: Text, at: nat, word: Text, symbol: Symbol)
    requires u.Valid() && Opens(u, text, at, word) && Stands(u, text, at, symbol) && !symbol.WordCharacter?
    ensures Tokens(u, text, Completed(u, symbol, at, word), at - |word|, at + |symbol.Code()|)
  {
    assert !WordAt(u, text, at);
    WordIsToken(u, text, at, word);
    var own := if symbol.Ideograph? then [Unit(symbol.code, at, at + |symbol.Code()|, true)] else [];
    if symbol.Ideograph? {
      OneIdeograph(u, text, at, symbol.code, own);
    }
    CompletedTokens(u, text, symbol, at, word, own, FlushWord(u, word, at));
  }

  lemma {:induction false} CompletedTokens(u: Unicode, text: Text, symbol: Symbol, at: nat, word: Text, own: seq<Unit>,
                                           flushed: seq<Unit>)
    requires |word| <= at && !symbol.WordCharacter? && flushed == FlushWord(u, word, at)
    requires own == if symbol.Ideograph? then [Unit(symbol.code, at, at + |symbol.Code()|, true)] else []
    requires Tokens(u, text, flushed, at - |word|, at) && Tokens(u, text, own, at, at + |symbol.Code()|)
    ensures Tokens(u, text, Completed(u, symbol, at, word), at - |word|, at + |symbol.Code()|)
  {
    JoinTokens(u, text, flushed, own, at - |word|, at, at + |symbol.Code()|);
    assert Completed(u, symbol, at, word) == flushed + own;
  }

  function UnitReader(u: Unicode): (seq<Symbol>, nat, Text) -> seq<Unit> {
    (symbols: seq<Symbol>, at: nat, word: Text) => if |word| <= at then UnitsFrom(u, symbols, at, word) else []
  }

  // What is read from at on are the tokens from the open word on.
  ghost predicate Finds(read: (seq<Symbol>, nat, Text) -> seq<Unit>, u: Unicode, text: Text, at: nat, word: Text, symbols: seq<Symbol>)
  {
    |word| <= at && Tokens(u, text, read(symbols, at, word), at - |word|, |text|)
  }

  lemma {:induction false} ReadsNothing(u: Unicode, symbols: seq<Symbol>, at: nat, word: Text)
    requires symbols == [] && |word| <= at
    ensures UnitReader(u)(symbols, at, word) == FlushWord(u, word, at)
  {
  }

  lemma {:induction false} ReadsFirst(u: Unicode, symbols: seq<Symbol>, at: nat, word: Text)
    requires symbols != [] && |word| <= at
    ensures |OpenWord(symbols[0], word)| <= at + |symbols[0].Code()|
    ensures UnitReader(u)(symbols, at, word) ==
      Completed(u, symbols[0], at, word)
      + UnitReader(u)(symbols[1..], at + |symbols[0].Code()|, OpenWord(symbols[0], word))
  {
  }

  lemma {:induction false} LastTokens(u: Unicode, text: Text, at: nat, word: Text, symbols: seq<Symbol>)
    requires u.Valid() && Opens(u, text, at, word) && at == |text| && symbols == []
    ensures Finds(UnitReader(u), u, text, at, word, symbols)
  {
    ReadsNothing(u, symbols, at, word);
    WordIsToken(u, text, at, word);
  }

  lemma {:induction false} TokensAhead(u: Unicode, text: Text, at: nat, word: Text, symbol: Symbol, rest: seq<Unit>, units: seq<Unit>)
    requires u.Valid() && Opens(u, text, at, word) && Stands(u, text, at, symbol)
    requires |OpenWord(symbol, word)| <= at + |symbol.Code()|
    requires Tokens(u, text, rest, at + |symbol.Code()| - |OpenWord(symbol, word)|, |text|)
    requires units == Completed(u, symbol, at, word) + rest
    ensures Tokens(u, text, units, at - |word|, |text|)
  {
    if symbol.WordCharacter? {
      assert units == rest;
    } else {
      CompletedIsTokens(u, text, at, word, symbol);
      JoinTokens(u, text, Completed(u, symbol, at, word), rest, at - |word|, at + |symbol.Code()|, |text|);
    }
  }

  lemma {:induction false} TokensFrom(u: Unicode, text: Text, at: nat, word: Text, symbols: seq<Symbol>)
    requires u.Valid() && Opens(u, text, at, word) && Spells(u, text, at, symbols)
    ensures Finds(UnitReader(u), u, text, at, word, symbols)
    decreases |symbols|, 1
  {
    if symbols == [] {
      LastTokens(u, text, at, word, symbols);
    } else {
      var next := SpellsOn(u, text, at, symbols);
      NextOpens(u, text, at, word, symbols[0]);
      TokensOn(u, text, at, word, symbols, next, OpenWord(symbols[0], word), symbols[1..]);
    }
  }

  lemma {:induction false} TokensOn(u: Unicode, text: Text, at: nat, word: Text, symbols: seq<Symbol>, next: nat, open: Text,
                                    rest: seq<Symbol>)
    requires u.Valid() && Opens(u, text, at, word) && symbols != [] && Stands(u, text, at, symbols[0])
    requires next == at + |symbols[0].Code()| && open == OpenWord(symbols[0], word) && rest == symbols[1..]
    requires Opens(u, text, next, open) && Spells(u, text, next, rest)
    ensures Finds(UnitReader(u), u, text, at, word, symbols)
    decreases |symbols|, 0
  {
    TokensFrom(u, text, next, open, rest);
    ReadsFirst(u, symbols, at, word);
    TokensAhead(u, text, at, word, symbols[0], UnitReader(u)(rest, next, open), UnitReader(u)(symbols, at, word));
  }

  lemma {:induction false} ReadAreTokens(u: Unicode, text: Text, at: nat, word: Text, symbols: seq<Symbol>, units: seq<Unit>)
    requires u.Valid() && at == 0 && word == [] && Spells(u, text, at, symbols) && units == UnitsFrom(u, symbols, at, word)
    ensures Tokens(u, text, units, at, |text|)
  {
    TokensFrom(u, text, at, word, symbols);
    assert UnitReader(u)(symbols, at, word) == units;
  }

  // The tokeniser finds exactly the tokens of the text.
  lemma {:induction false} UnitsAreTokens(u: Unicode, text: Text)
    requires u.Valid()
    ensures Tokens(u, text, UnitsFrom(u, Symbols(u, text), 0, []), 0, |text|)
  {
    SymbolsSpell(u, text, 0, text);
    ReadAreTokens(u, text, 0, [], Symbols(u, text), UnitsFrom(u, Symbols(u, text), 0, []));
  }

  // A token of one list is one of every other.
  lemma {:induction false} TokenIsShared(u: Unicode, text: Text, units: seq<Unit>, unit: Unit)
    requires Tokens(u, text, units, 0, |text|) && TokenAt(u, text, unit)
    ensures unit in units
  {
    if unit.cjk {
      assert IsIdeograph(units, unit.start, unit.end - unit.start);
      var i :| 0 <= i < |units| && units[i].cjk && units[i].start == unit.start && units[i].end == unit.end;
      assert units[i] == unit;
    } else {
      assert WordAt(u, text, unit.start) && InWord(units, unit.start);
      var i :| 0 <= i < |units| && !units[i].cjk && units[i].start <= unit.start < units[i].end;
      SameWord(u, text, units[i], unit);
    }
  }

  lemma {:induction false} SameWord(u: Unicode, text: Text, a: Unit, b: Unit)
    requires TokenAt(u, text, a) && TokenAt(u, text, b) && !a.cjk && !b.cjk && a.start <= b.start < a.end
    ensures a == b
  {
    assert !WordAt(u, text, b.start - 1) && !WordAt(u, text, a.end) && !WordAt(u, text, b.end);
  }

  // A text has one list of tokens.
  lemma {:induction false} TokensAgree(u: Unicode, text: Text, a: seq<Unit>, b: seq<Unit>, n: nat)
    requires Tokens(u, text, a, 0, |text|) && Tokens(u, text, b, 0, |text|)
    requires n <= |a| && n <= |b| && a[..n] == b[..n]
    ensures a == b
    decreases |a| - n
  {
    if n < |a| {
      NextToken(u, text, a, b, n);
      NextToken(u, text, b, a, n);
      assert a[n] == b[n];
      assert a[..n + 1] == a[..n] + [a[n]] && b[..n + 1] == b[..n] + [b[n]];
      TokensAgree(u, text, a, b, n + 1);
    } else if n < |b| {
      NextToken(u, text, b, a, n);
    } else {
      assert a == a[..n] && b == b[..n];
    }
  }

  lemma {:induction false} NextToken(u: Unicode, text: Text, a: seq<Unit>, b: seq<Unit>, n: nat)
    requires Tokens(u, text, a, 0, |text|) && Tokens(u, text, b, 0, |text|)
    requires n < |a| && n <= |b| && a[..n] == b[..n]
    ensures n < |b| && b[n].start <= a[n].start && (b[n].start == a[n].start ==> b[n] == a[n])
  {
    assert TokenAt(u, text, a[n]);
    TokenIsShared(u, text, b, a[n]);
    var j :| 0 <= j < |b| && b[j] == a[n];
    forall i | 0 <= i < n ensures b[i].end <= a[n].start && b[i].start < b[i].end {
      assert b[i] == b[..n][i] == a[..n][i] == a[i] && TokenAt(u, text, a[i]);
    }
    assert n <= j;
    assert TokenAt(u, text, b[n]) && (n < j ==> b[n].end <= b[j].start);
  }

  // The units that deduplication compares are the tokens.
  lemma {:induction false} UnitsOfTokens(u: Unicode, text: Text, units: seq<Unit>)
    requires u.Valid() && Tokens(u, text, units, 0, |text|)
    ensures UnitTexts(u, Symbols(u, text), []) == Normalized(units)
  {
    UnitsAreTokens(u, text);
    TokensAgree(u, text, units, UnitsFrom(u, Symbols(u, text), 0, []), 0);
    UnitsAreTheirTexts(u, Symbols(u, text), 0, []);
  }

  // Deduplication finds the longest run of tokens that ends the previous text and starts the incoming one, and cuts after
  // its last token.
  lemma {:induction false} SharedTokensAreRemoved(u: Unicode, previous: seq<Unit>, previousText: Text, incoming: seq<Unit>,
                                                  incomingText: Text, k: nat, result: DeduplicationResult)
    requires u.Valid()
    requires Tokens(u, previousText, previous, 0, |previousText|) && Tokens(u, incomingText, incoming, 0, |incomingText|)
    requires LongestOverlap(UnitsOf(u, previousText), UnitsOf(u, incomingText), k) && Deduplicated(u, incomingText, k, result)
    ensures LongestOverlap(Normalized(previous), Normalized(incoming), k)
    ensures if k < 2 then result.text == incomingText
            else
              && k <= |incoming| && incoming[k - 1].end <= |incomingText|
              && result.text == incomingText[CutFrom(u, incomingText, incoming[k - 1].end)..]
  {
    UnitsOfTokens(u, previousText, previous);
    UnitsOfTokens(u, incomingText, incoming);
    UnitsAreTokens(u, incomingText);
    TokensAgree(u, incomingText, incoming, UnitsFrom(u, Symbols(u, incomingText), 0, []), 0);
  }

  // A letter or digit that is no ideograph lies in one unit, with its neighbour if that is one too, and folded.
  lemma {:induction false} LetterInOneUnit(u: Unicode, text: Text, units: seq<Unit>, k: nat) returns (i: nat)
    requires Tokens(u, text, units, 0, |text|) && k < |text|
    requires u.category(text[k]) == LetterOrNumber && !IsCjk(text[k])
    ensures i < |units| && units[i].start <= k < units[i].end && !units[i].cjk
    ensures units[i].normalized == u.Folded(text[units[i].start..units[i].end])
    ensures forall j :: 0 <= j < |units| && units[j].start <= k < units[j].end ==> j == i
    ensures k + 1 < |text| && u.category(text[k + 1]) == LetterOrNumber && !IsCjk(text[k + 1]) ==> k + 1 < units[i].end
  {
    assert WordAt(u, text, k) && InWord(units, k);
    var found :| 0 <= found < |units| && !units[found].cjk && units[found].start <= k < units[found].end;
    i := found;
    assert TokenAt(u, text, units[i]);
  }
}
