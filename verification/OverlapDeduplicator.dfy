// src/asr/OverlapDeduplicator.cpp: mixed CJK and word text is cut into units, and the longest run that
// ends the previous text and starts the incoming one is removed from the incoming one.

module OverlapDeduplicator {
  import opened Outcomes

  // UTF-16 code units, as in QString.
  type CodeUnit = x: int | 0 <= x < 0x1_0000
  type Text = seq<CodeUnit>

  const UNDERSCORE: CodeUnit := 0x5F
  const BLANK: CodeUnit := 0x20

  // QChar::isLetterOrNumber, isPunct and isSpace exclude one another.
  datatype Category = LetterOrNumber | Punctuation | Space | Other

  predicate IsHighSurrogate(c: CodeUnit) {
    0xD800 <= c < 0xDC00
  }

  predicate IsLowSurrogate(c: CodeUnit) {
    0xDC00 <= c < 0xE000
  }

  function SurrogateToUcs4(high: int, low: int): int {
    (high - 0xD800) * 0x400 + (low - 0xDC00) + 0x1_0000
  }

  predicate IsCjk(codePoint: int) {
    || 0x3400 <= codePoint <= 0x4DBF || 0x4E00 <= codePoint <= 0x9FFF
    || 0xF900 <= codePoint <= 0xFAFF || 0x2_0000 <= codePoint <= 0x3_134F
  }

  // The character tables: a category for every code unit, and the case folding of word characters.
  datatype Unicode = Unicode(category: CodeUnit -> Category, fold: CodeUnit -> Text) {
    ghost predicate Valid() {
      && category(UNDERSCORE) == Punctuation
      && category(BLANK) == Space
      && (forall c: CodeUnit {:trigger Consistent(c)} :: Consistent(c))
      && fold(UNDERSCORE) == [UNDERSCORE]
    }

    // A lone surrogate has no category, and an ideograph is no punctuation and no space.
    predicate Consistent(c: CodeUnit) {
      && (IsHighSurrogate(c) || IsLowSurrogate(c) ==> category(c) == Other)
      && (IsCjk(c) ==> category(c) == LetterOrNumber || category(c) == Other)
    }

    predicate IsWord(c: CodeUnit) {
      category(c) == LetterOrNumber || c == UNDERSCORE
    }

    // What is skipped after the cut. The underscore is both a word character and skipped here.
    predicate IsSkipped(c: CodeUnit) {
      category(c) == Space || category(c) == Punctuation
    }

    function Folded(word: Text): Text {
      if word == [] then [] else Folded(word[..|word| - 1]) + fold(word[|word| - 1])
    }
  }

  datatype Unit = Unit(normalized: Text, start: nat, end: nat, cjk: bool)

  // What the tokeniser sees at one position: a code point, classified.
  datatype Symbol = Ideograph(code: Text) | WordCharacter(character: CodeUnit) | Separator(code: Text) {
    function Code(): Text {
      match this
      case Ideograph(code) => code
      case WordCharacter(c) => [c]
      case Separator(code) => code
    }
  }

  function FirstSymbol(u: Unicode, text: Text): (symbol: Symbol)
    requires text != []
    ensures 0 < |symbol.Code()| <= |text| && symbol.Code() == text[..|symbol.Code()|]
  {
    var first := text[0];
    var surrogate := IsHighSurrogate(first) && 1 < |text| && IsLowSurrogate(text[1]);
    var codePoint := if surrogate then SurrogateToUcs4(first, text[1]) else first;
    var width := if surrogate then 2 else 1;
    if IsCjk(codePoint) then Ideograph(text[..width])
    else if u.IsWord(first) then WordCharacter(first)
    else Separator(text[..width])
  }

  function Symbols(u: Unicode, text: Text): seq<Symbol>
    decreases |text|
  {
    if text == [] then []
    else
      var symbol := FirstSymbol(u, text);
      [symbol] + Symbols(u, text[|symbol.Code()|..])
  }

  // The units a symbol at position at completes, and the word it leaves open, when word stands open before it.
  function Completed(u: Unicode, symbol: Symbol, at: nat, word: Text): seq<Unit>
    requires |word| <= at
  {
    match symbol
    case Ideograph(code) => FlushWord(u, word, at) + [Unit(code, at, at + |code|, true)]
    case WordCharacter(_) => []
    case Separator(_) => FlushWord(u, word, at)
  }

  function OpenWord(symbol: Symbol, word: Text): Text {
    if symbol.WordCharacter? then word + [symbol.character] else []
  }

  // The units of the symbols from position at on.
  function UnitsFrom(u: Unicode, symbols: seq<Symbol>, at: nat, word: Text): seq<Unit>
    requires |word| <= at
    decreases |symbols|
  {
    if symbols == [] then FlushWord(u, word, at)
    else
      var next := at + |symbols[0].Code()|;
      Completed(u, symbols[0], at, word) + UnitsFrom(u, symbols[1..], next, OpenWord(symbols[0], word))
  }

  // The flushWord lambda: the unit of the open word, if there is one.
  function FlushWord(u: Unicode, word: Text, end: nat): seq<Unit>
    requires |word| <= end
  {
    if word == [] then [] else [Unit(u.Folded(word), end - |word|, end, false)]
  }

  method Units(u: Unicode, text: Text) returns (result: seq<Unit>)
    ensures result == UnitsFrom(u, Symbols(u, text), 0, [])
  {
    assert text[0..] == text;
    result := ReadUnits(u, text, [], Symbols(u, text), UnitsFrom(u, Symbols(u, text), 0, []));
  }

  // From the first symbol on, with nothing read and no word open.
  method ReadUnits(u: Unicode, text: Text, nothing: seq<Unit>, ghost symbols: seq<Symbol>, ghost units: seq<Unit>)
    returns (result: seq<Unit>)
    requires nothing == [] && symbols == Symbols(u, text[0..]) && units == UnitsFrom(u, symbols, 0, [])
    ensures result == units
  {
    result := nothing;
    var word: Text := [];
    var wordStart: int := -1;
    var index: nat := 0;
    ghost var remaining := symbols;
    while index < |text|
      invariant index <= |text| && |word| <= index
      invariant word != [] ==> wordStart == index - |word|
      invariant remaining == Symbols(u, text[index..])
      invariant result + UnitsFrom(u, remaining, index, word) == units
      decreases |text| - index
    {
      index, result, word, wordStart, remaining := TakeNext(u, text, index, result, word, wordStart, remaining);
    }
    NothingRemains(u, text[index..], index, word, result);
    if word != [] {
      result := result + [Unit(u.Folded(word), wordStart, |text|, false)];
    }
  }

  lemma {:induction false} NothingRemains(u: Unicode, rest: Text, at: nat, word: Text, units: seq<Unit>)
    requires rest == [] && |word| <= at
    ensures units + UnitsFrom(u, Symbols(u, rest), at, word)
         == if word == [] then units else units + [Unit(u.Folded(word), at - |word|, at, false)]
  {
  }

  method TakeNext(u: Unicode, text: Text, at: nat, units: seq<Unit>, openWord: Text, openStart: int,
                  ghost symbols: seq<Symbol>)
    returns (index: nat, result: seq<Unit>, word: Text, wordStart: int, ghost remaining: seq<Symbol>)
    requires at < |text| && |openWord| <= at && symbols == Symbols(u, text[at..])
    requires openWord != [] ==> openStart == at - |openWord|
    ensures at < index <= |text| && |word| <= index && remaining == Symbols(u, text[index..])
    ensures word != [] ==> wordStart == index - |word|
    ensures result + UnitsFrom(u, remaining, index, word) == units + UnitsFrom(u, symbols, at, openWord)
  {
    var symbol;
    symbol, remaining := SymbolAt(u, text, at, symbols);
    index := at + |symbol.Code()|;
    result, word, wordStart := TakeSymbol(u, symbol, symbols, remaining, at, units, openWord, openStart);
  }

  // The loop body after classification.
  method TakeSymbol(u: Unicode, symbol: Symbol, ghost remaining: seq<Symbol>, ghost rest: seq<Symbol>, index: nat,
                    units: seq<Unit>, openWord: Text, openStart: int)
    returns (result: seq<Unit>, word: Text, wordStart: int)
    requires remaining != [] && remaining[0] == symbol && remaining[1..] == rest
    requires |openWord| <= index
    requires openWord != [] ==> openStart == index - |openWord|
    requires |symbol.Code()| > 0
    ensures result == units + Completed(u, symbol, index, openWord)
    ensures word == OpenWord(symbol, openWord)
    ensures word != [] ==> wordStart == index + |symbol.Code()| - |word|
    ensures result + UnitsFrom(u, rest, index + |symbol.Code()|, word) == units + UnitsFrom(u, remaining, index, openWord)
  {
    UnitsStep(u, remaining, index, openWord, units);
    result, word, wordStart := CompleteUnits(u, symbol, index, units, openWord, openStart);
  }

  method CompleteUnits(u: Unicode, symbol: Symbol, index: nat, units: seq<Unit>, openWord: Text, openStart: int)
    returns (result: seq<Unit>, word: Text, wordStart: int)
    requires |openWord| <= index
    requires openWord != [] ==> openStart == index - |openWord|
    requires |symbol.Code()| > 0
    ensures result == units + Completed(u, symbol, index, openWord)
    ensures word == OpenWord(symbol, openWord)
    ensures word != [] ==> wordStart == index + |symbol.Code()| - |word|
  {
    result, word, wordStart := units, openWord, openStart;
    match symbol {
      case Ideograph(code) =>
        if word != [] {
          result := result + [Unit(u.Folded(word), wordStart, index, false)];
          word, wordStart := [], -1;
        }
        result := result + [Unit(code, index, index + |code|, true)];
      case WordCharacter(c) =>
        if word == [] {
          wordStart := index;
        }
        word := word + [c];
      case Separator(_) =>
        if word != [] {
          result := result + [Unit(u.Folded(word), wordStart, index, false)];
          word, wordStart := [], -1;
        }
    }
  }

  // The classification at the head of the loop: the symbol at index, with nothing said about how it was found.
  method SymbolAt(u: Unicode, text: Text, index: nat, ghost symbols: seq<Symbol>) returns (symbol: Symbol, ghost rest: seq<Symbol>)
    requires index < |text| && symbols == Symbols(u, text[index..])
    ensures 0 < |symbol.Code()| <= |text| - index
    ensures symbols != [] && symbols[0] == symbol && symbols[1..] == rest
    ensures rest == Symbols(u, text[index + |symbol.Code()|..])
  {
    symbol := FirstSymbol(u, text[index..]);
    assert text[index..][|symbol.Code()|..] == text[index + |symbol.Code()|..];
    rest := symbols[1..];
  }

  lemma {:induction false} UnitsStep(u: Unicode, symbols: seq<Symbol>, at: nat, word: Text, before: seq<Unit>)
    requires |word| <= at && symbols != []
    ensures before + UnitsFrom(u, symbols, at, word)
         == before + Completed(u, symbols[0], at, word)
            + UnitsFrom(u, symbols[1..], at + |symbols[0].Code()|, OpenWord(symbols[0], word))
  {
    Regrouped(before, Completed(u, symbols[0], at, word),
              UnitsFrom(u, symbols[1..], at + |symbols[0].Code()|, OpenWord(symbols[0], word)));
  }

  function Normalized(units: seq<Unit>): seq<Text> {
    seq(|units|, i requires 0 <= i < |units| => units[i].normalized)
  }

  lemma {:induction false} NormalizedAppend(a: seq<Unit>, b: seq<Unit>)
    ensures Normalized(a + b) == Normalized(a) + Normalized(b)
  {
  }

  // ---- The normalised units alone, without their positions.

  function Flushed(u: Unicode, word: Text): seq<Text> {
    if word == [] then [] else [u.Folded(word)]
  }

  function CompletedTexts(u: Unicode, symbol: Symbol, word: Text): seq<Text> {
    match symbol
    case Ideograph(code) => Flushed(u, word) + [code]
    case WordCharacter(_) => []
    case Separator(_) => Flushed(u, word)
  }

  function UnitTexts(u: Unicode, symbols: seq<Symbol>, word: Text): seq<Text> {
    if symbols == [] then Flushed(u, word)
    else CompletedTexts(u, symbols[0], word) + UnitTexts(u, symbols[1..], OpenWord(symbols[0], word))
  }

  function UnitsOf(u: Unicode, text: Text): seq<Text> {
    UnitTexts(u, Symbols(u, text), [])
  }

  lemma {:induction false} UnitsAreTheirTexts(u: Unicode, symbols: seq<Symbol>, at: nat, word: Text)
    requires |word| <= at
    ensures Normalized(UnitsFrom(u, symbols, at, word)) == UnitTexts(u, symbols, word)
    decreases |symbols|
  {
    if symbols != [] {
      var next, open := at + |symbols[0].Code()|, OpenWord(symbols[0], word);
      UnitsAreTheirTexts(u, symbols[1..], next, open);
      CompletedAreTheirTexts(u, symbols[0], at, word);
      NormalizedAppend(Completed(u, symbols[0], at, word), UnitsFrom(u, symbols[1..], next, open));
    } else {
      assert Normalized(FlushWord(u, word, at)) == Flushed(u, word);
    }
  }

  lemma {:induction false} CompletedAreTheirTexts(u: Unicode, symbol: Symbol, at: nat, word: Text)
    requires |word| <= at
    ensures Normalized(Completed(u, symbol, at, word)) == CompletedTexts(u, symbol, word)
  {
    assert Normalized(FlushWord(u, word, at)) == Flushed(u, word);
  }

  function CodeLength(symbols: seq<Symbol>): nat {
    if symbols == [] then 0 else |symbols[0].Code()| + CodeLength(symbols[1..])
  }

  // The k-th unit ends after n symbols, and the units after it are those of the other symbols.
  ghost predicate CutsAfter(from: (seq<Symbol>, nat) -> seq<Unit>, symbols: seq<Symbol>, at: nat, units: seq<Unit>, k: nat, n: nat)
    requires 0 < k <= |units|
  {
    && n <= |symbols|
    && units[k - 1].end == at + CodeLength(symbols[..n])
    && units[k..] == from(symbols[n..], at + CodeLength(symbols[..n]))
  }

  // The units of symbols before which no word is open.
  function NewUnits(u: Unicode): (seq<Symbol>, nat) -> seq<Unit> {
    (symbols: seq<Symbol>, at: nat) => UnitsFrom(u, symbols, at, [])
  }

  // Cutting right after a unit keeps exactly the units that follow it: n symbols lie before the cut.
  lemma {:induction false} UnitsAfterACut(u: Unicode, symbols: seq<Symbol>, at: nat, word: Text,
                                          k: nat) returns (n: nat)
    requires |word| <= at
    requires 0 < k <= |UnitsFrom(u, symbols, at, word)|
    ensures CutsAfter(NewUnits(u), symbols, at, UnitsFrom(u, symbols, at, word), k, n)
    decreases |symbols|, 1
  {
    if symbols == [] {
      n := 0;
    } else if k > |Completed(u, symbols[0], at, word)| {
      n := CutBehindFirst(u, symbols, at, word, k);
    } else {
      n := CutInFirst(u, symbols, at, word, k);
    }
  }

  lemma {:induction false} CutBehindFirst(u: Unicode, symbols: seq<Symbol>, at: nat, word: Text, k: nat) returns (n: nat)
    requires |word| <= at && symbols != []
    requires |Completed(u, symbols[0], at, word)| < k <= |UnitsFrom(u, symbols, at, word)|
    ensures CutsAfter(NewUnits(u), symbols, at, UnitsFrom(u, symbols, at, word), k, n)
    decreases |symbols|, 0
  {
    var head := Completed(u, symbols[0], at, word);
    var next, open := at + |symbols[0].Code()|, OpenWord(symbols[0], word);
    n := UnitsAfterACut(u, symbols[1..], next, open, k - |head|);
    CutLater(NewUnits(u), symbols, at, head, UnitsFrom(u, symbols[1..], next, open), k, n);
    n := n + 1;
  }

  lemma {:induction false} CutLater(from: (seq<Symbol>, nat) -> seq<Unit>, symbols: seq<Symbol>, at: nat, head: seq<Unit>,
                                    rest: seq<Unit>, k: nat, n: nat)
    requires symbols != [] && |head| < k <= |head| + |rest|
    requires CutsAfter(from, symbols[1..], at + |symbols[0].Code()|, rest, k - |head|, n)
    ensures CutsAfter(from, symbols, at, head + rest, k, n + 1)
  {
    CutPastHead(head + rest, head, rest, k);
    SymbolsSplit(symbols, n);
  }

  // A cut after a unit that the first symbol completes.
  lemma {:induction false} CutInFirst(u: Unicode, symbols: seq<Symbol>, at: nat, word: Text, k: nat) returns (n: nat)
    requires |word| <= at && symbols != []
    requires 0 < k <= |Completed(u, symbols[0], at, word)|
    ensures CutsAfter(NewUnits(u), symbols, at, UnitsFrom(u, symbols, at, word), k, n)
  {
    var head := Completed(u, symbols[0], at, word);
    var rest := UnitsFrom(u, symbols[1..], at + |symbols[0].Code()|, []);
    assert UnitsFrom(u, symbols, at, word) == head + rest;
    CutPastHead(head + rest, head, rest, k);
    if k == |head| && symbols[0].Ideograph? {
      n := 1;
      CutAfterIdeograph(NewUnits(u), symbols, at, head, rest);
    } else {
      n := 0;
      assert head[k..] == Completed(u, symbols[0], at, []);
      NothingOpen(u, symbols, at);
      CutBeforeFirst(NewUnits(u), symbols, at, head + rest, k);
    }
  }

  lemma {:induction false} CutAfterIdeograph(from: (seq<Symbol>, nat) -> seq<Unit>, symbols: seq<Symbol>, at: nat,
                                             head: seq<Unit>, rest: seq<Unit>)
    requires symbols != [] && head != [] && head[|head| - 1].end == at + |symbols[0].Code()|
    requires rest == from(symbols[1..], at + |symbols[0].Code()|)
    ensures CutsAfter(from, symbols, at, head + rest, |head|, 1)
  {
    SymbolsSplit(symbols, 0);
    assert symbols[1..][..0] == [];
    assert (head + rest)[|head|..] == rest;
  }

  lemma {:induction false} NothingOpen(u: Unicode, symbols: seq<Symbol>, at: nat)
    requires symbols != [] && !symbols[0].WordCharacter?
    ensures UnitsFrom(u, symbols, at, [])
         == Completed(u, symbols[0], at, []) + UnitsFrom(u, symbols[1..], at + |symbols[0].Code()|, [])
  {
  }

  lemma {:induction false} CutBeforeFirst(from: (seq<Symbol>, nat) -> seq<Unit>, symbols: seq<Symbol>, at: nat,
                                          units: seq<Unit>, k: nat)
    requires 0 < k <= |units| && units[k - 1].end == at && units[k..] == from(symbols, at)
    ensures CutsAfter(from, symbols, at, units, k, 0)
  {
    assert symbols[..0] == [] && symbols[0..] == symbols;
  }

  lemma {:induction false} SymbolsSplit(symbols: seq<Symbol>, n: nat)
    requires n < |symbols|
    ensures symbols[..n + 1][1..] == symbols[1..][..n] && symbols[n + 1..] == symbols[1..][n..]
    ensures CodeLength(symbols[..n + 1]) == |symbols[0].Code()| + CodeLength(symbols[1..][..n])
  {
    assert symbols[..n + 1][1..] == symbols[1..][..n];
  }

  lemma {:induction false} CutPastHead(units: seq<Unit>, head: seq<Unit>, rest: seq<Unit>, k: nat)
    requires units == head + rest && k <= |units|
    ensures k >= |head| ==> units[k..] == rest[k - |head|..]
    ensures k > |head| ==> units[k - 1] == rest[k - |head| - 1]
    ensures k <= |head| ==> units[k..] == head[k..] + rest
    ensures 0 < k <= |head| ==> units[k - 1] == head[k - 1]
  {
  }

  lemma {:induction false} SymbolsHead(u: Unicode, text: Text)
    requires text != []
    ensures
      var symbols := SymbolReader(u)(text);
      symbols != [] && |symbols[0].Code()| <= |text| && symbols[1..] == SymbolReader(u)(text[|symbols[0].Code()|..])
      && 0 < |symbols[0].Code()|
  {
  }

  function SymbolReader(u: Unicode): Text -> seq<Symbol> {
    (text: Text) => Symbols(u, text)
  }

  // Reading the text after its first n symbols gives the other symbols.
  predicate ResumesAt(symbolsOf: Text -> seq<Symbol>, text: Text, n: nat) {
    && n <= |symbolsOf(text)| && CodeLength(symbolsOf(text)[..n]) <= |text|
    && symbolsOf(text[CodeLength(symbolsOf(text)[..n])..]) == symbolsOf(text)[n..]
  }

  // Reading can resume at any symbol.
  lemma {:induction false} SymbolsOfTheRest(u: Unicode, text: Text, n: nat)
    requires n <= |SymbolReader(u)(text)|
    ensures ResumesAt(SymbolReader(u), text, n)
    decreases |text|
  {
    if n == 0 {
      ResumesAtFirst(SymbolReader(u), text, n);
    } else {
      SymbolsHead(u, text);
      var width := |SymbolReader(u)(text)[0].Code()|;
      SymbolsOfTheRest(u, text[width..], n - 1);
      RestOfTheRest(SymbolReader(u), text, width, n);
    }
  }

  lemma {:induction false} ResumesAtFirst(symbolsOf: Text -> seq<Symbol>, text: Text, none: nat)
    requires none == 0
    ensures ResumesAt(symbolsOf, text, none)
  {
    assert symbolsOf(text)[..0] == [] && text[0..] == text;
  }

  lemma {:induction false} RestOfTheRest(symbolsOf: Text -> seq<Symbol>, text: Text, width: nat, n: nat)
    requires symbolsOf(text) != [] && width == |symbolsOf(text)[0].Code()| <= |text|
    requires symbolsOf(text)[1..] == symbolsOf(text[width..]) && 0 < n <= |symbolsOf(text)|
    requires ResumesAt(symbolsOf, text[width..], n - 1)
    ensures ResumesAt(symbolsOf, text, n)
  {
    SymbolsSplit(symbolsOf(text), n - 1);
    assert text[width..][CodeLength(symbolsOf(text)[1..][..n - 1])..] == text[CodeLength(symbolsOf(text)[..n])..];
  }

  // ---- What the matching means.

  // The last k units of the previous text are the first k of the incoming one.
  predicate Overlaps(previous: seq<Text>, incoming: seq<Text>, k: nat) {
    k <= |previous| && k <= |incoming| && previous[|previous| - k..] == incoming[..k]
  }

  ghost predicate LongestOverlap(previous: seq<Text>, incoming: seq<Text>, k: nat) {
    Overlaps(previous, incoming, k) && forall j: nat :: Overlaps(previous, incoming, j) ==> j <= k
  }

  // Where the kept text begins: past the spaces and punctuation that follow end.
  function CutFrom(u: Unicode, text: Text, end: nat): (cut: nat)
    requires end <= |text|
    ensures end <= cut <= |text|
    ensures forall k :: end <= k < cut ==> u.IsSkipped(text[k])
    decreases |text| - end
  {
    if end < |text| && u.IsSkipped(text[end]) then CutFrom(u, text, end + 1) else end
  }

  datatype DeduplicationResult = DeduplicationResult(text: Text, matchedUnits: nat, ambiguous: bool) {
    // How many units matched: a single one is kept and only reported.
    function Overlap(): nat {
      if ambiguous then 1 else matchedUnits
    }
  }

  // The end of the last matched unit, when k >= 1 units matched.
  function MatchedEnd(u: Unicode, text: Text, k: nat): nat
    requires 0 < k <= |UnitsFrom(u, Symbols(u, text), 0, [])|
  {
    UnitsFrom(u, Symbols(u, text), 0, [])[k - 1].end
  }

  // What deduplicate does with the longest overlap k: fewer than two units are kept as they are.
  ghost predicate Deduplicated(u: Unicode, incoming: Text, k: nat, result: DeduplicationResult) {
    if k < 2 then
      result == DeduplicationResult(incoming, 0, k == 1)
    else
      && k <= |UnitsFrom(u, Symbols(u, incoming), 0, [])|
      && MatchedEnd(u, incoming, k) <= |incoming|
      && result == DeduplicationResult(incoming[CutFrom(u, incoming, MatchedEnd(u, incoming, k))..], k, false)
  }

  method Deduplicate(u: Unicode, previousText: Text, incomingText: Text, timestampsOverlap: bool)
    returns (result: DeduplicationResult)
    ensures timestampsOverlap && previousText != [] && incomingText != [] ==>
      LongestOverlap(UnitsOf(u, previousText), UnitsOf(u, incomingText), result.Overlap())
    ensures !timestampsOverlap || previousText == [] || incomingText == [] ==> result.Overlap() == 0
    ensures Deduplicated(u, incomingText, result.Overlap(), result)
  {
    result := DeduplicationResult(incomingText, 0, false);
    if !timestampsOverlap || previousText == [] || incomingText == [] {
      return;
    }
    var previous := Units(u, previousText);
    var incoming := Units(u, incomingText);
    UnitsAreTheirTexts(u, Symbols(u, previousText), 0, []);
    UnitsAreTheirTexts(u, Symbols(u, incomingText), 0, []);
    var matched := LongestMatch(previous, incoming);
    if matched < 2 {
      result := DeduplicationResult(incomingText, 0, matched == 1);
      return;
    }
    UnitsAfterTheMatch(u, incomingText, matched);
    var cut := SkipSeparators(u, incomingText, incoming[matched - 1].end);
    result := DeduplicationResult(incomingText[cut..], matched, false);
  }

  method SkipSeparators(u: Unicode, text: Text, end: nat) returns (cut: nat)
    requires end <= |text|
    ensures cut == CutFrom(u, text, end)
  {
    cut := end;
    while cut < |text| && (u.category(text[cut]) == Space || u.category(text[cut]) == Punctuation)
      invariant end <= cut <= |text|
      invariant CutFrom(u, text, cut) == CutFrom(u, text, end)
    {
      cut := cut + 1;
    }
  }

  // The two search loops: lengths from the longest down, units from the first on.
  method LongestMatch(previous: seq<Unit>, incoming: seq<Unit>) returns (matched: nat)
    ensures LongestOverlap(Normalized(previous), Normalized(incoming), matched)
  {
    ghost var p: seq<Text>, q: seq<Text> := Normalized(previous), Normalized(incoming);
    var length: nat := Min(|previous|, |incoming|);
    while length > 0
      invariant length <= |previous| && length <= |incoming|
      invariant forall j: nat :: Overlaps(p, q, j) ==> j <= length
    {
      var equal := true;
      var index := 0;
      while index < length
        invariant 0 <= index <= length
        invariant equal ==> forall i :: 0 <= i < index ==> p[|p| - length..][i] == q[..length][i]
        invariant !equal ==> !Overlaps(p, q, length)
      {
        if previous[|previous| - length + index].normalized != incoming[index].normalized {
          equal := false;
          assert p[|p| - length..][index] != q[..length][index];
          break;
        }
        index := index + 1;
      }
      if equal {
        assert p[|p| - length..] == q[..length];
        return length;
      }
      length := length - 1;
    }
    assert Overlaps(p, q, 0);
    return 0;
  }

  // ---- The kept text has exactly the remaining units unless an underscore was skipped.

  predicate HasUnderscore(text: Text, low: nat, high: nat)
    requires low <= high <= |text|
  {
    exists k :: low <= k < high && text[k] == UNDERSCORE
  }

  lemma {:induction false} SkippedSymbol(u: Unicode, text: Text)
    requires u.Valid() && text != [] && u.IsSkipped(text[0])
    ensures Symbols(u, text) == [if text[0] == UNDERSCORE then WordCharacter(UNDERSCORE) else Separator([text[0]])] + Symbols(u, text[1..])
  {
    assert u.Consistent(text[0]);
    assert text[..1] == [text[0]];
    assert FirstSymbol(u, text) == if text[0] == UNDERSCORE then WordCharacter(UNDERSCORE) else Separator([text[0]]);
  }

  lemma {:induction false} SkippedSeparator(u: Unicode, text: Text)
    requires u.Valid() && text != [] && u.IsSkipped(text[0]) && text[0] != UNDERSCORE
    ensures UnitsOf(u, text) == UnitsOf(u, text[1..])
  {
    SkippedSymbol(u, text);
    assert Symbols(u, text)[1..] == Symbols(u, text[1..]);
  }

  lemma {:induction false} SkippingSeparators(u: Unicode, text: Text, low: nat, high: nat)
    requires u.Valid() && low <= high <= |text|
    requires forall k :: low <= k < high ==> u.IsSkipped(text[k])
    requires !HasUnderscore(text, low, high)
    ensures UnitsOf(u, text[low..]) == UnitsOf(u, text[high..])
    decreases high - low
  {
    if low < high {
      SkippingSeparators(u, text, low + 1, high);
      assert text[low] != UNDERSCORE;
      SkippedSeparator(u, text[low..]);
      assert text[low..][1..] == text[low + 1..];
    }
  }

  // How much normalised text the units hold.
  function Weight(units: seq<Text>): nat {
    if units == [] then 0 else |units[0]| + Weight(units[1..])
  }

  lemma {:induction false} WeightAppend(a: seq<Text>, b: seq<Text>)
    ensures Weight(a + b) == Weight(a) + Weight(b)
  {
    if a == [] {
      assert a + b == b;
    } else {
      assert (a + b)[1..] == a[1..] + b;
      WeightAppend(a[1..], b);
    }
  }

  // The same, symbol by symbol.
  function SymbolWeight(u: Unicode, symbols: seq<Symbol>): nat {
    if symbols == [] then 0
    else
      (match symbols[0]
       case Ideograph(code) => |code|
       case WordCharacter(c) => |u.fold(c)|
       case Separator(_) => 0) + SymbolWeight(u, symbols[1..])
  }

  lemma {:induction false} UnitsWeighTheirSymbols(u: Unicode, symbols: seq<Symbol>, word: Text)
    ensures Weight(UnitTexts(u, symbols, word)) == |u.Folded(word)| + SymbolWeight(u, symbols)
    decreases |symbols|
  {
    assert Weight(Flushed(u, word)) == |u.Folded(word)| by {
      assert word != [] ==> Flushed(u, word)[1..] == [];
    }
    if symbols != [] {
      UnitsWeighTheirSymbols(u, symbols[1..], OpenWord(symbols[0], word));
      WeightAppend(CompletedTexts(u, symbols[0], word), UnitTexts(u, symbols[1..], OpenWord(symbols[0], word)));
      CompletedWeighs(u, symbols[0], word);
    }
  }

  lemma {:induction false} CompletedWeighs(u: Unicode, symbol: Symbol, word: Text)
    ensures Weight(CompletedTexts(u, symbol, word)) + |u.Folded(OpenWord(symbol, word))|
         == |u.Folded(word)| + SymbolWeight(u, [symbol])
  {
    assert word != [] ==> Flushed(u, word)[1..] == [];
    match symbol
    case Ideograph(code) =>
      WeightAppend(Flushed(u, word), [code]);
      assert [code][1..] == [];
    case WordCharacter(c) =>
      assert (word + [c])[..|word|] == word;
    case Separator(_) =>
  }

  lemma {:induction false} SkippedUnderscoresWeigh(u: Unicode, text: Text, low: nat, high: nat)
    requires u.Valid() && low <= high <= |text|
    requires forall k :: low <= k < high ==> u.IsSkipped(text[k])
    ensures SymbolWeight(u, Symbols(u, text[low..])) >= SymbolWeight(u, Symbols(u, text[high..]))
    ensures HasUnderscore(text, low, high) ==> SymbolWeight(u, Symbols(u, text[low..])) > SymbolWeight(u, Symbols(u, text[high..]))
    decreases high - low
  {
    if low < high {
      SkippedUnderscoresWeigh(u, text, low + 1, high);
      SkippedSymbol(u, text[low..]);
      assert text[low..][1..] == text[low + 1..];
      var symbols := Symbols(u, text[low..]);
      assert symbols[1..] == Symbols(u, text[low + 1..]);
      if text[low] != UNDERSCORE {
        assert HasUnderscore(text, low, high) ==> HasUnderscore(text, low + 1, high);
      }
    }
  }

  // The units after the k-th are those of the text after it.
  lemma {:induction false} UnitsAfterTheMatch(u: Unicode, text: Text, k: nat)
    requires 0 < k <= |UnitsFrom(u, Symbols(u, text), 0, [])|
    ensures k <= |UnitsOf(u, text)| && MatchedEnd(u, text, k) <= |text|
    ensures UnitsOf(u, text)[k..] == UnitsOf(u, text[MatchedEnd(u, text, k)..])
  {
    var symbols := Symbols(u, text);
    var n := UnitsAfterACut(u, symbols, 0, [], k);
    var end := CodeLength(symbols[..n]);
    SymbolsOfTheRest(u, text, n);
    assert ResumesAt(SymbolReader(u), text, n);
    UnitsAreTheirTexts(u, symbols, 0, []);
    UnitsAreTheirTexts(u, symbols[n..], end, []);
    DroppedTexts(UnitsFrom(u, symbols, 0, []), k);
  }

  lemma {:induction false} DroppedTexts(units: seq<Unit>, k: nat)
    requires k <= |units|
    ensures Normalized(units)[k..] == Normalized(units[k..])
  {
  }

  lemma {:induction false} SkippingKeepsUnitsIff(u: Unicode, text: Text, low: nat, high: nat)
    requires u.Valid() && low <= high <= |text|
    requires forall k :: low <= k < high ==> u.IsSkipped(text[k])
    ensures UnitsOf(u, text[low..]) == UnitsOf(u, text[high..]) <==> !HasUnderscore(text, low, high)
  {
    if HasUnderscore(text, low, high) {
      SkippedUnderscoresWeigh(u, text, low, high);
      UnitsWeighTheirSymbols(u, Symbols(u, text[low..]), []);
      UnitsWeighTheirSymbols(u, Symbols(u, text[high..]), []);
    } else {
      SkippingSeparators(u, text, low, high);
    }
  }

  // deduplicate removes the matched units and nothing else exactly when no underscore stands among the
  // spaces and punctuation between the last matched unit and the text it keeps.
  lemma {:induction false} KeptUnitsAreTheRest(u: Unicode, incoming: Text, k: nat, result: DeduplicationResult)
    requires u.Valid() && k >= 2 && Deduplicated(u, incoming, k, result)
    ensures
      var end := MatchedEnd(u, incoming, k);
      && result.text == incoming[|incoming| - |result.text|..]
      && k <= |UnitsOf(u, incoming)|
      && (UnitsOf(u, result.text) == UnitsOf(u, incoming)[k..] <==> !HasUnderscore(incoming, end, CutFrom(u, incoming, end)))
  {
    UnitsAfterTheMatch(u, incoming, k);
    KeptIsSuffix(u, incoming, k, MatchedEnd(u, incoming, k), result);
    SkippingKeepsUnitsIff(u, incoming, MatchedEnd(u, incoming, k), CutFrom(u, incoming, MatchedEnd(u, incoming, k)));
  }

  lemma {:induction false} KeptIsSuffix(u: Unicode, incoming: Text, k: nat, end: nat, result: DeduplicationResult)
    requires k >= 2 && end <= |incoming| && result == DeduplicationResult(incoming[CutFrom(u, incoming, end)..], k, false)
    ensures result.text == incoming[CutFrom(u, incoming, end)..] == incoming[|incoming| - |result.text|..]
  {
  }

  lemma {:induction false} IdeographFirst(u: Unicode, x: CodeUnit, text: Text, at: nat, none: Text)
    requires IsCjk(x) && text != [] && text[0] == x && none == []
    ensures Symbols(u, text) != [] && Symbols(u, text)[0] == Ideograph([x]) && Symbols(u, text)[1..] == Symbols(u, text[1..])
    ensures UnitsFrom(u, Symbols(u, text), at, none) == [Unit([x], at, at + 1, true)] + UnitsFrom(u, Symbols(u, text[1..]), at + 1, none)
  {
    assert FirstSymbol(u, text) == Ideograph([x]) by {
      assert text[..1] == [x];
    }
    assert Completed(u, Ideograph([x]), at, none) == [Unit([x], at, at + 1, true)];
  }

  lemma {:induction false} TwoIdeographs(u: Unicode, x: CodeUnit, y: CodeUnit, text: Text, none: Text)
    requires IsCjk(x) && IsCjk(y) && |text| >= 2 && text[0] == x && text[1] == y && none == []
    ensures UnitsFrom(u, Symbols(u, text), 0, none) ==
      [Unit([x], 0, 1, true), Unit([y], 1, 2, true)] + UnitsFrom(u, Symbols(u, text[2..]), 2, none)
  {
    IdeographFirst(u, x, text, 0, none);
    IdeographFirst(u, y, text[1..], 1, none);
    assert text[1..][1..] == text[2..];
    Regrouped([Unit([x], 0, 1, true)], [Unit([y], 1, 2, true)], UnitsFrom(u, Symbols(u, text[2..]), 2, none));
  }

  lemma {:induction false} FirstTwoUnits(u: Unicode, x: CodeUnit, y: CodeUnit, text: Text, none: Text, more: seq<Unit>)
    requires IsCjk(x) && IsCjk(y) && |text| >= 2 && text[0] == x && text[1] == y && none == []
    requires more == UnitsFrom(u, Symbols(u, text[2..]), 2, none)
    ensures |UnitsFrom(u, Symbols(u, text), 0, none)| == 2 + |more| && UnitsFrom(u, Symbols(u, text), 0, none)[1].end == 2
    ensures |UnitTexts(u, Symbols(u, text), none)| == 2 + |more| && UnitTexts(u, Symbols(u, text), none)[..2] == [[x], [y]]
  {
    TwoIdeographs(u, x, y, text, none);
    UnitsAreTheirTexts(u, Symbols(u, text), 0, none);
  }

  // An input that loses a unit: two ideographs, and then the same two and an underscore, keep nothing, although the
  // underscore is the unit that remains.
  lemma {:induction false} UnderscoreIsLost(u: Unicode, x: CodeUnit, y: CodeUnit, previous: Text, incoming: Text)
    requires u.Valid() && IsCjk(x) && IsCjk(y) && previous == [x, y] && incoming == [x, y, UNDERSCORE]
    ensures LongestOverlap(UnitsOf(u, previous), UnitsOf(u, incoming), 2)
    ensures Deduplicated(u, incoming, 2, DeduplicationResult([], 2, false))
    ensures UnitsOf(u, []) != UnitsOf(u, incoming)[2..]
  {
    FirstTwoUnits(u, x, y, previous, [], UnitsFrom(u, Symbols(u, previous[2..]), 2, []));
    FirstTwoUnits(u, x, y, incoming, [], UnitsFrom(u, Symbols(u, incoming[2..]), 2, []));
    assert previous[2..] == [];
    LosesUnderscore(u, UnitsOf(u, previous), incoming);
  }

  lemma {:induction false} LosesUnderscore(u: Unicode, previous: seq<Text>, incoming: Text)
    requires u.Valid() && |previous| == 2 && |incoming| == 3 && incoming[2] == UNDERSCORE
    requires |UnitsOf(u, incoming)| >= 2 && UnitsOf(u, incoming)[..2] == previous
    requires |UnitsFrom(u, Symbols(u, incoming), 0, [])| >= 2 && MatchedEnd(u, incoming, 2) == 2
    ensures LongestOverlap(previous, UnitsOf(u, incoming), 2)
    ensures Deduplicated(u, incoming, 2, DeduplicationResult([], 2, false))
    ensures UnitsOf(u, []) != UnitsOf(u, incoming)[2..]
  {
    assert CutFrom(u, incoming, 3) == 3;
    assert previous[|previous| - 2..] == previous;
    assert Overlaps(previous, UnitsOf(u, incoming), 2);
    KeptUnitsAreTheRest(u, incoming, 2, DeduplicationResult([], 2, false));
  }
}
