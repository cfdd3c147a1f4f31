// reconcileOverlap in src/app/TranscriptionCoordinator.cpp: stitching a chunk's segments to the last
// segment of the chunk before it.

module OverlapReconciliation {
  import opened Outcomes
  import opened OverlapDeduplicator

  datatype TranscriptSegment = TranscriptSegment(startMs: int, endMs: int, originalText: Text, editedText: Text) {
    function DisplayText(): Text {
      if editedText == [] then originalText else editedText
    }
  }

  predicate IsSpace(u: Unicode, c: CodeUnit) {
    u.category(c) == Space
  }

  // QString::trimmed
  function Trimmed(u: Unicode, text: Text): Text
    decreases |text|
  {
    if text != [] && IsSpace(u, text[0]) then Trimmed(u, text[1..])
    else if text != [] && IsSpace(u, text[|text| - 1]) then Trimmed(u, text[..|text| - 1])
    else text
  }

  function FirstSpace(u: Unicode, text: Text): (i: nat)
    ensures i <= |text|
    ensures i < |text| ==> IsSpace(u, text[i])
  {
    if text == [] || IsSpace(u, text[0]) then 0 else 1 + FirstSpace(u, text[1..])
  }

  // QString::simplified: trimmed, and every run of white space inside replaced by one blank.
  function Simplified(u: Unicode, text: Text): Text
    decreases |text|
  {
    var inner := Trimmed(u, text);
    TrimmedIsShorter(u, text);
    var i := FirstSpace(u, inner);
    if i == |inner| then inner else inner[..i] + [BLANK] + Simplified(u, inner[i + 1..])
  }

  lemma {:induction false} TrimmedIsShorter(u: Unicode, text: Text)
    ensures |Trimmed(u, text)| <= |text|
    decreases |text|
  {
    if text != [] && IsSpace(u, text[0]) {
      TrimmedIsShorter(u, text[1..]);
    } else if text != [] && IsSpace(u, text[|text| - 1]) {
      TrimmedIsShorter(u, text[..|text| - 1]);
    }
  }

  // QStringList::join(' ')
  function Joined(texts: seq<Text>): Text {
    if texts == [] then [] else if |texts| == 1 then texts[0] else Joined(texts[..|texts| - 1]) + [BLANK] + texts[|texts| - 1]
  }

  function AllUnits(u: Unicode, segments: seq<TranscriptSegment>): seq<Text> {
    if segments == [] then [] else UnitsOf(u, segments[0].originalText) + AllUnits(u, segments[1..])
  }

  // ---- White space separates units and does nothing else.

  lemma {:induction false} SymbolsAcrossASpace(u: Unicode, head: Text, space: CodeUnit, tail: Text)
    requires u.Valid() && IsSpace(u, space) && head != []
    ensures FirstSymbol(u, head + [space] + tail) == FirstSymbol(u, head)
  {
    var text := head + [space] + tail;
    assert text[0] == head[0] && text[1] == if |head| > 1 then head[1] else space;
    assert u.Consistent(space);
    assert text[..1] == head[..1] && (|head| > 1 ==> text[..2] == head[..2]);
  }

  lemma {:induction false} SymbolBeforeASpace(u: Unicode, head: Text, space: CodeUnit,
                                              tail: Text) returns (symbol: Symbol, rest: Text)
    requires u.Valid() && IsSpace(u, space) && head != []
    ensures |rest| < |head|
    ensures Symbols(u, head) == [symbol] + Symbols(u, rest)
    ensures Symbols(u, head + [space] + tail) == [symbol] + Symbols(u, rest + [space] + tail)
  {
    SymbolsAcrossASpace(u, head, space, tail);
    symbol := FirstSymbol(u, head);
    rest := head[|symbol.Code()|..];
    assert (head + [space] + tail)[|symbol.Code()|..] == rest + [space] + tail;
  }

  lemma {:induction false} SpaceFirst(u: Unicode, space: CodeUnit, tail: Text)
    requires u.Valid() && IsSpace(u, space)
    ensures Symbols(u, [space] + tail) == [Separator([space])] + Symbols(u, tail)
  {
    SkippedSymbol(u, [space] + tail);
    assert ([space] + tail)[1..] == tail;
  }

  lemma {:induction false} SymbolsSplitAtASpace(u: Unicode, head: Text, space: CodeUnit, tail: Text)
    requires u.Valid() && IsSpace(u, space)
    ensures Symbols(u, head + [space] + tail) == Symbols(u, head) + [Separator([space])] + Symbols(u, tail)
    decreases |head|
  {
    if head == [] {
      SpaceFirst(u, space, tail);
      assert head + [space] + tail == [space] + tail;
    } else {
      var symbol, rest := SymbolBeforeASpace(u, head, space, tail);
      SymbolsSplitAtASpace(u, rest, space, tail);
      OneMoreAhead(Symbols(u, head + [space] + tail), Symbols(u, rest + [space] + tail), Symbols(u, head), Symbols(u, rest),
                   symbol, Separator([space]), Symbols(u, tail));
    }
  }

  lemma {:induction false} OneMoreAhead<T>(whole: seq<T>, inner: seq<T>, head: seq<T>, rest: seq<T>, first: T,
                                           separator: T, tail: seq<T>)
    requires whole == [first] + inner && head == [first] + rest && inner == rest + [separator] + tail
    ensures whole == head + [separator] + tail
  {
  }

  lemma {:induction false} UnitsSplitAtASeparator(u: Unicode, head: seq<Symbol>, separator: Symbol, tail: seq<Symbol>,
                                                  word: Text)
    requires separator.Separator?
    ensures UnitTexts(u, head + [separator] + tail, word) == UnitTexts(u, head, word) + UnitTexts(u, tail, [])
    decreases |head|
  {
    var symbols := head + [separator] + tail;
    if head == [] {
      assert symbols[1..] == tail;
    } else {
      var open := OpenWord(head[0], word);
      UnitsSplitAtASeparator(u, head[1..], separator, tail, open);
      assert symbols[1..] == head[1..] + [separator] + tail;
      Regrouped(CompletedTexts(u, head[0], word), UnitTexts(u, head[1..], open), UnitTexts(u, tail, []));
    }
  }

  lemma {:induction false} UnitsAcrossASpace(u: Unicode, head: Text, space: CodeUnit, tail: Text)
    requires u.Valid() && IsSpace(u, space)
    ensures UnitsOf(u, head + [space] + tail) == UnitsOf(u, head) + UnitsOf(u, tail)
  {
    SymbolsSplitAtASpace(u, head, space, tail);
    UnitsSplitAtASeparator(u, Symbols(u, head), Separator([space]), Symbols(u, tail), []);
  }

  lemma {:induction false} LeadingSpace(u: Unicode, text: Text)
    requires u.Valid() && text != [] && IsSpace(u, text[0])
    ensures UnitsOf(u, text) == UnitsOf(u, text[1..])
  {
    assert UnitsOf(u, []) == [];
    UnitsAcrossASpace(u, [], text[0], text[1..]);
    assert text == [] + [text[0]] + text[1..];
  }

  lemma {:induction false} TrailingSpace(u: Unicode, text: Text)
    requires u.Valid() && text != [] && IsSpace(u, text[|text| - 1])
    ensures UnitsOf(u, text) == UnitsOf(u, text[..|text| - 1])
  {
    var last := |text| - 1;
    assert UnitsOf(u, []) == [];
    UnitsAcrossASpace(u, text[..last], text[last], []);
    assert text == text[..last] + [text[last]] + [];
  }

  lemma {:induction false} TrimmingKeepsUnits(u: Unicode, text: Text)
    requires u.Valid()
    ensures UnitsOf(u, Trimmed(u, text)) == UnitsOf(u, text)
    decreases |text|
  {
    if text != [] && IsSpace(u, text[0]) {
      TrimmingKeepsUnits(u, text[1..]);
      LeadingSpace(u, text);
    } else if text != [] && IsSpace(u, text[|text| - 1]) {
      var last := |text| - 1;
      TrimmingKeepsUnits(u, text[..last]);
      TrailingSpace(u, text);
    }
  }

  lemma {:induction false} SimplifyingKeepsUnits(u: Unicode, text: Text)
    requires u.Valid()
    ensures UnitsOf(u, Simplified(u, text)) == UnitsOf(u, text)
    decreases |text|
  {
    var inner := Trimmed(u, text);
    TrimmedIsShorter(u, text);
    TrimmingKeepsUnits(u, text);
    var i := FirstSpace(u, inner);
    if i < |inner| {
      SimplifyingKeepsUnits(u, inner[i + 1..]);
      OneSpaceForAnother(u, inner, i, Simplified(u, inner[i + 1..]));
    }
  }

  lemma {:induction false} OneSpaceForAnother(u: Unicode, text: Text, i: nat, tail: Text)
    requires u.Valid() && i < |text| && IsSpace(u, text[i])
    requires UnitsOf(u, tail) == UnitsOf(u, text[i + 1..])
    ensures UnitsOf(u, text[..i] + [BLANK] + tail) == UnitsOf(u, text)
  {
    UnitsAcrossASpace(u, text[..i], BLANK, tail);
    UnitsAcrossASpace(u, text[..i], text[i], text[i + 1..]);
    assert text == text[..i] + [text[i]] + text[i + 1..];
  }

  lemma {:induction false} JoiningOneMore(u: Unicode, texts: seq<Text>, text: Text)
    requires u.Valid()
    ensures UnitsOf(u, Joined(texts + [text])) == UnitsOf(u, Joined(texts)) + UnitsOf(u, text)
  {
    var more := texts + [text];
    if texts == [] {
      assert UnitsOf(u, Joined([])) == [];
    } else {
      assert more[..|texts|] == texts;
      UnitsAcrossASpace(u, Joined(texts), BLANK, text);
    }
  }

  // The units still to be placed: those of the texts set aside and those of the segments left.
  function Pending(u: Unicode, preserved: seq<Text>, segments: seq<TranscriptSegment>): seq<Text> {
    UnitsOf(u, Joined(preserved)) + AllUnits(u, segments)
  }

  lemma {:induction false} NothingAside(u: Unicode, segments: seq<TranscriptSegment>)
    ensures Pending(u, [], segments) == AllUnits(u, segments)
  {
    assert UnitsOf(u, Joined([])) == [];
  }

  lemma {:induction false} SettingOneAside(u: Unicode, preserved: seq<Text>, segments: seq<TranscriptSegment>)
    requires u.Valid() && segments != []
    ensures
      var text := Trimmed(u, segments[0].originalText);
      Pending(u, if text == [] then preserved else preserved + [text], segments[1..]) == Pending(u, preserved, segments)
  {
    var text := Trimmed(u, segments[0].originalText);
    var first, rest := UnitsOf(u, segments[0].originalText), AllUnits(u, segments[1..]);
    TrimmingKeepsUnits(u, segments[0].originalText);
    Regrouped(UnitsOf(u, Joined(preserved)), first, rest);
    if text == [] {
      assert first == [];
    } else {
      JoiningOneMore(u, preserved, text);
    }
  }

  lemma {:induction false} UnitsWithNewFirst(u: Unicode, segments: seq<TranscriptSegment>, first: TranscriptSegment)
    requires segments != []
    ensures AllUnits(u, segments[0 := first]) == UnitsOf(u, first.originalText) + AllUnits(u, segments[1..])
  {
    assert segments[0 := first][1..] == segments[1..];
  }

  lemma {:induction false} PrependingText(u: Unicode, segments: seq<TranscriptSegment>, preserved: Text)
    requires u.Valid() && segments != []
    ensures
      var text := Simplified(u, preserved + [BLANK] + segments[0].originalText);
      AllUnits(u, segments[0 := segments[0].(originalText := text)]) == UnitsOf(u, preserved) + AllUnits(u, segments)
  {
    var text := Simplified(u, preserved + [BLANK] + segments[0].originalText);
    SimplifyingKeepsUnits(u, preserved + [BLANK] + segments[0].originalText);
    UnitsAcrossASpace(u, preserved, BLANK, segments[0].originalText);
    UnitsWithNewFirst(u, segments, segments[0].(originalText := text));
    Prepended(AllUnits(u, segments[0 := segments[0].(originalText := text)]), UnitsOf(u, text), UnitsOf(u, preserved),
              UnitsOf(u, segments[0].originalText), AllUnits(u, segments[1..]), AllUnits(u, segments));
  }

  lemma {:induction false} Prepended<T>(after: seq<T>, first: seq<T>, preserved: seq<T>, original: seq<T>,
                                        rest: seq<T>, before: seq<T>)
    requires after == first + rest && first == preserved + original && before == original + rest
    ensures after == preserved + before
  {
  }

  // ---- Times.

  predicate Follows(segments: seq<TranscriptSegment>, i: nat)
    requires i < |segments|
  {
    segments[i].startMs < segments[i].endMs && (i > 0 ==> segments[i - 1].endMs <= segments[i].startMs)
  }

  // Ordered, disjoint and non-empty in time.
  predicate Ordered(segments: seq<TranscriptSegment>) {
    forall i {:trigger Follows(segments, i)} :: 0 <= i < |segments| ==> Follows(segments, i)
  }

  predicate StartsAtOrAfter(segments: seq<TranscriptSegment>, t: int) {
    forall i :: 0 <= i < |segments| ==> t <= segments[i].startMs
  }

  lemma {:induction false} OrderedTail(segments: seq<TranscriptSegment>)
    requires Ordered(segments) && segments != []
    ensures Ordered(segments[1..])
  {
    forall i | 0 <= i < |segments| - 1 ensures Follows(segments[1..], i) {
      assert Follows(segments, i + 1);
    }
  }

  lemma {:induction false} LaterStartsLater(segments: seq<TranscriptSegment>, i: nat)
    requires Ordered(segments) && 0 < i < |segments|
    ensures segments[0].endMs <= segments[i].startMs
  {
    assert Follows(segments, i);
    if i > 1 {
      assert Follows(segments, i - 1);
      LaterStartsLater(segments, i - 1);
    }
  }

  // Giving the first segment a text, an end and a later start keeps the order.
  lemma {:induction false} ReplacingTheFirst(segments: seq<TranscriptSegment>, first: TranscriptSegment)
    requires Ordered(segments) && segments != []
    requires first.startMs < first.endMs && first.endMs == segments[0].endMs
    ensures Ordered(segments[0 := first])
    ensures StartsAtOrAfter(segments[0 := first], first.startMs)
  {
    var replaced := segments[0 := first];
    forall i | 0 <= i < |replaced| ensures Follows(replaced, i) && first.startMs <= replaced[i].startMs {
      assert Follows(segments, i);
      if i > 0 {
        LaterStartsLater(segments, i);
      }
    }
  }

  // How many of the first segments end by t.
  function Past(segments: seq<TranscriptSegment>, t: int): (n: nat)
    ensures n <= |segments|
  {
    if segments == [] || segments[0].endMs > t then 0 else 1 + Past(segments[1..], t)
  }

  // The same segments but for the text of the first.
  predicate SameButText(a: seq<TranscriptSegment>, b: seq<TranscriptSegment>) {
    |a| == |b| && (a != [] ==> a[1..] == b[1..] && a[0] == b[0].(originalText := a[0].originalText))
  }

  // What stitching does to the segments themselves: those that end by t go, the first of the rest starts no earlier
  // than t, and nothing else but its text changes. Texts without a segment left get one from t to the chunk's end.
  predicate Retimed(before: seq<TranscriptSegment>, after: seq<TranscriptSegment>, t: int, chunkEnd: int) {
    var left := before[Past(before, t)..];
    if left == [] then
      after == [] || (|after| == 1 && after[0].startMs == t && after[0].endMs == Max(t + 1, chunkEnd) && after[0].editedText == [])
    else
      SameButText(after, left[0 := left[0].(startMs := Max(left[0].startMs, t))])
  }

  // The first segment has another text, or is gone if it ends by t.
  predicate Dropped(before: seq<TranscriptSegment>, after: seq<TranscriptSegment>, t: int) {
    SameButText(after, before) || (before != [] && before[0].endMs <= t && after == before[1..])
  }

  lemma {:induction false} LeftAfterDropping(before: seq<TranscriptSegment>, after: seq<TranscriptSegment>, t: int)
    requires Dropped(before, after, t)
    ensures SameButText(after[Past(after, t)..], before[Past(before, t)..])
  {
    if SameButText(after, before) && before != [] && before[0].endMs <= t {
      assert after[Past(after, t)..] == after[1..][Past(after[1..], t)..];
    }
    if before != [] && before[0].endMs <= t {
      assert before[Past(before, t)..] == before[1..][Past(before[1..], t)..];
    }
  }

  class ChunkSegments {
    var segments: seq<TranscriptSegment>

    constructor (segments: seq<TranscriptSegment>)
      ensures this.segments == segments
    {
      this.segments := segments;
    }

    // previous is the last segment of the chunk before, chunkEnd the end of this one; kept is what remains
    // of the first segment's text once the longest overlap k has been removed.
    method ReconcileOverlap(u: Unicode, previous: TranscriptSegment, chunkEnd: int)
      returns (ghost k: nat, ghost kept: DeduplicationResult)
      requires u.Valid()
      modifies this
      ensures old(segments) == [] ==> segments == []
      ensures old(segments) != [] ==>
        && Deduplicated(u, old(segments)[0].originalText, k, kept)
        && (previous.DisplayText() != [] && old(segments)[0].originalText != [] ==>
              LongestOverlap(UnitsOf(u, previous.DisplayText()), UnitsOf(u, old(segments)[0].originalText), k))
        && (previous.DisplayText() == [] || old(segments)[0].originalText == [] ==> k == 0)
        && AllUnits(u, segments) == UnitsOf(u, kept.text) + AllUnits(u, old(segments)[1..])
      ensures Ordered(old(segments)) ==> Ordered(segments) && StartsAtOrAfter(segments, previous.endMs)
      ensures Retimed(old(segments), segments, previous.endMs, chunkEnd)
    {
      k, kept := 0, DeduplicationResult([], 0, false);
      if segments == [] {
        return;
      }
      ghost var ordered := Ordered(segments);
      var deduplicated := Deduplicate(u, previous.DisplayText(), segments[0].originalText, true);
      k, kept := deduplicated.Overlap(), deduplicated;
      ghost var wanted := UnitsOf(u, kept.text) + AllUnits(u, segments[1..]);
      DropDuplicate(u, previous, deduplicated);
      ghost var dropped := segments;
      var preserved := SetAsidePastSegments(u, previous);
      LeftAfterDropping(old(segments), dropped, previous.endMs);
      if preserved != [] {
        RestorePreserved(u, previous, chunkEnd, Joined(preserved));
      }
      MoveFirstPast(u, previous);
    }

    // The first block: the first segment takes the kept text, or goes if nothing of it is left.
    method DropDuplicate(u: Unicode, previous: TranscriptSegment, deduplicated: DeduplicationResult)
      requires u.Valid() && segments != []
      requires deduplicated.matchedUnits == 0 ==> deduplicated.text == segments[0].originalText
      modifies this
      ensures AllUnits(u, segments) == UnitsOf(u, deduplicated.text) + AllUnits(u, old(segments)[1..])
      ensures Ordered(old(segments)) ==> Ordered(segments)
      ensures Dropped(old(segments), segments, previous.endMs)
    {
      if deduplicated.matchedUnits > 0 {
        ghost var before := segments;
        var first := segments[0].(originalText := deduplicated.text);
        if Ordered(segments) {
          assert Follows(segments, 0);
          ReplacingTheFirst(segments, first);
        }
        segments := segments[0 := first];
        assert segments[1..] == before[1..];
        if segments[0].originalText == [] && segments[0].endMs <= previous.endMs {
          assert UnitsOf(u, []) == [];
          if Ordered(segments) {
            OrderedTail(segments);
          }
          segments := segments[1..];
        }
      }
    }

    // The loop: segments that end by previous.endMs are taken out, their texts set aside.
    method SetAsidePastSegments(u: Unicode, previous: TranscriptSegment) returns (preserved: seq<Text>)
      requires u.Valid()
      modifies this
      ensures Pending(u, preserved, segments) == AllUnits(u, old(segments))
      ensures preserved == [] ==> AllUnits(u, segments) == AllUnits(u, old(segments))
      ensures segments != [] ==> segments[0].endMs > previous.endMs
      ensures Ordered(old(segments)) ==> Ordered(segments)
      ensures segments == old(segments)[Past(old(segments), previous.endMs)..]
    {
      preserved := [];
      ghost var before := segments;
      NothingAside(u, before);
      while segments != [] && segments[0].endMs <= previous.endMs
        invariant Pending(u, preserved, segments) == AllUnits(u, before)
        invariant |segments| <= |before| && segments == before[|before| - |segments|..]
        invariant |before| - |segments| + Past(segments, previous.endMs) == Past(before, previous.endMs)
        invariant Ordered(before) ==> Ordered(segments)
        decreases |segments|
      {
        var text := Trimmed(u, segments[0].originalText);
        SettingOneAside(u, preserved, segments);
        if Ordered(segments) {
          OrderedTail(segments);
        }
        if text != [] {
          preserved := preserved + [text];
        }
        segments := segments[1..];
      }
      NothingAside(u, segments);
    }

    // The texts set aside go in front of the first remaining segment, or into a segment of their own.
    method RestorePreserved(u: Unicode, previous: TranscriptSegment, chunkEnd: int, preserved: Text)
      requires u.Valid()
      requires segments != [] ==> segments[0].endMs > previous.endMs
      modifies this
      ensures AllUnits(u, segments) == UnitsOf(u, preserved) + AllUnits(u, old(segments))
      ensures segments != [] && segments[0].endMs > previous.endMs
      ensures Ordered(old(segments)) ==> Ordered(segments)
      ensures if old(segments) != [] then SameButText(segments, old(segments))
              else segments == [TranscriptSegment(previous.endMs, Max(previous.endMs + 1, chunkEnd), preserved, [])]
    {
      if segments == [] {
        segments := [TranscriptSegment(previous.endMs, Max(previous.endMs + 1, chunkEnd), preserved, [])];
        assert segments[1..] == [] && AllUnits(u, []) == [];
      } else {
        var text := Simplified(u, preserved + [BLANK] + segments[0].originalText);
        var first := segments[0].(originalText := text);
        PrependingText(u, segments, preserved);
        if Ordered(segments) {
          assert Follows(segments, 0);
          ReplacingTheFirst(segments, first);
        }
        segments := segments[0 := first];
      }
    }

    // The last block: what is left starts no earlier than the segment before it ended.
    method MoveFirstPast(u: Unicode, previous: TranscriptSegment)
      requires segments != [] ==> segments[0].endMs > previous.endMs
      modifies this
      ensures AllUnits(u, segments) == AllUnits(u, old(segments))
      ensures Ordered(old(segments)) ==> Ordered(segments) && StartsAtOrAfter(segments, previous.endMs)
      ensures segments == if old(segments) == [] then []
                          else old(segments)[0 := old(segments)[0].(startMs := Max(old(segments)[0].startMs, previous.endMs))]
    {
      if segments != [] {
        if Ordered(segments) {
          assert Follows(segments, 0);
          ReplacingTheFirst(segments, segments[0].(startMs := Max(segments[0].startMs, previous.endMs)));
        }
        if segments[0].startMs < previous.endMs {
          ghost var before := segments;
          var first := segments[0].(startMs := previous.endMs);
          if first.endMs <= first.startMs {
            first := first.(endMs := first.startMs + 1);
          }
          segments := segments[0 := first];
          assert segments[1..] == before[1..];
        } else {
          assert segments[0 := segments[0]] == segments;
        }
      }
    }
  }

  // Stitching removes exactly the deduplicated units, and nothing else, unless an underscore was skipped.
  lemma {:induction false} OnlyDuplicateUnitsAreRemoved(u: Unicode, before: seq<TranscriptSegment>,
                                                        after: seq<TranscriptSegment>, k: nat, kept: DeduplicationResult)
    requires u.Valid() && before != []
    requires Deduplicated(u, before[0].originalText, k, kept)
    requires AllUnits(u, after) == UnitsOf(u, kept.text) + AllUnits(u, before[1..])
    ensures k < 2 ==> AllUnits(u, after) == AllUnits(u, before)
    ensures k >= 2 ==>
      var text := before[0].originalText;
      var end := MatchedEnd(u, text, k);
      && k <= |AllUnits(u, before)|
      && (AllUnits(u, after) == AllUnits(u, before)[k..] <==> !HasUnderscore(text, end, CutFrom(u, text, end)))
  {
    if k >= 2 {
      KeptUnitsAreTheRest(u, before[0].originalText, k, kept);
      CancelTheRest(UnitsOf(u, kept.text), UnitsOf(u, before[0].originalText), AllUnits(u, before[1..]), k);
    }
  }

  lemma {:induction false} CancelTheRest(kept: seq<Text>, first: seq<Text>, rest: seq<Text>, k: nat)
    requires k <= |first|
    ensures kept + rest == (first + rest)[k..] <==> kept == first[k..]
  {
    assert (first + rest)[k..] == first[k..] + rest;
    if kept + rest == first[k..] + rest {
      assert |kept + rest| == |first[k..] + rest|;
      assert kept == (kept + rest)[..|kept|] == (first[k..] + rest)[..|kept|] == first[k..];
    }
  }
}
