/** Spoilers in `tlgr/core/text.py`: before parsing, `||` becomes one of two private-use sentinels; after
    parsing, the sentinels are taken out, every entity is moved, and the spoilers are emitted. Offsets are
    counted in UTF-16 code units (section 2.1 of RFC 2781). */
module Spoilers {
  import opened Basics

  /** A Unicode scalar value. */
  type CodePoint = c: int | 0 <= c < 0xD800 || 0xE000 <= c <= 0x10FFFF
  type Text = seq<CodePoint>

  const OPEN: CodePoint := 0xE000
  const CLOSE: CodePoint := 0xE001
  const BAR: CodePoint := 0x7C

  predicate IsMark(c: int) {
    c == OPEN || c == CLOSE
  }

  // ---- UTF-16 ---------------------------------------------------------------------------

  /** Code points above U+FFFF take a surrogate pair. */
  function Units(c: CodePoint): seq<int> {
    if c <= 0xFFFF then [c] else [0xD800 + (c - 0x10000) / 0x400, 0xDC00 + (c - 0x10000) % 0x400]
  }

  function Encode(text: Text): seq<int> {
    if text == [] then [] else Encode(text[..|text| - 1]) + Units(text[|text| - 1])
  }

  /** `utf16_len` */
  function Utf16Len(text: Text): nat {
    |Encode(text)|
  }

  /** The text without sentinels. */
  function Strip(text: Text): Text {
    if text == [] then []
    else Strip(text[..|text| - 1]) + if IsMark(text[|text| - 1]) then [] else [text[|text| - 1]]
  }

  /** Code units without those of sentinels. */
  function Kept(units: seq<int>): seq<int> {
    if units == [] then []
    else Kept(units[..|units| - 1]) + if IsMark(units[|units| - 1]) then [] else [units[|units| - 1]]
  }

  lemma {:induction false} KeptAppend(a: seq<int>, b: seq<int>)
    ensures Kept(a + b) == Kept(a) + Kept(b)
  {
    if b == [] {
      assert a + b == a;
    } else {
      assert (a + b)[..|a + b| - 1] == a + b[..|b| - 1];
      KeptAppend(a, b[..|b| - 1]);
    }
  }

  lemma {:induction false} EncodeAppend(a: Text, b: Text)
    ensures Encode(a + b) == Encode(a) + Encode(b)
  {
    if b == [] {
      assert a + b == a;
    } else {
      assert (a + b)[..|a + b| - 1] == a + b[..|b| - 1];
      EncodeAppend(a, b[..|b| - 1]);
    }
  }

  lemma {:induction false} StripAppend(a: Text, b: Text)
    ensures Strip(a + b) == Strip(a) + Strip(b)
  {
    if b == [] {
      assert a + b == a;
    } else {
      assert (a + b)[..|a + b| - 1] == a + b[..|b| - 1];
      StripAppend(a, b[..|b| - 1]);
    }
  }

  lemma KeptUnits(c: CodePoint)
    ensures Kept(Units(c)) == if IsMark(c) then [] else Units(c)
  {
    var u := Units(c);
    if |u| == 2 {
      assert u[..1] == [u[0]] && Kept(u[..1]) == [u[0]];
    } else {
      assert u[..0] == [];
    }
  }

  /** Stripping characters and stripping code units come to the same: a sentinel is one unit, and no
      surrogate is mistaken for one. */
  lemma {:induction false} EncodeStrip(text: Text)
    ensures Encode(Strip(text)) == Kept(Encode(text))
  {
    if text != [] {
      var front, last := text[..|text| - 1], text[|text| - 1];
      EncodeStrip(front);
      KeptAppend(Encode(front), Units(last));
      KeptUnits(last);
      EncodeAppend(Strip(front), if IsMark(last) then [] else [last]);
      assert Encode([last]) == Encode([]) + Units(last);
    }
  }

  // ---- moving offsets -------------------------------------------------------------------------

  /** How many sentinels start before the unit at `offset`. */
  function MarksBelow(text: Text, offset: int): nat {
    if text == [] then 0
    else
      var front := text[..|text| - 1];
      MarksBelow(front, offset) + if IsMark(text[|text| - 1]) && Utf16Len(front) < offset then 1 else 0
  }

  function Moved(text: Text, offset: int): int {
    offset - MarksBelow(text, offset)
  }

  lemma SomeUnitsKept(c: CodePoint, k: nat)
    requires 0 < k <= |Units(c)|
    ensures |Kept(Units(c)[..k])| == if IsMark(c) then 0 else k
  {
    var u := Units(c);
    if k == |u| {
      assert u[..k] == u;
      KeptUnits(c);
    } else {
      assert u[..k] == [u[0]] && !IsMark(u[0]);
      assert [u[0]][..0] == [];
    }
  }

  lemma LastMoved(front: Text, last: CodePoint, offset: nat)
    requires Utf16Len(front) < offset <= Utf16Len(front + [last])
    requires Moved(front, Utf16Len(front)) == |Kept(Encode(front))|
    ensures Moved(front + [last], offset) == |Kept(Encode(front + [last])[..offset])|
  {
    var text, n := front + [last], Utf16Len(front);
    assert text[..|text| - 1] == front;
    var rest := Units(last)[..offset - n];
    assert Encode(text)[..offset] == Encode(front) + rest;
    assert Kept(Encode(front) + rest) == Kept(Encode(front)) + Kept(rest) by { KeptAppend(Encode(front), rest); }
    assert MarksBelow(front, offset) == MarksBelow(front, n) by { BelowTheEnd(front, n, offset); }
    SomeUnitsKept(last, offset - n);
  }

  lemma {:induction false} MovedCountsKept(text: Text, offset: nat)
    requires offset <= Utf16Len(text)
    ensures Moved(text, offset) == |Kept(Encode(text)[..offset])|
  {
    if text != [] {
      var front, last := text[..|text| - 1], text[|text| - 1];
      if offset <= Utf16Len(front) {
        assert Encode(text)[..offset] == Encode(front)[..offset];
        MovedCountsKept(front, offset);
      } else {
        assert Moved(front, Utf16Len(front)) == |Kept(Encode(front))| by {
          MovedCountsKept(front, Utf16Len(front));
          assert Encode(front)[..Utf16Len(front)] == Encode(front);
        }
        assert text == front + [last];
        LastMoved(front, last, offset);
      }
    }
  }

  /** Beyond the last unit the count does not grow any more. */
  lemma {:induction false} BelowTheEnd(text: Text, a: int, b: int)
    requires Utf16Len(text) <= a && Utf16Len(text) <= b
    ensures MarksBelow(text, a) == MarksBelow(text, b)
  {
    if text != [] {
      BelowTheEnd(text[..|text| - 1], a, b);
    }
  }

  lemma Middle(a: seq<int>, b: seq<int>, c: seq<int>)
    ensures (a + b + c)[|a|..|a| + |b|] == b
  {
  }

  lemma KeptSlice(u: seq<int>, i: nat, j: nat)
    requires i <= j <= |u|
    ensures |Kept(u[..i])| <= |Kept(u[..j])| <= |Kept(u)|
    ensures Kept(u)[|Kept(u[..i])|..|Kept(u[..j])|] == Kept(u[i..j])
  {
    var a, b, c := u[..i], u[i..j], u[j..];
    assert u[..j] == a + b;
    assert u == a + b + c;
    KeptAppend(a, b);
    KeptAppend(a + b, c);
    Middle(Kept(a), Kept(b), Kept(c));
  }

  /** Every entity in range is preserved: in the stripped text, at its moved offset and length, are exactly the
      code units it covered, without the sentinels among them. */
  lemma EntityIsPreserved(text: Text, offset: nat, length: nat)
    requires offset + length <= Utf16Len(text)
    ensures 0 <= Moved(text, offset) <= Moved(text, offset + length) <= Utf16Len(Strip(text))
    ensures Encode(Strip(text))[Moved(text, offset)..Moved(text, offset + length)]
            == Kept(Encode(text)[offset..offset + length])
  {
    var end := offset + length;
    assert Moved(text, offset) == |Kept(Encode(text)[..offset])| by { MovedCountsKept(text, offset); }
    assert Moved(text, end) == |Kept(Encode(text)[..end])| by { MovedCountsKept(text, end); }
    assert Encode(Strip(text)) == Kept(Encode(text)) by { EncodeStrip(text); }
    SliceIsKept(Encode(text), Encode(Strip(text)), offset, end, Moved(text, offset), Moved(text, end));
  }

  lemma SliceIsKept(u: seq<int>, kept: seq<int>, a: nat, b: nat, from: int, to: int)
    requires a <= b <= |u| && kept == Kept(u) && from == |Kept(u[..a])| && to == |Kept(u[..b])|
    ensures 0 <= from <= to <= |kept| && kept[from..to] == Kept(u[a..b])
  {
    KeptSlice(u, a, b);
  }

  // ---- spoilers ----------------------------------------------------------------------------------

  /** Where a spoiler is open at the end of the text. */
  function OpenAt(text: Text): (at: Option<nat>)
    ensures at.Some? ==> at.value < |text|
  {
    if text == [] then None
    else
      var last := |text| - 1;
      if text[last] == OPEN then Some(last)
      else if text[last] == CLOSE then None
      else OpenAt(text[..last])
  }

  /** The index pairs (open, close) of all spoilers, in the order they close. */
  function Pairs(text: Text): seq<(nat, nat)> {
    if text == [] then []
    else
      var last := |text| - 1;
      Pairs(text[..last])
      + if text[last] == CLOSE && OpenAt(text[..last]).Some? then [(OpenAt(text[..last]).value, last)] else []
  }

  /** A spoiler opens at `i` and closes at `j`: nothing opens or closes between them. */
  ghost predicate IsPair(text: Text, i: int, j: int) {
    && 0 <= i < j < |text| && text[i] == OPEN && text[j] == CLOSE
    && forall k :: i < k < j ==> !IsMark(text[k])
  }

  lemma {:induction false} OpenAtIsLast(text: Text, i: nat)
    requires i < |text|
    ensures OpenAt(text) == Some(i) <==> text[i] == OPEN && forall k :: i < k < |text| ==> !IsMark(text[k])
  {
    var last := |text| - 1;
    if i < last && !IsMark(text[last]) {
      OpenAtIsLast(text[..last], i);
    }
  }

  /** The spoilers found are all there are, and nothing else. */
  lemma {:induction false} PairsAreExact(text: Text, i: nat, j: nat)
    ensures (i, j) in Pairs(text) <==> IsPair(text, i, j)
  {
    if text != [] {
      var last := |text| - 1;
      var front := text[..last];
      PairsAreExact(front, i, j);
      assert j < last ==> (IsPair(text, i, j) <==> IsPair(front, i, j));
      if i < last { OpenAtIsLast(front, i); }
    }
  }

  /** How many code units the first `n` characters have without the sentinels among them. */
  function KeptTo(text: Text, n: nat): nat
    requires n <= |text|
  {
    if n == 0 then 0 else KeptTo(text, n - 1) + if IsMark(text[n - 1]) then 0 else |Units(text[n - 1])|
  }

  lemma {:induction false} KeptToIs(text: Text, n: nat)
    requires n <= |text|
    ensures KeptTo(text, n) == Utf16Len(Strip(text[..n]))
  {
    if n > 0 {
      KeptToIs(text, n - 1);
      assert text[..n] == text[..n - 1] + [text[n - 1]] by { OneLonger(text, n); }
      OneMoreStripped(text[..n - 1], text[n - 1]);
    }
  }

  lemma OneLonger(text: Text, n: nat)
    requires 0 < n <= |text|
    ensures text[..n] == text[..n - 1] + [text[n - 1]]
  {
  }

  lemma OneMoreStripped(text: Text, c: CodePoint)
    ensures Utf16Len(Strip(text + [c])) == Utf16Len(Strip(text)) + if IsMark(c) then 0 else |Units(c)|
  {
    assert (text + [c])[..|text|] == text;
    if IsMark(c) { assert Strip(text) + [] == Strip(text); }
    else { assert (Strip(text) + [c])[..|Strip(text)|] == Strip(text); }
  }

  lemma {:induction false} KeptToStays(text: Text, more: Text, n: nat)
    requires n <= |text| && text <= more
    ensures KeptTo(more, n) == KeptTo(text, n)
  {
    if n > 0 { KeptToStays(text, more, n - 1); }
  }

  /** Where in the stripped text a spoiler is open. */
  function OpenOffset(text: Text): Option<nat> {
    if text == [] then None
    else
      var front, last := text[..|text| - 1], text[|text| - 1];
      if last == OPEN then Some(Utf16Len(Strip(front)))
      else if last == CLOSE then None
      else OpenOffset(front)
  }

  /** The spoilers as the loop finds them: offset and length in the stripped text. */
  function Spans(text: Text): seq<(nat, int)> {
    if text == [] then []
    else
      var front, last := text[..|text| - 1], text[|text| - 1];
      Spans(front)
      + if last == CLOSE && OpenOffset(front).Some?
        then [(OpenOffset(front).value, Utf16Len(Strip(front)) - OpenOffset(front).value)] else []
  }

  lemma {:induction false} StripOfUnmarked(text: Text)
    requires forall k :: 0 <= k < |text| ==> !IsMark(text[k])
    ensures Strip(text) == text
  {
    if text != [] {
      StripOfUnmarked(text[..|text| - 1]);
    }
  }

  lemma EncodedMiddle(text: Text, a: Text, b: Text, c: Text)
    requires text == a + b + c
    ensures Utf16Len(a) + Utf16Len(b) <= Utf16Len(text)
    ensures Encode(text)[Utf16Len(a)..Utf16Len(a) + Utf16Len(b)] == Encode(b)
  {
    var x, y, z := Encode(a), Encode(b), Encode(c);
    assert Encode(text) == x + y + z by {
      EncodeAppend(a + b, c);
      EncodeAppend(a, b);
    }
    Middle(x, y, z);
  }

  lemma OneChar(c: CodePoint)
    ensures Encode([c]) == Units(c) && Strip([c]) == if IsMark(c) then [] else [c]
  {
    assert [c][..0] == [];
  }

  lemma StripAround(before: Text, inside: Text, rest: Text)
    requires forall k :: 0 <= k < |inside| ==> !IsMark(inside[k])
    ensures Strip(before + [OPEN] + inside + rest) == Strip(before) + inside + Strip(rest)
  {
    var head := before + [OPEN];
    var both := head + inside;
    assert Strip(head) == Strip(before) by { StripAppend(before, [OPEN]); OneChar(OPEN); }
    assert Strip(both) == Strip(head) + inside by { StripAppend(head, inside); StripOfUnmarked(inside); }
    assert Strip(both + rest) == Strip(both) + Strip(rest) by { StripAppend(both, rest); }
  }

  /** The spoiler of a pair starts where the text before it ends, and is as long as what is kept up to its close. */
  ghost predicate SpanOf(text: Text, p: (nat, nat), span: (nat, int)) {
    p.0 < p.1 <= |text| && span == (KeptTo(text, p.0), KeptTo(text, p.1) - KeptTo(text, p.0))
  }

  lemma {:induction false} OpenOffsetIs(text: Text)
    ensures OpenOffset(text) == if OpenAt(text).Some? then Some(KeptTo(text, OpenAt(text).value)) else None
  {
    if text != [] {
      var front, last := text[..|text| - 1], text[|text| - 1];
      if last == OPEN {
        assert OpenOffset(text) == Some(Utf16Len(Strip(front)));
        KeptToIs(text, |text| - 1);
      } else if last != CLOSE {
        OpenOffsetIs(front);
        if OpenAt(text).Some? { KeptToStays(front, text, OpenAt(text).value); }
      }
    }
  }

  lemma LongerText(front: Text, last: CodePoint, p: (nat, nat), span: (nat, int))
    requires SpanOf(front, p, span)
    ensures SpanOf(front + [last], p, span)
  {
    KeptToStays(front, front + [last], p.0);
    KeptToStays(front, front + [last], p.1);
  }

  /** The spoilers so far belong to the pairs so far. */
  ghost predicate Matched(text: Text, pairs: seq<(nat, nat)>, spans: seq<(nat, int)>) {
    |spans| == |pairs| && forall k :: 0 <= k < |pairs| ==> SpanOf(text, pairs[k], spans[k])
  }

  lemma StaysMatched(front: Text, last: CodePoint, pairs: seq<(nat, nat)>, spans: seq<(nat, int)>)
    requires Matched(front, pairs, spans)
    ensures Matched(front + [last], pairs, spans)
  {
    forall k | 0 <= k < |pairs| ensures SpanOf(front + [last], pairs[k], spans[k]) {
      LongerText(front, last, pairs[k], spans[k]);
    }
  }

  lemma OneMoreOpen(text: Text, c: CodePoint)
    ensures OpenOffset(text + [c]) == if c == OPEN then Some(Utf16Len(Strip(text))) else if c == CLOSE then None
                                      else OpenOffset(text)
  {
    var more := text + [c];
    assert more[..|more| - 1] == text && more[|more| - 1] == c;
  }

  lemma OneMoreSpan(text: Text, c: CodePoint)
    ensures Spans(text + [c]) == Spans(text) + if c == CLOSE && OpenOffset(text).Some?
      then [(OpenOffset(text).value, Utf16Len(Strip(text)) - OpenOffset(text).value)] else []
  {
    var more := text + [c];
    assert more[..|more| - 1] == text && more[|more| - 1] == c;
    assert Spans(more) == Spans(text) + if c == CLOSE && OpenOffset(text).Some? then
      [(OpenOffset(text).value, Utf16Len(Strip(text)) - OpenOffset(text).value)] else [] by {
      if !(c == CLOSE && OpenOffset(text).Some?) { assert Spans(text) + [] == Spans(text); }
    }
  }

  lemma OneMorePair(text: Text, c: CodePoint)
    ensures Pairs(text + [c]) == Pairs(text) + if c == CLOSE && OpenAt(text).Some?
      then [(OpenAt(text).value, |text|)] else []
  {
    assert (text + [c])[..|text|] == text;
  }

  /** The spoilers found belong to the pairs, one to one and in their order. */
  lemma {:induction false} SpansAreOfPairs(text: Text)
    ensures |Spans(text)| == |Pairs(text)|
    ensures forall k :: 0 <= k < |Pairs(text)| ==> SpanOf(text, Pairs(text)[k], Spans(text)[k])
  {
    if text != [] {
      var front, last := text[..|text| - 1], text[|text| - 1];
      SpansAreOfPairs(front);
      assert text == front + [last];
      assert Matched(text, Pairs(front), Spans(front)) by { StaysMatched(front, last, Pairs(front), Spans(front)); }
      OneMorePair(front, last);
      OneMoreSpan(front, last);
      OpenOffsetIs(front);
      if last == CLOSE && OpenAt(front).Some? {
        KeptInAll(front);
        LastMatches(front, OpenAt(front).value, Pairs(front), Spans(front));
      }
    }
  }

  lemma KeptInAll(text: Text)
    ensures KeptTo(text, |text|) == Utf16Len(Strip(text))
  {
    KeptToIs(text, |text|);
    assert text[..|text|] == text;
  }

  /** What a closing character adds to the pairs and to the spoilers fits. */
  lemma LastMatches(front: Text, i: nat, pairs: seq<(nat, nat)>, spans: seq<(nat, int)>)
    requires i < |front| && Matched(front + [CLOSE], pairs, spans)
    ensures Matched(front + [CLOSE], pairs + [(i, |front|)],
                    spans + [(KeptTo(front, i), KeptTo(front, |front|) - KeptTo(front, i))])
  {
    KeptToStays(front, front + [CLOSE], i);
    KeptToStays(front, front + [CLOSE], |front|);
  }

  lemma StripAtPair(text: Text, i: nat, j: nat)
    requires IsPair(text, i, j)
    ensures Strip(text[..j]) == Strip(text[..i]) + text[i + 1..j]
    ensures Strip(text) == Strip(text[..i]) + text[i + 1..j] + Strip(text[j..])
  {
    var before, inside, rest := text[..i], text[i + 1..j], text[j..];
    assert text == before + [OPEN] + inside + rest;
    StripAround(before, inside, rest);
    assert text[..j] == before + [OPEN] + inside + [];
    StripAround(before, inside, []);
    assert Strip(before) + inside + Strip([]) == Strip(before) + inside;
  }

  lemma SpanIs(text: Text, i: nat, j: nat, span: (nat, int))
    requires IsPair(text, i, j) && SpanOf(text, (i, j), span)
    ensures span.0 == Utf16Len(Strip(text[..i])) && span.1 == Utf16Len(text[i + 1..j])
  {
    KeptToIs(text, i);
    KeptToIs(text, j);
    assert Utf16Len(Strip(text[..j])) == Utf16Len(Strip(text[..i])) + Utf16Len(text[i + 1..j]) by {
      StripAtPair(text, i, j);
      EncodeAppend(Strip(text[..i]), text[i + 1..j]);
    }
  }

  /** Each spoiler covers exactly the text between its open and its close. */
  lemma SpoilerCoversItsText(text: Text, i: nat, j: nat, span: (nat, int))
    requires IsPair(text, i, j) && SpanOf(text, (i, j), span)
    ensures 0 <= span.0 <= span.0 + span.1 <= Utf16Len(Strip(text))
    ensures Encode(Strip(text))[span.0..span.0 + span.1] == Encode(text[i + 1..j])
  {
    var kept, before, inside, rest := Strip(text), Strip(text[..i]), text[i + 1..j], Strip(text[j..]);
    assert kept == before + inside + rest by { StripAtPair(text, i, j); }
    assert span.0 == Utf16Len(before) && span.1 == Utf16Len(inside) by { SpanIs(text, i, j, span); }
    EncodedMiddle(kept, before, inside, rest);
  }

  // ---- the loop --------------------------------------------------------------------------------------

  datatype Details = Details(url: string, userId: int, language: string, documentId: int, collapsed: bool)

  datatype Entity = Entity(kind: string, offset: int, length: int, details: Details)

  const NO_DETAILS := Details("", 0, "", 0, false)

  /** What the loop remembers of each sentinel: its unit offset, and how many were removed up to it. */
  function Shifts(text: Text): seq<(nat, nat)> {
    if text == [] then []
    else
      var front := text[..|text| - 1];
      Shifts(front) + if IsMark(text[|text| - 1]) then [(Utf16Len(front), |Shifts(front)| + 1)] else []
  }

  lemma {:induction false} ShiftsCount(text: Text, offset: int)
    ensures |Shifts(text)| == Utf16Len(text) - Utf16Len(Strip(text))
    ensures Utf16Len(text) <= offset ==> MarksBelow(text, offset) == |Shifts(text)|
  {
    if text != [] {
      var front, last := text[..|text| - 1], text[|text| - 1];
      ShiftsCount(front, offset);
      EncodeAppend(Strip(front), if IsMark(last) then [] else [last]);
      assert Encode([last]) == Encode([]) + Units(last);
    }
  }

  /** `shift`: the count at the last sentinel before the offset. */
  method Shift(shifts: seq<(nat, nat)>, offset: int, ghost text: Text) returns (moved: int)
    requires shifts == Shifts(text)
    ensures moved == Moved(text, offset)
  {
    var total := 0;
    var k := 0;
    while k < |shifts|
      invariant k <= |shifts|
      invariant total == LastBelow(shifts[..k], offset)
    {
      assert shifts[..k + 1][..k] == shifts[..k];
      if shifts[k].0 < offset {
        total := shifts[k].1;
      }
      k := k + 1;
    }
    assert shifts[..k] == shifts;
    LastBelowCounts(text, offset);
    moved := offset - total;
  }

  function LastBelow(shifts: seq<(nat, nat)>, offset: int): nat {
    if shifts == [] then 0
    else if shifts[|shifts| - 1].0 < offset then shifts[|shifts| - 1].1
    else LastBelow(shifts[..|shifts| - 1], offset)
  }

  lemma {:induction false} LastBelowCounts(text: Text, offset: int)
    ensures LastBelow(Shifts(text), offset) == MarksBelow(text, offset)
  {
    if text != [] {
      var front := text[..|text| - 1];
      LastBelowCounts(front, offset);
      ShiftsCount(front, offset);
      var all := Shifts(text);
      if IsMark(text[|text| - 1]) {
        assert all == Shifts(front) + [(Utf16Len(front), |Shifts(front)| + 1)];
        assert all[..|all| - 1] == Shifts(front) && all[|all| - 1] == (Utf16Len(front), |Shifts(front)| + 1);
      } else {
        assert all == Shifts(front);
      }
    }
  }

  function MovedEntity(text: Text, e: Entity): Entity {
    e.(offset := Moved(text, e.offset), length := Moved(text, e.offset + e.length) - Moved(text, e.offset))
  }

  function MovedEntities(text: Text, entities: seq<Entity>): seq<Entity> {
    if entities == [] then []
    else MovedEntities(text, entities[..|entities| - 1]) + [MovedEntity(text, entities[|entities| - 1])]
  }

  /** The spoilers of the text that are not empty. */
  function SpoilerEntities(spans: seq<(nat, int)>): seq<Entity> {
    if spans == [] then []
    else
      var last := spans[|spans| - 1];
      SpoilerEntities(spans[..|spans| - 1])
      + if last.1 > 0 then [Entity("spoiler", last.0, last.1, NO_DETAILS)] else []
  }

  /** Every entity keeps its place in the list and all else, at its moved offset and length. */
  lemma {:induction false} EachIsMoved(text: Text, entities: seq<Entity>)
    ensures var moved := MovedEntities(text, entities);
      |moved| == |entities| && forall k :: 0 <= k < |entities| ==>
        && moved[k].kind == entities[k].kind && moved[k].details == entities[k].details
        && moved[k].offset == Moved(text, entities[k].offset)
        && moved[k].offset + moved[k].length == Moved(text, entities[k].offset + entities[k].length)
  {
    if entities != [] { EachIsMoved(text, entities[..|entities| - 1]); }
  }

  predicate IsSpoiler(e: Entity, span: (nat, int)) {
    span.1 > 0 && e == Entity("spoiler", span.0, span.1, NO_DETAILS)
  }

  lemma {:induction false} SpoilersOfSpans(spans: seq<(nat, int)>, e: Entity)
    ensures e in SpoilerEntities(spans) <==> exists k :: 0 <= k < |spans| && IsSpoiler(e, spans[k])
  {
    if spans != [] {
      var front, last := spans[..|spans| - 1], spans[|spans| - 1];
      SpoilersOfSpans(front, e);
      if exists k :: 0 <= k < |front| && IsSpoiler(e, front[k]) {
        var k :| 0 <= k < |front| && IsSpoiler(e, front[k]);
        assert IsSpoiler(e, spans[k]);
      }
      if exists k :: 0 <= k < |spans| && IsSpoiler(e, spans[k]) {
        var k :| 0 <= k < |spans| && IsSpoiler(e, spans[k]);
        if k < |front| { assert IsSpoiler(e, front[k]); }
      }
    }
  }

  /** The entity of the pair that opens at `i` and closes at `j`. */
  predicate SpoilsPair(text: Text, e: Entity, i: nat, j: nat) {
    && i + 1 < j <= |text|
    && e == Entity("spoiler", Utf16Len(Strip(text[..i])), Utf16Len(text[i + 1..j]), NO_DETAILS)
  }

  lemma PairIsSpoiled(text: Text, e: Entity, k: nat)
    requires k < |Pairs(text)| == |Spans(text)| && SpanOf(text, Pairs(text)[k], Spans(text)[k])
    ensures IsSpoiler(e, Spans(text)[k]) <==> SpoilsPair(text, e, Pairs(text)[k].0, Pairs(text)[k].1)
  {
    var i, j := Pairs(text)[k].0, Pairs(text)[k].1;
    assert IsPair(text, i, j) by {
      assert (i, j) in Pairs(text);
      PairsAreExact(text, i, j);
    }
    SpanIs(text, i, j, Spans(text)[k]);
    if i + 1 < j { NotEmpty(text[i + 1..j]); } else { assert text[i + 1..j] == []; }
  }

  lemma NotEmpty(text: Text)
    requires text != []
    ensures Utf16Len(text) > 0
  {
  }

  /** The spoilers emitted are those of the pairs that have something between them, and no others. */
  lemma SpoilersAreEmitted(text: Text, e: Entity)
    ensures e in SpoilerEntities(Spans(text)) <==> exists i, j :: IsPair(text, i, j) && SpoilsPair(text, e, i, j)
  {
    SpansAreOfPairs(text);
    SpoilersOfSpans(Spans(text), e);
    if exists k :: 0 <= k < |Spans(text)| && IsSpoiler(e, Spans(text)[k]) {
      var k :| 0 <= k < |Spans(text)| && IsSpoiler(e, Spans(text)[k]);
      PairIsSpoiled(text, e, k);
      assert Pairs(text)[k] == (Pairs(text)[k].0, Pairs(text)[k].1) && Pairs(text)[k] in Pairs(text);
      PairsAreExact(text, Pairs(text)[k].0, Pairs(text)[k].1);
    }
    if exists i, j :: IsPair(text, i, j) && SpoilsPair(text, e, i, j) {
      var i, j :| IsPair(text, i, j) && SpoilsPair(text, e, i, j);
      PairsAreExact(text, i, j);
      var k :| 0 <= k < |Pairs(text)| && Pairs(text)[k] == (i, j);
      PairIsSpoiled(text, e, k);
      assert IsSpoiler(e, Spans(text)[k]);
    }
  }

  predicate Before(a: Entity, b: Entity) {
    a.offset < b.offset || (a.offset == b.offset && a.length <= b.length)
  }

  /** One more entity in a sorted list, behind those it is equal to. */
  function Placed(sorted: seq<Entity>, e: Entity): seq<Entity> {
    if sorted == [] || Before(sorted[|sorted| - 1], e) then sorted + [e]
    else Placed(sorted[..|sorted| - 1], e) + [sorted[|sorted| - 1]]
  }

  function SortedEntities(entities: seq<Entity>): seq<Entity> {
    if entities == [] then []
    else Placed(SortedEntities(entities[..|entities| - 1]), entities[|entities| - 1])
  }

  ghost predicate InOrder(entities: seq<Entity>) {
    forall i, j :: 0 <= i < j < |entities| ==> Before(entities[i], entities[j])
  }

  lemma {:induction false} PlacedKeeps(sorted: seq<Entity>, e: Entity)
    requires InOrder(sorted)
    ensures InOrder(Placed(sorted, e)) && multiset(Placed(sorted, e)) == multiset(sorted) + multiset{e}
  {
    if sorted == [] || Before(sorted[|sorted| - 1], e) {
      assert InOrder(sorted + [e]);
    } else {
      var front, last := sorted[..|sorted| - 1], sorted[|sorted| - 1];
      assert sorted == front + [last];
      PlacedKeeps(front, e);
      forall x | x in Placed(front, e) ensures Before(x, last) {
        assert x in multiset(front) + multiset{e};
      }
    }
  }

  /** Sorting loses no entity and invents none. */
  lemma {:induction false} SortingKeeps(entities: seq<Entity>)
    ensures InOrder(SortedEntities(entities)) && multiset(SortedEntities(entities)) == multiset(entities)
  {
    if entities != [] {
      SortingKeeps(entities[..|entities| - 1]);
      PlacedKeeps(SortedEntities(entities[..|entities| - 1]), entities[|entities| - 1]);
      assert entities == entities[..|entities| - 1] + [entities[|entities| - 1]];
    }
  }

  predicate HasMark(text: Text) {
    exists i :: 0 <= i < |text| && IsMark(text[i])
  }

  /** What the loop has when it has read the text so far. */
  datatype Progress = Progress(out: Text, position: nat, removed: nat, shifts: seq<(nat, nat)>,
                               open: Option<nat>, spoilers: seq<(nat, int)>)

  ghost function After(text: Text): Progress {
    Progress(Strip(text), Utf16Len(text), |Shifts(text)|, Shifts(text), OpenOffset(text), Spans(text))
  }

  lemma OneMoreKept(text: Text, c: CodePoint)
    ensures Strip(text + [c]) == Strip(text) + if IsMark(c) then [] else [c]
    ensures Utf16Len(text + [c]) == Utf16Len(text) + Utf16Len([c])
  {
    StripAppend(text, [c]);
    EncodeAppend(text, [c]);
    OneChar(c);
  }

  lemma OneMoreShift(text: Text, c: CodePoint)
    ensures Shifts(text + [c]) == Shifts(text) + if IsMark(c) then [(Utf16Len(text), |Shifts(text)| + 1)] else []
  {
    assert (text + [c])[..|text|] == text;
  }

  /** How many sentinels were removed is the difference in length. */
  lemma RemovedIs(text: Text)
    ensures |Shifts(text)| == Utf16Len(text) - Utf16Len(Strip(text))
  {
    ShiftsCount(text, 0);
  }

  /** What one character does to the text and to the shifts. */
  lemma TextOneMore(p: Progress, text: Text, c: CodePoint)
    requires p == After(text)
    ensures var t := After(text + [c]);
      && t.position == p.position + Utf16Len([c])
      && t.out == p.out + (if IsMark(c) then [] else [c])
      && t.removed == p.removed + (if IsMark(c) then 1 else 0)
      && t.shifts == p.shifts + if IsMark(c) then [(p.position, p.removed + 1)] else []
  {
    OneMoreKept(text, c);
    OneMoreShift(text, c);
  }

  /** And what it does to the spoilers. */
  lemma SpoilersOneMore(p: Progress, text: Text, c: CodePoint)
    requires p == After(text)
    ensures var t, at := After(text + [c]), p.position - p.removed;
      && at >= 0
      && t.open == (if c == OPEN then Some(at) else if c == CLOSE then None else p.open)
      && t.spoilers == p.spoilers + if c == CLOSE && p.open.Some? then [(p.open.value, at - p.open.value)] else []
  {
    RemovedIs(text);
    OneMoreOpen(text, c);
    OneMoreSpan(text, c);
  }

  /** One character of the loop. */
  method Read(next: CodePoint, p: Progress, ghost text: Text) returns (r: Progress)
    requires p == After(text)
    ensures r == After(text + [next])
  {
    TextOneMore(p, text, next);
    SpoilersOneMore(p, text, next);
    var after := p.position + Utf16Len([next]);
    if !IsMark(next) {
      return Progress(p.out + [next], after, p.removed, p.shifts, p.open, p.spoilers);
    }
    var removed := p.removed + 1;
    var shifts := p.shifts + [(p.position, removed)];
    var at := p.position - removed + 1;
    if next == OPEN {
      return Progress(p.out, after, removed, shifts, Some(at), p.spoilers);
    }
    if p.open.None? {
      return Progress(p.out, after, removed, shifts, None, p.spoilers);
    }
    r := Progress(p.out, after, removed, shifts, None, p.spoilers + [(p.open.value, at - p.open.value)]);
  }

  /** The loop over the characters. */
  method Scan(text: Text) returns (p: Progress)
    ensures p == After(text)
  {
    p := Progress([], 0, 0, [], None, []);
    var i := 0;
    while i < |text|
      invariant i <= |text|
      invariant p == After(text[..i])
    {
      assert text[..i + 1] == text[..i] + [text[i]];
      p := Read(text[i], p, text[..i]);
      i := i + 1;
    }
    assert text[..i] == text;
  }

  /** Every entity at its moved offset and length. */
  method MoveAll(entities: seq<Entity>, shifts: seq<(nat, nat)>, ghost text: Text) returns (moved: seq<Entity>)
    requires shifts == Shifts(text)
    ensures moved == MovedEntities(text, entities)
  {
    moved := [];
    var i := 0;
    while i < |entities|
      invariant i <= |entities|
      invariant moved == MovedEntities(text, entities[..i])
    {
      assert entities[..i + 1][..i] == entities[..i];
      var e := entities[i];
      var start := Shift(shifts, e.offset, text);
      var end := Shift(shifts, e.offset + e.length, text);
      moved := moved + [e.(offset := start, length := end - start)];
      i := i + 1;
    }
    assert entities[..i] == entities;
  }

  /** The spoilers that cover something, as entities. */
  method Emit(spoilers: seq<(nat, int)>) returns (emitted: seq<Entity>)
    ensures emitted == SpoilerEntities(spoilers)
  {
    emitted := [];
    var i := 0;
    while i < |spoilers|
      invariant i <= |spoilers|
      invariant emitted == SpoilerEntities(spoilers[..i])
    {
      assert spoilers[..i + 1][..i] == spoilers[..i];
      if spoilers[i].1 > 0 {
        emitted := emitted + [Entity("spoiler", spoilers[i].0, spoilers[i].1, NO_DETAILS)];
      }
      i := i + 1;
    }
    assert spoilers[..i] == spoilers;
  }

  /** `_extract_spoilers` */
  method ExtractSpoilers(text: Text, entities: seq<Entity>) returns (out: Text, moved: seq<Entity>)
    ensures !HasMark(text) ==> out == text && moved == entities
    ensures HasMark(text) ==> out == Strip(text)
    ensures HasMark(text) ==>
      moved == SortedEntities(MovedEntities(text, entities) + SpoilerEntities(Spans(text)))
  {
    if !HasMark(text) {
      return text, entities;
    }
    var p := Scan(text);
    var kept := MoveAll(entities, p.shifts, text);
    var spoilers := Emit(p.spoilers);
    out := p.out;
    moved := SortedEntities(kept + spoilers);
  }
}
