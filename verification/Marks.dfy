/** `_mark_spoilers` of `tlgr/core/text.py` in `md` mode: every `||` becomes a sentinel, opening and closing
    in turn, and a last one without a partner is left as it was typed. */
module Marks {
  import opened Spoilers

  const BARS: Text := [BAR, BAR]

  /** `text.split("||")`, from left to right. */
  function Split(text: Text): (parts: seq<Text>)
    ensures |parts| >= 1
  {
    if |text| >= 2 && text[0] == BAR && text[1] == BAR then [[]] + Split(text[2..])
    else if text == [] then [[]]
    else
      var rest := Split(text[1..]);
      [[text[0]] + rest[0]] + rest[1..]
  }

  /** The parts with something between each two of them. */
  function Joined(parts: seq<Text>, between: seq<Text>): Text
    requires |parts| == |between| + 1
  {
    if |parts| == 1 then parts[0]
    else
      var last := |parts| - 1;
      Joined(parts[..last], between[..last - 1]) + between[last - 1] + parts[last]
  }

  /** What takes the place of the `i`-th `||` of `n` parts. */
  function Mark(n: nat, i: nat): Text {
    if n % 2 == 0 && i == n - 1 then BARS else if i % 2 == 1 then [OPEN] else [CLOSE]
  }

  function Marking(n: nat): seq<Text>
    requires n >= 1
  {
    seq(n - 1, (i: int) requires 0 <= i => Mark(n, i + 1))
  }

  function Plain(n: nat): seq<Text>
    requires n >= 1
  {
    seq(n - 1, (i: int) => BARS)
  }

  /** `_mark_spoilers(text, "md")` */
  method MarkSpoilers(text: Text) returns (marked: Text)
    ensures |Split(text)| < 3 ==> marked == text
    ensures |Split(text)| >= 3 ==> marked == Joined(Split(text), Marking(|Split(text)|))
  {
    var parts := Split(text);
    if |parts| < 3 {
      return text;
    }
    var between: seq<Text> := [];
    var index := 1;
    while index < |parts|
      invariant 1 <= index <= |parts|
      invariant |between| == index - 1
      invariant forall i :: 0 <= i < |between| ==> between[i] == if (i + 1) % 2 == 1 then [OPEN] else [CLOSE]
    {
      between := between + [if index % 2 == 1 then [OPEN] else [CLOSE]];
      index := index + 1;
    }
    if |parts| % 2 == 0 {
      between := between[|between| - 1 := BARS];
    }
    assert between == Marking(|parts|);
    marked := Join(parts, between);
  }

  /** `"".join(out)` */
  method Join(parts: seq<Text>, between: seq<Text>) returns (joined: Text)
    requires |parts| == |between| + 1
    ensures joined == Joined(parts, between)
  {
    joined := parts[0];
    var index := 1;
    while index < |parts|
      invariant 1 <= index <= |parts|
      invariant joined == Joined(parts[..index], between[..index - 1])
    {
      assert parts[..index + 1][..index] == parts[..index] && between[..index][..index - 1] == between[..index - 1];
      joined := joined + between[index - 1] + parts[index];
      index := index + 1;
    }
    assert parts[..index] == parts && between[..index - 1] == between;
  }

  // ---- splitting and joining ------------------------------------------------------------------

  lemma {:induction false} JoinedFront(first: Text, d: Text, parts: seq<Text>, between: seq<Text>)
    requires |parts| == |between| + 1
    ensures Joined([first] + parts, [d] + between) == first + d + Joined(parts, between)
  {
    var all, ds := [first] + parts, [d] + between;
    var last := |parts| - 1;
    assert all[..|all| - 1] == [first] + parts[..last];
    if last == 0 {
      assert ds[..0] == [];
    } else {
      assert ds[..|ds| - 1] == [d] + between[..last - 1];
      JoinedFront(first, d, parts[..last], between[..last - 1]);
    }
  }

  lemma {:induction false} JoinedHead(c: Text, first: Text, parts: seq<Text>, between: seq<Text>)
    requires |parts| == |between|
    ensures Joined([c + first] + parts, between) == c + Joined([first] + parts, between)
  {
    if parts != [] {
      var last := |parts| - 1;
      assert ([c + first] + parts)[..|parts|] == [c + first] + parts[..last];
      assert ([first] + parts)[..|parts|] == [first] + parts[..last];
      JoinedHead(c, first, parts[..last], between[..last]);
    }
  }

  lemma BarsInFront(rest: seq<Text>)
    requires rest != []
    ensures Joined([[]] + rest, Plain(|rest| + 1)) == BARS + Joined(rest, Plain(|rest|))
  {
    var none: Text := [];
    var plain := Plain(|rest|);
    assert none + BARS == BARS;
    assert Plain(|rest| + 1) == [BARS] + plain;
    assert Joined([none] + rest, [BARS] + plain) == none + BARS + Joined(rest, plain) by {
      JoinedFront(none, BARS, rest, plain);
    }
  }

  lemma CharInFront(c: CodePoint, first: Text, tail: seq<Text>, joined: Text)
    requires Joined([first] + tail, Plain(|tail| + 1)) == joined
    ensures Joined([[c] + first] + tail, Plain(|tail| + 1)) == [c] + joined
  {
    JoinedHead([c], first, tail, Plain(|tail| + 1));
  }

  /** Splitting and joining again gives the text back. */
  lemma {:induction false} SplitJoins(text: Text)
    ensures Joined(Split(text), Plain(|Split(text)|)) == text
  {
    if |text| >= 2 && text[0] == BAR && text[1] == BAR {
      var rest := Split(text[2..]);
      assert Joined(rest, Plain(|rest|)) == text[2..] by { SplitJoins(text[2..]); }
      assert Split(text) == [[]] + rest;
      BarsInFront(rest);
      assert text == BARS + text[2..];
    } else if text != [] {
      var rest := Split(text[1..]);
      var first, tail := rest[0], rest[1..];
      assert rest == [first] + tail;
      assert Joined(rest, Plain(|rest|)) == text[1..] by { SplitJoins(text[1..]); }
      assert Split(text) == [[text[0]] + first] + tail;
      CharInFront(text[0], first, tail, text[1..]);
      assert text == [text[0]] + text[1..];
    }
  }

  /** Two bars side by side. */
  predicate BarsAt(text: Text, k: int) {
    0 <= k && k + 1 < |text| && text[k] == BAR && text[k + 1] == BAR
  }

  /** The part at `i`, with the bars it was split off at. */
  function WithBars(parts: seq<Text>, i: nat): Text
    requires i < |parts|
  {
    parts[i] + if i + 1 < |parts| then BARS else []
  }

  lemma StartsAlike(text: Text)
    ensures var head := WithBars(Split(text), 0); head != [] ==> text != [] && head[0] == text[0]
  {
  }

  /** A part ends at the first two bars side by side, and the last part has none. With `SplitJoins` there is no other way
      to split a text. */
  lemma {:induction false} SplitIsLeftmost(text: Text, i: nat, k: nat)
    requires i < |Split(text)| && BarsAt(WithBars(Split(text), i), k)
    ensures i + 1 < |Split(text)| && k == |Split(text)[i]|
  {
    if BarsAt(text, 0) {
      if i > 0 { SplitIsLeftmost(text[2..], i - 1, k); }
    } else if text != [] {
      var rest := Split(text[1..]);
      if i > 0 { assert WithBars(Split(text), i) == WithBars(rest, i); SplitIsLeftmost(text[1..], i, k); }
      else {
        assert WithBars(Split(text), 0) == [text[0]] + WithBars(rest, 0);
        StartsAlike(text[1..]);
        if k > 0 { SplitIsLeftmost(text[1..], 0, k - 1); }
      }
    }
  }

  ghost predicate Clean(text: Text) {
    forall i :: 0 <= i < |text| ==> !IsMark(text[i])
  }

  lemma {:induction false} PartsAreClean(text: Text)
    requires Clean(text)
    ensures forall i :: 0 <= i < |Split(text)| ==> Clean(Split(text)[i])
  {
    if |text| >= 2 && text[0] == BAR && text[1] == BAR {
      PartsAreClean(text[2..]);
    } else if text != [] {
      PartsAreClean(text[1..]);
    }
  }

  // ---- putting the bars back --------------------------------------------------------------------

  function Unmark(text: Text): Text {
    if text == [] then []
    else Unmark(text[..|text| - 1]) + if IsMark(text[|text| - 1]) then BARS else [text[|text| - 1]]
  }

  lemma {:induction false} UnmarkAppend(a: Text, b: Text)
    ensures Unmark(a + b) == Unmark(a) + Unmark(b)
  {
    if b == [] {
      assert a + b == a;
    } else {
      assert (a + b)[..|a + b| - 1] == a + b[..|b| - 1];
      UnmarkAppend(a, b[..|b| - 1]);
    }
  }

  lemma {:induction false} UnmarkClean(text: Text)
    requires Clean(text)
    ensures Unmark(text) == text
  {
    if text != [] {
      UnmarkClean(text[..|text| - 1]);
    }
  }

  lemma UnmarkMark(n: nat, i: nat)
    ensures Unmark(Mark(n, i)) == BARS
  {
    if Mark(n, i) == BARS {
      UnmarkClean(BARS);
    } else {
      assert Mark(n, i)[..0] == [];
    }
  }

  lemma UnmarkOneMore(front: Text, n: nat, i: nat, part: Text)
    requires Clean(part)
    ensures Unmark(front + Mark(n, i) + part) == Unmark(front) + BARS + part
  {
    var mark := Mark(n, i);
    assert Unmark(front + mark + part) == Unmark(front + mark) + Unmark(part) by { UnmarkAppend(front + mark, part); }
    assert Unmark(front + mark) == Unmark(front) + Unmark(mark) by { UnmarkAppend(front, mark); }
    assert Unmark(mark) == BARS by { UnmarkMark(n, i); }
    assert Unmark(part) == part by { UnmarkClean(part); }
  }

  lemma PlainLast(parts: seq<Text>, m: nat, n: nat)
    requires 1 < m <= |parts| && m <= n
    ensures Joined(parts[..m], Plain(n)[..m - 1]) == Joined(parts[..m - 1], Plain(n)[..m - 2]) + BARS + parts[m - 1]
  {
    assert parts[..m][..m - 1] == parts[..m - 1];
    assert Plain(n)[..m - 1][..m - 2] == Plain(n)[..m - 2];
  }

  lemma {:induction false} UnmarkJoined(parts: seq<Text>, m: nat, n: nat)
    requires 1 <= m <= |parts| && m <= n && forall i :: 0 <= i < |parts| ==> Clean(parts[i])
    ensures Unmark(Joined(parts[..m], Marking(n)[..m - 1])) == Joined(parts[..m], Plain(n)[..m - 1])
  {
    if m == 1 {
      UnmarkClean(parts[0]);
    } else {
      UnmarkJoined(parts, m - 1, n);
      JoinedLast(parts, m, n);
      PlainLast(parts, m, n);
      UnmarkOneMore(Joined(parts[..m - 1], Marking(n)[..m - 2]), n, m - 1, parts[m - 1]);
    }
  }

  /** Putting `||` back for every sentinel restores what was typed. */
  lemma MarkingIsUndone(text: Text)
    requires Clean(text)
    ensures var parts := Split(text);
      Unmark(if |parts| < 3 then text else Joined(parts, Marking(|parts|))) == text
  {
    var parts := Split(text);
    var n := |parts|;
    if n < 3 {
      UnmarkClean(text);
    } else {
      PartsAreClean(text);
      UnmarkJoined(parts, n, n);
      SplitJoins(text);
      assert parts[..n] == parts && Marking(n)[..n - 1] == Marking(n) && Plain(n)[..n - 1] == Plain(n);
    }
  }

  // ---- open and close in turn -----------------------------------------------------------------------

  /** The sentinels of a text, in order. */
  function MarksOf(text: Text): Text {
    if text == [] then []
    else MarksOf(text[..|text| - 1]) + if IsMark(text[|text| - 1]) then [text[|text| - 1]] else []
  }

  function Alternating(k: nat): Text {
    if k == 0 then [] else Alternating(k - 1) + [if k % 2 == 1 then OPEN else CLOSE]
  }

  lemma {:induction false} MarksOfAppend(a: Text, b: Text)
    ensures MarksOf(a + b) == MarksOf(a) + MarksOf(b)
  {
    if b == [] {
      assert a + b == a;
    } else {
      assert (a + b)[..|a + b| - 1] == a + b[..|b| - 1];
      MarksOfAppend(a, b[..|b| - 1]);
    }
  }

  lemma {:induction false} MarksOfClean(text: Text)
    requires Clean(text)
    ensures MarksOf(text) == []
  {
    if text != [] {
      MarksOfClean(text[..|text| - 1]);
    }
  }

  lemma MarksOfMark(n: nat, i: nat)
    ensures MarksOf(Mark(n, i)) == if n % 2 == 0 && i == n - 1 then [] else Mark(n, i)
  {
    if Mark(n, i) == BARS {
      MarksOfClean(BARS);
    } else {
      assert Mark(n, i)[..0] == [];
    }
  }

  /** How many of the `||` get a partner. */
  function Paired(n: nat): nat
    requires n >= 1
  {
    if n % 2 == 0 then n - 2 else n - 1
  }

  function Least(a: nat, b: nat): nat {
    if a <= b then a else b
  }

  lemma OneMoreMark(front: Text, n: nat, i: nat, part: Text)
    requires 1 <= i < n && Clean(part) && MarksOf(front) == Alternating(Least(i - 1, Paired(n)))
    ensures MarksOf(front + Mark(n, i) + part) == Alternating(Least(i, Paired(n)))
  {
    var mark := Mark(n, i);
    assert MarksOf(front + mark + part) == MarksOf(front) + MarksOf(mark) by {
      MarksOfAppend(front + mark, part);
      MarksOfAppend(front, mark);
      MarksOfClean(part);
    }
    MarksOfMark(n, i);
    if n % 2 == 0 && i == n - 1 {
      assert Least(i - 1, Paired(n)) == Least(i, Paired(n));
    } else {
      assert Least(i - 1, Paired(n)) == i - 1 && Least(i, Paired(n)) == i;
      assert Alternating(i) == Alternating(i - 1) + mark;
    }
  }

  lemma JoinedLast(parts: seq<Text>, m: nat, n: nat)
    requires 1 < m <= |parts| && m <= n
    ensures Joined(parts[..m], Marking(n)[..m - 1])
            == Joined(parts[..m - 1], Marking(n)[..m - 2]) + Mark(n, m - 1) + parts[m - 1]
  {
    assert parts[..m][..m - 1] == parts[..m - 1];
    assert Marking(n)[..m - 1][..m - 2] == Marking(n)[..m - 2];
  }

  lemma {:induction false} MarksOfJoined(parts: seq<Text>, m: nat, n: nat)
    requires 1 <= m <= |parts| && m <= n && forall i :: 0 <= i < |parts| ==> Clean(parts[i])
    ensures MarksOf(Joined(parts[..m], Marking(n)[..m - 1])) == Alternating(Least(m - 1, Paired(n)))
  {
    if m == 1 {
      MarksOfClean(parts[0]);
    } else {
      MarksOfJoined(parts, m - 1, n);
      JoinedLast(parts, m, n);
      OneMoreMark(Joined(parts[..m - 1], Marking(n)[..m - 2]), n, m - 1, parts[m - 1]);
    }
  }

  /** The sentinels strictly alternate, starting with an open and ending with a close: none is left without a
      partner, and of an odd number of `||` it is the last that stays as typed. */
  lemma MarksAlternate(text: Text)
    requires Clean(text) && |Split(text)| >= 3
    ensures var parts := Split(text);
      var n := |parts|;
      && MarksOf(Joined(parts, Marking(n))) == Alternating(Paired(n)) && Paired(n) % 2 == 0
      && (n % 2 == 0 ==>
            Joined(parts, Marking(n)) == Joined(parts[..n - 1], Marking(n)[..n - 2]) + BARS + parts[n - 1])
  {
    var parts := Split(text);
    var n := |parts|;
    assert parts[..n] == parts && Marking(n)[..n - 1] == Marking(n);
    assert MarksOf(Joined(parts, Marking(n))) == Alternating(Paired(n)) by {
      PartsAreClean(text);
      MarksOfJoined(parts, n, n);
    }
    JoinedLast(parts, n, n);
  }
}
