/** `tlgr/filters/compose.py`: a YAML filter block becomes a tree of AND, OR and NOT, which is walked with
    short-circuits, by `evaluate` or, awaiting the filters that are coroutines, by `evaluate_async`. */
module Filters {
  import opened Basics

  datatype Yaml = Scalar(text: string) | List(items: seq<Yaml>) | Dict(entries: seq<Entry>)
  datatype Entry = Entry(key: string, value: Yaml)

  datatype Node =
    | Leaf(name: string, value: Yaml)
    | And(children: seq<Node>)
    | Or(children: seq<Node>)
    | Not(child: Node)

  const ANY_OF := "any_of"
  const NONE_OF := "none_of"

  // ---- parsing -------------------------------------------------------------------------------

  function Parse(raw: Yaml): Option<Node>
    requires raw.Dict?
    decreases raw, |raw.entries| + 1
  {
    var conjuncts := Conjuncts(raw, |raw.entries|);
    if conjuncts == [] then None
    else if |conjuncts| == 1 then Some(conjuncts[0])
    else Some(And(conjuncts))
  }

  /** What the first `n` entries of a block contribute. */
  function Conjuncts(raw: Yaml, n: nat): seq<Node>
    requires raw.Dict? && n <= |raw.entries|
    decreases raw, n
  {
    if n == 0 then [] else Conjuncts(raw, n - 1) + ConjunctOf(raw.entries[n - 1])
  }

  function ConjunctOf(e: Entry): seq<Node>
    decreases e
  {
    if e.key == ANY_OF then
      var sets := ChildList(e.value);
      if sets == [] then [] else [Or(sets)]
    else if e.key == NONE_OF then
      var sets := ChildList(e.value);
      if sets == [] then [] else [Not(Or(sets))]
    else [Leaf(e.key, e.value)]
  }

  function ChildList(value: Yaml): seq<Node>
    decreases value, if value.List? then |value.items| + 1 else 0
  {
    if value.List? then Children(value, |value.items|) else []
  }

  /** The sets among the first `n` items of a list that are not empty. */
  function Children(value: Yaml, n: nat): seq<Node>
    requires value.List? && n <= |value.items|
    decreases value, n
  {
    if n == 0 then []
    else Children(value, n - 1) + ChildOf(value.items[n - 1])
  }

  function ChildOf(item: Yaml): seq<Node>
    decreases item, if item.Dict? then |item.entries| + 2 else 0
  {
    if item.Dict? && Parse(item).Some? then [Parse(item).value] else []
  }

  /** `parse_filter_config`: no block is no filter. */
  method ParseFilterConfig(block: Option<Yaml>) returns (node: Option<Node>)
    requires block.Some? ==> block.value.Dict?
    ensures node == if block.None? then None else Parse(block.value)
  {
    if block.None? {
      return None;
    }
    node := ParseBlock(block.value);
  }

  /** The loop over the entries of a block. */
  method ParseBlock(raw: Yaml) returns (node: Option<Node>)
    requires raw.Dict?
    ensures node == Parse(raw)
    decreases raw
  {
    var conjuncts: seq<Node> := [];
    var i := 0;
    while i < |raw.entries|
      invariant i <= |raw.entries| && conjuncts == Conjuncts(raw, i)
    {
      var e := raw.entries[i];
      if e.key == ANY_OF {
        var sets := ParseChildList(e.value);
        if sets != [] {
          conjuncts := conjuncts + [Or(sets)];
        }
      } else if e.key == NONE_OF {
        var sets := ParseChildList(e.value);
        if sets != [] {
          conjuncts := conjuncts + [Not(Or(sets))];
        }
      } else {
        conjuncts := conjuncts + [Leaf(e.key, e.value)];
      }
      i := i + 1;
    }
    if conjuncts == [] {
      return None;
    }
    if |conjuncts| == 1 {
      return Some(conjuncts[0]);
    }
    node := Some(And(conjuncts));
  }

  /** `_parse_child_list` */
  method ParseChildList(value: Yaml) returns (nodes: seq<Node>)
    ensures nodes == ChildList(value)
    decreases value
  {
    nodes := [];
    if !value.List? {
      return;
    }
    var i := 0;
    while i < |value.items|
      invariant i <= |value.items| && nodes == Children(value, i)
    {
      if value.items[i].Dict? {
        var child := ParseBlock(value.items[i]);
        if child.Some? {
          nodes := nodes + [child.value];
        }
      }
      i := i + 1;
    }
  }

  // ---- evaluating --------------------------------------------------------------------------------

  type Verdict = (bool, string)

  /** What a filter does with the event at hand: it is not known, it answers, or it has to be awaited. */
  datatype Answer = Unknown | Now(verdict: Verdict) | Awaited(verdict: Verdict)

  type Filter = (string, Yaml) -> Answer

  function LeafVerdict(f: Filter, name: string, value: Yaml): Verdict {
    match f(name, value)
    case Unknown => (false, "unknown filter: " + name)
    case Now(v) => v
    case Awaited(_) => (false, name + " needs the job engine (it asks Telegram)")
  }

  function LeafVerdictAsync(f: Filter, name: string, value: Yaml): Verdict {
    match f(name, value)
    case Unknown => (false, "unknown filter: " + name)
    case Now(v) => v
    case Awaited(v) => v
  }

  function Reasons(reasons: seq<string>): string {
    if reasons == [] then ""
    else if |reasons| == 1 then reasons[0]
    else Reasons(reasons[..|reasons| - 1]) + "; " + reasons[|reasons| - 1]
  }

  function Width(node: Node): nat {
    if node.And? || node.Or? then |node.children| else 0
  }

  /** `evaluate` of a node, given what a leaf answers. */
  function Walk(node: Node, leaf: (string, Yaml) -> Verdict): Verdict
    decreases node, Width(node) + 1
  {
    match node
    case Leaf(name, value) => leaf(name, value)
    case And(_) => WalkAnd(node, 0, leaf)
    case Or(_) => WalkOr(node, 0, [], leaf)
    case Not(child) =>
      var v := Walk(child, leaf);
      if v.0 then (false, "excluded: " + v.1) else (true, "not-match passed")
  }

  function WalkAnd(node: Node, i: nat, leaf: (string, Yaml) -> Verdict): Verdict
    requires node.And? && i <= |node.children|
    decreases node, |node.children| - i
  {
    if i == |node.children| then (true, "all passed")
    else
      var v := Walk(node.children[i], leaf);
      if v.0 then WalkAnd(node, i + 1, leaf) else v
  }

  function WalkOr(node: Node, i: nat, reasons: seq<string>, leaf: (string, Yaml) -> Verdict): Verdict
    requires node.Or? && i <= |node.children|
    decreases node, |node.children| - i
  {
    if i == |node.children| then (false, "none matched: " + Reasons(reasons))
    else
      var v := Walk(node.children[i], leaf);
      if v.0 then v else WalkOr(node, i + 1, reasons + [v.1], leaf)
  }

  /** `evaluate` */
  method Evaluate(node: Option<Node>, f: Filter) returns (v: Verdict)
    ensures node.None? ==> v == (true, "no filters")
    ensures node.Some? ==> v == Walk(node.value, (name, value) => LeafVerdict(f, name, value))
  {
    if node.None? {
      return (true, "no filters");
    }
    v := EvaluateNode(node.value, (name, value) => LeafVerdict(f, name, value));
  }

  /** `evaluate_async` */
  method EvaluateAsync(node: Option<Node>, f: Filter) returns (v: Verdict)
    ensures node.None? ==> v == (true, "no filters")
    ensures node.Some? ==> v == Walk(node.value, (name, value) => LeafVerdictAsync(f, name, value))
  {
    if node.None? {
      return (true, "no filters");
    }
    v := EvaluateNode(node.value, (name, value) => LeafVerdictAsync(f, name, value));
  }

  /** The walk both share, with the loops and the short-circuits of the code. */
  method EvaluateNode(node: Node, leaf: (string, Yaml) -> Verdict) returns (v: Verdict)
    ensures v == Walk(node, leaf)
    decreases node
  {
    match node {
      case Leaf(name, value) =>
        v := leaf(name, value);
      case And(children) =>
        var i := 0;
        while i < |children|
          invariant i <= |children| && WalkAnd(node, 0, leaf) == WalkAnd(node, i, leaf)
        {
          v := EvaluateNode(children[i], leaf);
          if !v.0 {
            return;
          }
          i := i + 1;
        }
        v := (true, "all passed");
      case Or(children) =>
        var reasons: seq<string> := [];
        var i := 0;
        while i < |children|
          invariant i <= |children| && WalkOr(node, 0, [], leaf) == WalkOr(node, i, reasons, leaf)
        {
          v := EvaluateNode(children[i], leaf);
          if v.0 {
            return;
          }
          reasons := reasons + [v.1];
          i := i + 1;
        }
        v := (false, "none matched: " + Reasons(reasons));
      case Not(child) =>
        v := EvaluateNode(child, leaf);
        v := if v.0 then (false, "excluded: " + v.1) else (true, "not-match passed");
    }
  }

  // ---- the direct reading ----------------------------------------------------------------------------

  /** A set says nothing: it has no filter of its own, and no set below it says anything. */
  predicate Empty(raw: Yaml)
    requires raw.Dict?
  {
    forall i :: 0 <= i < |raw.entries| ==>
      raw.entries[i].key in {ANY_OF, NONE_OF} && SaysNothing(raw.entries[i].value)
  }

  predicate SaysNothing(value: Yaml) {
    value.List? ==> forall j :: 0 <= j < |value.items| && value.items[j].Dict? ==> Empty(value.items[j])
  }

  /** How a block reads: every entry holds; `any_of` holds when one of its sets does, `none_of` when none does,
      and sets that say nothing do not count. */
  predicate Reads(raw: Yaml, leaf: (string, Yaml) -> Verdict)
    requires raw.Dict?
  {
    forall i :: 0 <= i < |raw.entries| ==> EntryReads(raw.entries[i], leaf)
  }

  predicate EntryReads(e: Entry, leaf: (string, Yaml) -> Verdict) {
    if e.key == ANY_OF then SaysNothing(e.value) || OneReads(e.value, leaf)
    else if e.key == NONE_OF then !OneReads(e.value, leaf)
    else leaf(e.key, e.value).0
  }

  predicate OneReads(value: Yaml, leaf: (string, Yaml) -> Verdict) {
    value.List?
    && exists j :: 0 <= j < |value.items| && value.items[j].Dict? && !Empty(value.items[j])
                   && Reads(value.items[j], leaf)
  }

  // ---- compilation preserves meaning -------------------------------------------------------------------

  ghost predicate AllHold(nodes: seq<Node>, leaf: (string, Yaml) -> Verdict) {
    forall i :: 0 <= i < |nodes| ==> Walk(nodes[i], leaf).0
  }

  ghost predicate OneHolds(nodes: seq<Node>, leaf: (string, Yaml) -> Verdict) {
    exists i :: 0 <= i < |nodes| && Walk(nodes[i], leaf).0
  }

  lemma {:induction false} AndIsAll(node: Node, i: nat, leaf: (string, Yaml) -> Verdict)
    requires node.And? && i <= |node.children|
    ensures WalkAnd(node, i, leaf).0 <==> AllHold(node.children[i..], leaf)
    decreases |node.children| - i
  {
    if i < |node.children| {
      AndIsAll(node, i + 1, leaf);
      assert node.children[i..] == [node.children[i]] + node.children[i + 1..];
    }
  }

  lemma {:induction false} OrIsOne(node: Node, i: nat, reasons: seq<string>, leaf: (string, Yaml) -> Verdict)
    requires node.Or? && i <= |node.children|
    ensures WalkOr(node, i, reasons, leaf).0 <==> OneHolds(node.children[i..], leaf)
    decreases |node.children| - i
  {
    if i < |node.children| {
      var v := Walk(node.children[i], leaf);
      OrIsOne(node, i + 1, reasons + [v.1], leaf);
      var here, rest := node.children[i..], node.children[i + 1..];
      assert here == [node.children[i]] + rest;
      if OneHolds(rest, leaf) {
        var k :| 0 <= k < |rest| && Walk(rest[k], leaf).0;
        assert here[k + 1] == rest[k];
      }
      if v.0 { assert here[0] == node.children[i]; }
    }
  }

  /** The compiled block gives the verdict of its direct reading, however deep it is nested; it compiles to no
      filter at all exactly when it says nothing. */
  lemma {:induction false} CompilingKeepsTheMeaning(raw: Yaml, leaf: (string, Yaml) -> Verdict)
    requires raw.Dict?
    ensures Parse(raw).None? <==> Empty(raw)
    ensures Reads(raw, leaf) <==> Parse(raw).None? || Walk(Parse(raw).value, leaf).0
    decreases raw, 1
  {
    var n := |raw.entries|;
    ConjunctsMean(raw, n, leaf);
    if |Conjuncts(raw, n)| > 1 { AndMeans(Conjuncts(raw, n), leaf); }
  }

  lemma AndMeans(all: seq<Node>, leaf: (string, Yaml) -> Verdict)
    ensures Walk(And(all), leaf).0 <==> AllHold(all, leaf)
  {
    AndIsAll(And(all), 0, leaf);
    assert all[0..] == all;
  }

  lemma {:induction false} ConjunctsMean(raw: Yaml, n: nat, leaf: (string, Yaml) -> Verdict)
    requires raw.Dict? && n <= |raw.entries|
    ensures AllHold(Conjuncts(raw, n), leaf) <==> forall i :: 0 <= i < n ==> EntryReads(raw.entries[i], leaf)
    ensures Conjuncts(raw, n) == [] <==>
      forall i :: 0 <= i < n ==> raw.entries[i].key in {ANY_OF, NONE_OF} && SaysNothing(raw.entries[i].value)
    decreases raw, 0, n
  {
    if n > 0 {
      ConjunctsMean(raw, n - 1, leaf);
      ConjunctMeans(raw.entries[n - 1], leaf);
      AllHoldAppend(Conjuncts(raw, n - 1), ConjunctOf(raw.entries[n - 1]), leaf);
    }
  }

  lemma AllHoldAppend(a: seq<Node>, b: seq<Node>, leaf: (string, Yaml) -> Verdict)
    ensures AllHold(a + b, leaf) <==> AllHold(a, leaf) && AllHold(b, leaf)
  {
    if AllHold(a + b, leaf) {
      forall i | 0 <= i < |a| ensures Walk(a[i], leaf).0 { assert (a + b)[i] == a[i]; }
      forall i | 0 <= i < |b| ensures Walk(b[i], leaf).0 { assert (a + b)[|a| + i] == b[i]; }
    }
  }

  lemma OneHoldsAppend(a: seq<Node>, b: seq<Node>, leaf: (string, Yaml) -> Verdict)
    ensures OneHolds(a + b, leaf) <==> OneHolds(a, leaf) || OneHolds(b, leaf)
  {
    if OneHolds(a, leaf) {
      var i :| 0 <= i < |a| && Walk(a[i], leaf).0;
      assert (a + b)[i] == a[i];
    }
    if OneHolds(b, leaf) {
      var i :| 0 <= i < |b| && Walk(b[i], leaf).0;
      assert (a + b)[|a| + i] == b[i];
    }
  }

  lemma {:induction false} ConjunctMeans(e: Entry, leaf: (string, Yaml) -> Verdict)
    ensures AllHold(ConjunctOf(e), leaf) <==> EntryReads(e, leaf)
    ensures ConjunctOf(e) == [] <==> e.key in {ANY_OF, NONE_OF} && SaysNothing(e.value)
    decreases e
  {
    var nodes := ConjunctOf(e);
    assert |nodes| <= 1;
    assert nodes != [] ==> (AllHold(nodes, leaf) <==> Walk(nodes[0], leaf).0);
    if e.key in {ANY_OF, NONE_OF} && e.value.List? {
      var sets := ChildList(e.value);
      ChildrenMean(e.value, |e.value.items|, leaf);
      OrIsOne(Or(sets), 0, [], leaf);
      assert sets[0..] == sets;
      assert OneHolds(sets, leaf) <==> OneReads(e.value, leaf);
      assert Walk(Or(sets), leaf).0 <==> OneHolds(sets, leaf);
      assert Walk(Not(Or(sets)), leaf).0 <==> !OneHolds(sets, leaf);
    }
  }

  /** The set counts, and it holds. */
  ghost predicate ItemReads(item: Yaml, leaf: (string, Yaml) -> Verdict) {
    item.Dict? && !Empty(item) && Reads(item, leaf)
  }

  lemma {:induction false} ItemMeans(item: Yaml, leaf: (string, Yaml) -> Verdict)
    requires item.Dict?
    ensures OneHolds(ChildOf(item), leaf) <==> ItemReads(item, leaf)
    ensures ChildOf(item) == [] <==> Empty(item)
    decreases item, 2
  {
    CompilingKeepsTheMeaning(item, leaf);
    var nodes := ChildOf(item);
    assert nodes != [] ==> (OneHolds(nodes, leaf) <==> Walk(nodes[0], leaf).0);
  }

  lemma {:induction false} ChildrenMean(value: Yaml, n: nat, leaf: (string, Yaml) -> Verdict)
    requires value.List? && n <= |value.items|
    ensures OneHolds(Children(value, n), leaf) <==> exists j :: 0 <= j < n && ItemReads(value.items[j], leaf)
    ensures Children(value, n) == [] <==>
      forall j :: 0 <= j < n && value.items[j].Dict? ==> Empty(value.items[j])
    decreases value, n
  {
    if n > 0 {
      ChildrenMean(value, n - 1, leaf);
      var item := value.items[n - 1];
      if item.Dict? { ItemMeans(item, leaf); }
      OneHoldsAppend(Children(value, n - 1), ChildOf(item), leaf);
      if ItemReads(item, leaf) { assert ItemReads(value.items[n - 1], leaf); }
    }
  }

  // ---- with and without awaiting -------------------------------------------------------------------------

  ghost predicate SameLeaves(node: Node, a: (string, Yaml) -> Verdict, b: (string, Yaml) -> Verdict) {
    match node
    case Leaf(name, value) => a(name, value) == b(name, value)
    case And(children) => forall i :: 0 <= i < |children| ==> SameLeaves(children[i], a, b)
    case Or(children) => forall i :: 0 <= i < |children| ==> SameLeaves(children[i], a, b)
    case Not(child) => SameLeaves(child, a, b)
  }

  lemma {:induction false} WalksAgree(node: Node, a: (string, Yaml) -> Verdict, b: (string, Yaml) -> Verdict)
    requires SameLeaves(node, a, b)
    ensures Walk(node, a) == Walk(node, b)
    decreases node, 1
  {
    match node
    case Leaf(_, _) =>
    case And(_) => AndsAgree(node, 0, a, b);
    case Or(_) => OrsAgree(node, 0, [], a, b);
    case Not(child) => WalksAgree(child, a, b);
  }

  lemma {:induction false} AndsAgree(node: Node, i: nat, a: (string, Yaml) -> Verdict, b: (string, Yaml) -> Verdict)
    requires node.And? && i <= |node.children| && SameLeaves(node, a, b)
    ensures WalkAnd(node, i, a) == WalkAnd(node, i, b)
    decreases node, 0, |node.children| - i
  {
    if i < |node.children| {
      WalksAgree(node.children[i], a, b);
      AndsAgree(node, i + 1, a, b);
    }
  }

  lemma {:induction false} OrsAgree(node: Node, i: nat, reasons: seq<string>,
                                    a: (string, Yaml) -> Verdict, b: (string, Yaml) -> Verdict)
    requires node.Or? && i <= |node.children| && SameLeaves(node, a, b)
    ensures WalkOr(node, i, reasons, a) == WalkOr(node, i, reasons, b)
    decreases node, 0, |node.children| - i
  {
    if i < |node.children| {
      WalksAgree(node.children[i], a, b);
      OrsAgree(node, i + 1, reasons + [Walk(node.children[i], a).1], a, b);
    }
  }

  /** No leaf of the tree has to be awaited. */
  ghost predicate AllSync(node: Node, f: Filter) {
    match node
    case Leaf(name, value) => !f(name, value).Awaited?
    case And(children) => forall i :: 0 <= i < |children| ==> AllSync(children[i], f)
    case Or(children) => forall i :: 0 <= i < |children| ==> AllSync(children[i], f)
    case Not(child) => AllSync(child, f)
  }

  lemma {:induction false} SyncLeavesAreSame(node: Node, f: Filter)
    requires AllSync(node, f)
    ensures SameLeaves(node, (name, value) => LeafVerdict(f, name, value),
                       (name, value) => LeafVerdictAsync(f, name, value))
  {
    match node
    case Leaf(_, _) =>
    case And(children) =>
      forall i | 0 <= i < |children| ensures SameLeaves(children[i], (name, value) => LeafVerdict(f, name, value),
                                                        (name, value) => LeafVerdictAsync(f, name, value))
      {
        SyncLeavesAreSame(children[i], f);
      }
    case Or(children) =>
      forall i | 0 <= i < |children| ensures SameLeaves(children[i], (name, value) => LeafVerdict(f, name, value),
                                                        (name, value) => LeafVerdictAsync(f, name, value))
      {
        SyncLeavesAreSame(children[i], f);
      }
    case Not(child) => SyncLeavesAreSame(child, f);
  }

  /** With only synchronous filters, awaiting changes neither the verdict nor the reason. */
  lemma AsyncAgrees(node: Node, f: Filter)
    requires AllSync(node, f)
    ensures Walk(node, (name, value) => LeafVerdict(f, name, value))
            == Walk(node, (name, value) => LeafVerdictAsync(f, name, value))
  {
    SyncLeavesAreSame(node, f);
    WalksAgree(node, (name, value) => LeafVerdict(f, name, value), (name, value) => LeafVerdictAsync(f, name, value));
  }

  // ---- what a block lets through -------------------------------------------------------------------------

  /** A filter that is not known lets nothing through; one that has to be awaited only where it is; any other what it
      says. */
  function Passes(f: Filter, awaits: bool): (string, Yaml) -> Verdict {
    (name, value) =>
      match f(name, value)
      case Unknown => (false, "")
      case Now(v) => (v.0, "")
      case Awaited(v) => (awaits && v.0, "")
  }

  ghost predicate SameVerdicts(a: (string, Yaml) -> Verdict, b: (string, Yaml) -> Verdict) {
    forall name, value :: a(name, value).0 == b(name, value).0
  }

  lemma {:induction false} ReadsTheSame(raw: Yaml, a: (string, Yaml) -> Verdict, b: (string, Yaml) -> Verdict)
    requires raw.Dict? && SameVerdicts(a, b)
    ensures Reads(raw, a) <==> Reads(raw, b)
    decreases raw, 1
  {
    forall i | 0 <= i < |raw.entries| ensures EntryReads(raw.entries[i], a) <==> EntryReads(raw.entries[i], b) {
      OneReadsTheSame(raw.entries[i].value, a, b);
    }
  }

  lemma {:induction false} OneReadsTheSame(value: Yaml, a: (string, Yaml) -> Verdict, b: (string, Yaml) -> Verdict)
    requires SameVerdicts(a, b)
    ensures OneReads(value, a) <==> OneReads(value, b)
    decreases value, 0
  {
    if value.List? {
      forall j | 0 <= j < |value.items| && value.items[j].Dict?
        ensures Reads(value.items[j], a) <==> Reads(value.items[j], b)
      {
        ReadsTheSame(value.items[j], a, b);
      }
    }
  }

  /** For every block: the tree it compiles to, walked with or without awaiting, lets an event through exactly when the
      block does as it reads, where an unknown filter lets nothing through. */
  lemma BlockPasses(raw: Yaml, f: Filter)
    requires raw.Dict? && Parse(raw).Some?
    ensures Walk(Parse(raw).value, (name, value) => LeafVerdict(f, name, value)).0 <==> Reads(raw, Passes(f, false))
    ensures Walk(Parse(raw).value, (name, value) => LeafVerdictAsync(f, name, value)).0 <==> Reads(raw, Passes(f, true))
  {
    var sync, wait := (name, value) => LeafVerdict(f, name, value), (name, value) => LeafVerdictAsync(f, name, value);
    CompilingKeepsTheMeaning(raw, sync);
    CompilingKeepsTheMeaning(raw, wait);
    ReadsTheSame(raw, sync, Passes(f, false));
    ReadsTheSame(raw, wait, Passes(f, true));
  }
}
