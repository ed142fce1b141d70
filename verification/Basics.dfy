/** Small vocabulary shared by the models: options, lookups with a default, and
    the sequences that stand for insertion-ordered dictionaries and deques. */
module Basics {

  datatype Option<+T> = None | Some(value: T)

  function Max(a: int, b: int): int {
    if a < b then b else a
  }

  function MaxReal(a: real, b: real): real {
    if a < b then b else a
  }

  /** `m.get(k, default)` */
  function Get<K, V>(m: map<K, V>, k: K, default: V): V {
    if k in m then m[k] else default
  }

  ghost predicate Distinct<T>(s: seq<T>) {
    forall i, j :: 0 <= i < j < |s| ==> s[i] != s[j]
  }

  /** The last `n` elements: what a bounded deque keeps. */
  function LastN<T>(s: seq<T>, n: nat): (r: seq<T>)
    ensures |r| == if |s| <= n then |s| else n
    ensures forall i :: 0 <= i < |r| ==> r[i] == s[|s| - |r| + i]
  {
    if |s| <= n then s else s[|s| - n..]
  }

  lemma LastOfTail<T>(s: seq<T>, k: nat, n: nat)
    requires k + n <= |s|
    ensures LastN(s[k..], n) == LastN(s, n)
  {
  }

  /** What a bounded deque has dropped makes no difference later. */
  lemma LastTwice<T>(a: seq<T>, b: seq<T>, n: nat)
    ensures LastN(LastN(a, n) + b, n) == LastN(a + b, n)
  {
    if |a| > n {
      var k := |a| - n;
      assert LastN(a, n) + b == (a + b)[k..];
      LastOfTail(a + b, k, n);
    }
  }

  function IndexOf<T(==)>(s: seq<T>, x: T): (i: nat)
    requires x in s
    ensures i < |s| && s[i] == x
  {
    if s[0] == x then 0 else 1 + IndexOf(s[1..], x)
  }

  /** Deleting a key of an ordered dictionary keeps the order of the others. */
  function Pop<T(==)>(s: seq<T>, x: T): seq<T> {
    if x in s then s[..IndexOf(s, x)] + s[IndexOf(s, x) + 1..] else s
  }

  lemma PopMembers<T>(s: seq<T>, x: T)
    requires Distinct(s)
    ensures Distinct(Pop(s, x))
    ensures forall y :: y in Pop(s, x) <==> y in s && y != x
  {
    if x in s {
      var j := IndexOf(s, x);
      var r := Pop(s, x);
      forall y | y in s && y != x ensures y in r {
        var i :| 0 <= i < |s| && s[i] == y;
        assert r[if i < j then i else i - 1] == y;
      }
    }
  }

  lemma DistinctAppend<T>(s: seq<T>, x: T)
    requires Distinct(s) && x !in s
    ensures Distinct(s + [x])
  {
  }

  lemma Member<T>(s: set<T>) returns (x: T)
    requires s != {}
    ensures x in s
  {
    x :| x in s;
  }

  lemma {:induction false} GreatestExists(s: set<int>)
    requires |s| > 0
    ensures exists x :: x in s && forall y :: y in s ==> y <= x
    decreases |s|
  {
    assert s != {};
    var x := Member(s);
    var rest := s - {x};
    assert forall z :: z in s ==> z in rest || z == x;
    if |rest| > 0 {
      GreatestExists(rest);
      var y :| y in rest && forall z :: z in rest ==> z <= y;
      var m := if x <= y then y else x;
      assert m in s && forall z :: z in s ==> z <= m;
    } else {
      assert rest == {};
    }
  }

  /** `sorted(ids)[:cap]` as a set: the greatest ids go until at most `cap` are left. */
  ghost function Cut(s: set<int>, cap: nat): (r: set<int>)
    ensures |s| <= cap ==> r == s
    ensures |r| <= cap && r <= s
    ensures forall x, y :: x in r && y in s && y !in r ==> x <= y
    decreases |s|
  {
    if |s| <= cap then s
    else
      GreatestExists(s);
      var top :| top in s && forall y :: y in s ==> y <= top;
      Cut(s - {top}, cap)
  }
}
