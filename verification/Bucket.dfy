/** `TokenBucket` of `tlgr/daemon/ratelimit.py`. Every turn of every `take` loop, whoever runs it, is one
    step of the bucket, so the bounds below hold for any number of concurrent calls. */
module Buckets {
  import opened Basics

  /** One take that was let through: when, for how much, and what it left. */
  datatype Grant = Grant(at: real, cost: real, left: real)

  datatype Bucket = Bucket(rate: real, burst: real, tokens: real, updated: real, grants: seq<Grant>) {

    /** `_refill` */
    function Refilled(now: real): Bucket {
      if now - updated > 0.0
      then this.(tokens := MinReal(burst, tokens + Gained(rate, now - updated)), updated := now)
      else this
    }

    /** `delay`, of a bucket just refilled. */
    function Delay(cost: real): real
      requires rate > 0.0
    {
      if tokens >= cost then 0.0 else (cost - tokens) / rate
    }

    /** `consume` refills once more, at a moment no earlier, and takes the cost. */
    function Consumed(later: real, cost: real): Bucket {
      var b := Refilled(later);
      b.(tokens := b.tokens - cost, grants := b.grants + [Grant(b.updated, cost, b.tokens - cost)])
    }

    /** One turn of the loop in `take`. */
    function Attempted(now: real, later: real, cost: real): Bucket
      requires rate > 0.0
    {
      var b := Refilled(now);
      if b.Delay(cost) <= 0.0 then b.Consumed(later, cost) else b
    }

    /** The balance stays between nothing and the burst, and never got ahead of the last grant by more than
        the rate allows; so each stretch of grants cost at most the burst and what came in meanwhile. */
    ghost predicate Inv() {
      rate > 0.0 && burst >= 1.0 && 0.0 <= tokens <= burst && InStep() && Bounded()
    }

    /** The balance since the last grant. */
    ghost predicate InStep() {
      grants != [] ==>
        var last := grants[|grants| - 1];
        last.at <= updated && tokens <= last.left + Gained(rate, updated - last.at)
    }

    ghost predicate Bounded() {
      && Sorted(grants)
      && (forall i :: 0 <= i < |grants| ==> grants[i].cost >= 0.0 && grants[i].left >= 0.0)
      && forall i, j :: 0 <= i <= j < |grants| ==> Within(i, j)
    }

    ghost predicate Within(i: nat, j: nat)
      requires i <= j < |grants|
    {
      Spent(grants, i, j + 1) + grants[j].left <= burst + Gained(rate, grants[j].at - grants[i].at)
    }
  }

  /** What comes in over a time: rate times its length. */
  function Gained(rate: real, time: real): real {
    rate * time
  }

  ghost predicate Sorted(grants: seq<Grant>) {
    forall i, j :: 0 <= i < j < |grants| ==> grants[i].at <= grants[j].at
  }

  function MinReal(a: real, b: real): real {
    if b < a then b else a
  }

  function New(rate: real, burst: int, now: real): Bucket {
    var most := Max(burst, 1) as real;
    Bucket(MaxReal(rate, 0.0001), most, most, now, [])
  }

  /** What the grants from `i` up to (not including) `j` cost. */
  function Spent(grants: seq<Grant>, i: nat, j: nat): real
    requires i <= j <= |grants|
  {
    if i == j then 0.0 else Spent(grants, i, j - 1) + grants[j - 1].cost
  }

  // ---- what every step keeps -----------------------------------------------------------------

  lemma Spread(rate: real, a: real, b: real, c: real)
    ensures Gained(rate, a - b) + Gained(rate, b - c) == Gained(rate, a - c)
  {
  }

  lemma NotNegative(rate: real, t: real)
    requires rate >= 0.0 && t >= 0.0
    ensures Gained(rate, t) >= 0.0
  {
  }

  lemma {:induction false} SpentPrefix(grants: seq<Grant>, more: seq<Grant>, i: nat, j: nat)
    requires i <= j <= |grants| && grants <= more
    ensures Spent(more, i, j) == Spent(grants, i, j)
  {
    if i < j {
      SpentPrefix(grants, more, i, j - 1);
    }
  }

  lemma SameGrants(b: Bucket, t: Bucket)
    requires b.Bounded() && t.grants == b.grants && t.burst == b.burst && t.rate == b.rate
    ensures t.Bounded()
  {
    forall i, j | 0 <= i <= j < |t.grants| ensures t.Within(i, j) { assert b.Within(i, j); }
  }

  lemma RefilledInStep(b: Bucket, now: real)
    requires b.rate > 0.0 && b.updated <= now && b.InStep()
    ensures b.Refilled(now).InStep()
  {
    if b.grants != [] {
      var last := b.grants[|b.grants| - 1];
      var since, gained := Gained(b.rate, b.updated - last.at), Gained(b.rate, now - b.updated);
      assert since + gained == Gained(b.rate, now - last.at) by { Spread(b.rate, now, b.updated, last.at); }
      assert b.Refilled(now).tokens <= b.tokens + gained;
    }
  }

  lemma RefilledKeeps(b: Bucket, now: real)
    requires b.Inv() && b.updated <= now
    ensures b.Refilled(now).Inv()
    ensures b.Refilled(now).updated == now && b.Refilled(now).tokens >= b.tokens
  {
    var gained := Gained(b.rate, now - b.updated);
    assert gained >= 0.0 by { NotNegative(b.rate, now - b.updated); }
    assert b.Refilled(now).tokens == MinReal(b.burst, b.tokens + gained);
    SameGrants(b, b.Refilled(now));
    RefilledInStep(b, now);
  }

  /** The new grant, seen from any grant before it. */
  lemma GrantIsWithin(b: Bucket, cost: real, i: nat)
    requires b.Inv() && 0.0 <= cost <= b.tokens && i <= |b.grants|
    ensures var grants := b.grants + [Grant(b.updated, cost, b.tokens - cost)];
      Spent(grants, i, |grants|) + (b.tokens - cost) <= b.burst + Gained(b.rate, b.updated - grants[i].at)
  {
    var n := |b.grants|;
    var grants := b.grants + [Grant(b.updated, cost, b.tokens - cost)];
    assert Spent(grants, i, n + 1) == Spent(grants, i, n) + cost;
    if i < n {
      var before := Gained(b.rate, b.grants[n - 1].at - b.grants[i].at);
      var since := Gained(b.rate, b.updated - b.grants[n - 1].at);
      assert Spent(b.grants, i, n) + b.grants[n - 1].left <= b.burst + before by { assert b.Within(i, n - 1); }
      assert b.tokens <= b.grants[n - 1].left + since;
      assert Spent(grants, i, n) == Spent(b.grants, i, n) by { SpentPrefix(b.grants, grants, i, n); }
      assert since + before == Gained(b.rate, b.updated - b.grants[i].at) by {
        Spread(b.rate, b.updated, b.grants[n - 1].at, b.grants[i].at);
      }
      assert grants[i] == b.grants[i];
    } else {
      assert Gained(b.rate, b.updated - grants[i].at) == 0.0;
    }
  }

  lemma OldStretch(b: Bucket, t: Bucket, i: nat, j: nat)
    requires i <= j < |b.grants| && b.Within(i, j)
    requires b.grants <= t.grants && t.burst == b.burst && t.rate == b.rate
    ensures t.Within(i, j)
  {
    SpentPrefix(b.grants, t.grants, i, j + 1);
    assert t.grants[i] == b.grants[i] && t.grants[j] == b.grants[j];
  }

  function Took(b: Bucket, cost: real): Bucket {
    b.(tokens := b.tokens - cost, grants := b.grants + [Grant(b.updated, cost, b.tokens - cost)])
  }

  lemma NewStretch(b: Bucket, cost: real, i: nat)
    requires b.Inv() && 0.0 <= cost <= b.tokens && i <= |b.grants|
    ensures Took(b, cost).Within(i, |b.grants|)
  {
    GrantIsWithin(b, cost, i);
    var t := Took(b, cost);
    assert t.grants[|b.grants|] == Grant(b.updated, cost, b.tokens - cost) && |t.grants| == |b.grants| + 1;
  }

  lemma TakingKeeps(b: Bucket, cost: real)
    requires b.Inv() && 0.0 <= cost <= b.tokens
    ensures Took(b, cost).Inv()
  {
    var t := Took(b, cost);
    forall i, j | 0 <= i <= j < |t.grants| ensures t.Within(i, j) {
      if j < |b.grants| { OldStretch(b, t, i, j); } else { NewStretch(b, cost, i); }
    }
  }

  lemma AttemptedKeeps(b: Bucket, now: real, later: real, cost: real)
    requires b.Inv() && b.updated <= now <= later && cost >= 0.0
    ensures b.Attempted(now, later, cost).Inv()
    ensures b.updated <= b.Attempted(now, later, cost).updated
  {
    var r := b.Refilled(now);
    RefilledKeeps(b, now);
    if r.Delay(cost) <= 0.0 { GrantedKeeps(r, later, cost); }
  }

  lemma GrantedKeeps(b: Bucket, later: real, cost: real)
    requires b.Inv() && b.updated <= later && cost >= 0.0 && b.Delay(cost) <= 0.0
    ensures b.Consumed(later, cost).Inv() && b.Consumed(later, cost).updated == later
  {
    var r := b.Refilled(later);
    RefilledKeeps(b, later);
    OpenWhenCovered(b, cost);
    TakingKeeps(r, cost);
    assert b.Consumed(later, cost) == Took(r, cost);
  }

  lemma OpenWhenCovered(b: Bucket, cost: real)
    requires b.rate > 0.0
    ensures b.Delay(cost) <= 0.0 <==> b.tokens >= cost
  {
    if b.tokens < cost {
      assert (cost - b.tokens) / b.rate > 0.0;
    }
  }

  // ---- runs: any number of concurrent takes ------------------------------------------------------

  datatype Attempt = Attempt(now: real, later: real, cost: real)

  ghost predicate Follows(b: Bucket, a: Attempt) {
    b.updated <= a.now <= a.later && a.cost >= 0.0
  }

  ghost predicate IsRun(states: seq<Bucket>, attempts: seq<Attempt>) {
    && |states| == |attempts| + 1
    && states[0].Inv()
    && forall i :: 0 <= i < |attempts| ==>
         && states[i].rate > 0.0 && Follows(states[i], attempts[i])
         && states[i + 1] == states[i].Attempted(attempts[i].now, attempts[i].later, attempts[i].cost)
  }

  lemma {:induction false} RunKeeps(states: seq<Bucket>, attempts: seq<Attempt>, n: nat)
    requires IsRun(states, attempts) && n < |states|
    ensures states[n].Inv()
  {
    if n > 0 {
      RunKeeps(states, attempts, n - 1);
      var m := n - 1;
      assert Follows(states[m], attempts[m]) && states[m + 1] == states[n];
      AttemptedKeeps(states[m], attempts[m].now, attempts[m].later, attempts[m].cost);
    }
  }

  /** What was taken from `from` to `to`. */
  function SpentDuring(grants: seq<Grant>, from: real, to: real): real {
    if grants == [] then 0.0
    else
      SpentDuring(grants[..|grants| - 1], from, to)
      + if from <= grants[|grants| - 1].at <= to then grants[|grants| - 1].cost else 0.0
  }

  lemma {:induction false} NothingBefore(grants: seq<Grant>, n: nat, from: real, to: real)
    requires n <= |grants| && forall i :: 0 <= i < n ==> grants[i].at < from
    ensures SpentDuring(grants[..n], from, to) == 0.0
  {
    if n > 0 {
      NothingBefore(grants, n - 1, from, to);
      assert grants[..n][..n - 1] == grants[..n - 1];
    }
  }

  lemma {:induction false} DuringIsStretch(grants: seq<Grant>, i: nat, n: nat, from: real, to: real)
    requires i <= n <= |grants|
    requires forall k :: 0 <= k < i ==> grants[k].at < from
    requires forall k :: i <= k < n ==> from <= grants[k].at <= to
    ensures SpentDuring(grants[..n], from, to) == Spent(grants, i, n)
  {
    if n == i {
      NothingBefore(grants, n, from, to);
    } else {
      DuringIsStretch(grants, i, n - 1, from, to);
      assert grants[..n][..n - 1] == grants[..n - 1];
    }
  }

  lemma {:induction false} NothingAfter(grants: seq<Grant>, n: nat, from: real, to: real)
    requires n <= |grants| && forall k :: n <= k < |grants| ==> grants[k].at > to
    ensures SpentDuring(grants, from, to) == SpentDuring(grants[..n], from, to)
    decreases |grants|
  {
    if n < |grants| {
      NothingAfter(grants[..|grants| - 1], n, from, to);
      assert grants[..|grants| - 1][..n] == grants[..n];
    } else {
      assert grants[..n] == grants;
    }
  }

  /** The first grant at or after `from`. */
  function FirstFrom(grants: seq<Grant>, from: real): (i: nat)
    ensures i <= |grants|
    ensures forall k :: 0 <= k < i ==> grants[k].at < from
    ensures i < |grants| ==> grants[i].at >= from
  {
    if grants == [] || grants[0].at >= from then 0 else 1 + FirstFrom(grants[1..], from)
  }

  /** The first grant after `to`. */
  function FirstAfter(grants: seq<Grant>, to: real): (i: nat)
    ensures i <= |grants|
    ensures forall k :: 0 <= k < i ==> grants[k].at <= to
    ensures i < |grants| ==> grants[i].at > to
  {
    if grants == [] || grants[0].at > to then 0 else 1 + FirstAfter(grants[1..], to)
  }

  /** What was taken in an interval was taken by consecutive grants. */
  lemma DuringIs(grants: seq<Grant>, i: nat, n: nat, from: real, to: real)
    requires Sorted(grants) && i <= |grants| && n <= |grants|
    requires (forall k :: 0 <= k < i ==> grants[k].at < from) && (i < |grants| ==> grants[i].at >= from)
    requires (forall k :: 0 <= k < n ==> grants[k].at <= to) && (n < |grants| ==> grants[n].at > to)
    ensures SpentDuring(grants, from, to) == if i < n then Spent(grants, i, n) else 0.0
  {
    NothingAfter(grants, n, from, to);
    if i < n {
      DuringIsStretch(grants, i, n, from, to);
    } else {
      NothingBefore(grants, n, from, to);
    }
  }

  lemma SomethingLeft(rate: real, burst: real, t: real)
    requires rate > 0.0 && burst >= 1.0 && t >= 0.0
    ensures 0.0 <= burst + Gained(rate, t)
  {
    NotNegative(rate, t);
  }

  lemma StretchIsBounded(b: Bucket, from: real, to: real)
    requires b.Inv() && from <= to
    ensures SpentDuring(b.grants, from, to) <= b.burst + Gained(b.rate, to - from)
  {
    var i, n := FirstFrom(b.grants, from), FirstAfter(b.grants, to);
    DuringIs(b.grants, i, n, from, to);
    if i < n {
      StretchWithin(b, i, n, from, to);
    } else {
      SomethingLeft(b.rate, b.burst, to - from);
    }
  }

  lemma StretchWithin(b: Bucket, i: nat, n: nat, from: real, to: real)
    requires b.Inv() && i < n <= |b.grants| && from <= b.grants[i].at && b.grants[n - 1].at <= to
    ensures Spent(b.grants, i, n) <= b.burst + Gained(b.rate, to - from)
  {
    var spent := Spent(b.grants, i, n);
    var gained := Gained(b.rate, b.grants[n - 1].at - b.grants[i].at);
    var allowed := Gained(b.rate, to - from);
    assert spent <= b.burst + gained by { StretchOfGrants(b, i, n); }
    assert gained <= allowed by {
      OrderOfGrants(b, i, n);
      Widen(b.rate, b.grants[i].at, b.grants[n - 1].at, from, to);
    }
  }

  lemma OrderOfGrants(b: Bucket, i: nat, n: nat)
    requires b.Inv() && i < n <= |b.grants|
    ensures b.grants[i].at <= b.grants[n - 1].at && b.rate >= 0.0
  {
  }

  lemma StretchOfGrants(b: Bucket, i: nat, n: nat)
    requires b.Inv() && i < n <= |b.grants|
    ensures Spent(b.grants, i, n) <= b.burst + Gained(b.rate, b.grants[n - 1].at - b.grants[i].at)
  {
    assert b.Within(i, n - 1) && b.grants[n - 1].left >= 0.0;
  }

  lemma Widen(rate: real, lo: real, hi: real, from: real, to: real)
    requires rate >= 0.0 && from <= lo && hi <= to
    ensures Gained(rate, hi - lo) <= Gained(rate, to - from)
  {
    Spread(rate, to, hi, lo);
    Spread(rate, to, lo, from);
    NotNegative(rate, to - hi);
    NotNegative(rate, lo - from);
  }

  lemma SameRates(states: seq<Bucket>, attempts: seq<Attempt>, n: nat)
    requires IsRun(states, attempts) && n < |states|
    ensures states[n].rate == states[0].rate && states[n].burst == states[0].burst
  {
    if n > 0 { SameRates(states, attempts, n - 1); }
  }

  /** Over any run of concurrent takes the balance stays within nothing and the burst, and what is taken in any
      interval of length T costs at most `burst + rate * T`. */
  lemma SpendingIsBounded(states: seq<Bucket>, attempts: seq<Attempt>, n: nat, from: real, to: real)
    requires IsRun(states, attempts) && n < |states| && from <= to
    ensures 0.0 <= states[n].tokens <= states[0].burst
    ensures SpentDuring(states[n].grants, from, to) <= states[0].burst + Gained(states[0].rate, to - from)
  {
    RunKeeps(states, attempts, n);
    SameRates(states, attempts, n);
    StretchIsBounded(states[n], from, to);
  }

  lemma NewKeeps(rate: real, burst: int, now: real)
    ensures New(rate, burst, now).Inv()
  {
  }

  // ---- the wait is exact -------------------------------------------------------------------------

  lemma Quotient(a: real, rate: real)
    requires rate > 0.0
    ensures Gained(rate, a / rate) == a
  {
  }

  lemma Grows(rate: real, s: real, t: real)
    requires rate > 0.0 && s < t
    ensures Gained(rate, s) < Gained(rate, t)
  {
  }

  lemma Compare(rate: real, s: real, t: real)
    requires rate > 0.0
    ensures s >= t <==> Gained(rate, s) >= Gained(rate, t)
  {
    if s < t {
      Grows(rate, s, t);
    } else if t < s {
      Grows(rate, t, s);
    }
  }

  /** When nobody else takes, a take is let through exactly when its wait is over, not a moment sooner, if and
      only if its cost is at most the burst; beyond the burst it never is. */
  lemma WaitIsExact(b: Bucket, cost: real, pause: real)
    requires b.Inv() && cost > b.tokens && pause >= 0.0
    ensures cost <= b.burst ==>
      (b.Refilled(b.updated + pause).Delay(cost) <= 0.0 <==> pause >= b.Delay(cost))
    ensures cost > b.burst ==> b.Refilled(b.updated + pause).Delay(cost) > 0.0
  {
    var r := b.Refilled(b.updated + pause);
    var wait := b.Delay(cost);
    assert Gained(b.rate, wait) == cost - b.tokens by { Quotient(cost - b.tokens, b.rate); }
    assert pause >= wait <==> Gained(b.rate, pause) >= Gained(b.rate, wait) by { Compare(b.rate, pause, wait); }
    RefilledTokens(b, pause);
    OpenWhenCovered(r, cost);
  }

  lemma RefilledTokens(b: Bucket, pause: real)
    requires b.tokens <= b.burst && pause >= 0.0
    ensures b.Refilled(b.updated + pause).tokens == MinReal(b.burst, b.tokens + Gained(b.rate, pause))
    ensures b.Refilled(b.updated + pause).rate == b.rate
  {
    assert b.updated + pause - b.updated == pause;
    if pause == 0.0 { assert Gained(b.rate, pause) == 0.0; }
  }

  // ---- the object ------------------------------------------------------------------------------------

  class TokenBucket {
    const rate: real
    const burst: real
    var tokens: real
    var updated: real
    ghost var grants: seq<Grant>

    ghost function View(): Bucket
      reads this
    {
      Bucket(rate, burst, tokens, updated, grants)
    }

    constructor (rate: real, burst: int, now: real)
      ensures View() == New(rate, burst, now) && View().Inv()
    {
      this.rate := MaxReal(rate, 0.0001);
      this.burst := Max(burst, 1) as real;
      tokens := Max(burst, 1) as real;
      updated := now;
      grants := [];
      new;
      NewKeeps(rate, burst, now);
    }

    /** `_refill` */
    method Refill(now: real)
      modifies `tokens, `updated
      ensures View() == old(View()).Refilled(now)
    {
      var elapsed := now - updated;
      if elapsed > 0.0 {
        var full := tokens + elapsed * rate;
        tokens := if burst < full then burst else full;
        updated := now;
      }
    }

    /** `delay` */
    method Delay(now: real, cost: real) returns (wait: real)
      requires rate > 0.0
      modifies `tokens, `updated
      ensures View() == old(View()).Refilled(now) && wait == View().Delay(cost)
    {
      Refill(now);
      if tokens >= cost {
        return 0.0;
      }
      wait := (cost - tokens) / rate;
    }

    /** `consume` */
    method Consume(now: real, cost: real)
      modifies `tokens, `updated, `grants
      ensures View() == old(View()).Consumed(now, cost)
    {
      Refill(now);
      tokens := tokens - cost;
      grants := grants + [Grant(updated, cost, tokens)];
    }

    /** One turn of `take`: through, or how long to sleep before the next. */
    method TryTake(now: real, later: real, cost: real) returns (through: bool, wait: real)
      requires View().Inv() && updated <= now <= later && cost >= 0.0
      modifies this
      ensures View() == old(View()).Attempted(now, later, cost) && View().Inv()
      ensures through <==> old(View()).Refilled(now).tokens >= cost
    {
      AttemptedKeeps(View(), now, later, cost);
      OpenWhenCovered(View().Refilled(now), cost);
      wait := Delay(now, cost);
      through := wait <= 0.0;
      if through {
        Consume(later, cost);
      }
    }
  }
}
