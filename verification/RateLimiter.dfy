/**
 The token bucket that limits the number of traces. Times are in milliseconds; arithmetic is exact.
 */
module RateLimiter {

  datatype Bucket = Bucket(lastTime: real, balance: real)

  /** A call of check at a time, and the cost it asks for. */
  datatype Ask = Ask(now: real, cost: real)

  function MaxBalance(rate: real): real { if rate < 1.0 then 1.0 else rate }

  function Accrued(rate: real, from: real, to: real): real { (to - from) / 1000.0 * rate }

  function Filled(b: Bucket, rate: real, now: real): real {
    var sum := b.balance + Accrued(rate, b.lastTime, now);
    if sum > MaxBalance(rate) then MaxBalance(rate) else sum
  }

  predicate Grants(b: Bucket, rate: real, c: Ask) { Filled(b, rate, c.now) >= c.cost }

  function After(b: Bucket, rate: real, c: Ask): Bucket {
    Bucket(c.now, Filled(b, rate, c.now) - if Grants(b, rate, c) then c.cost else 0.0)
  }

  function Run(b: Bucket, rate: real, cs: seq<Ask>): Bucket
    decreases |cs|
  {
    if cs == [] then b else Run(After(b, rate, cs[0]), rate, cs[1..])
  }

  /** The total cost granted by a run of checks. */
  function Granted(b: Bucket, rate: real, cs: seq<Ask>): real
    decreases |cs|
  {
    if cs == [] then 0.0
    else (if Grants(b, rate, cs[0]) then cs[0].cost else 0.0) + Granted(After(b, rate, cs[0]), rate, cs[1..])
  }

  /** The clock does not go back, and no cost is negative. */
  ghost predicate Orderly(from: real, cs: seq<Ask>)
    decreases |cs|
  {
    cs == [] || (from <= cs[0].now && 0.0 <= cs[0].cost && Orderly(cs[0].now, cs[1..]))
  }

  ghost predicate InBounds(b: Bucket, rate: real) {
    0.0 <= b.balance <= MaxBalance(rate)
  }

  lemma AccruedAdds(rate: real, a: real, b: real, c: real)
    ensures Accrued(rate, a, b) + Accrued(rate, b, c) == Accrued(rate, a, c)
  {
    assert (b - a) / 1000.0 + (c - b) / 1000.0 == (c - a) / 1000.0;
  }

  lemma AccruedGrows(rate: real, a: real, b: real)
    requires 0.0 <= rate && a <= b
    ensures 0.0 <= Accrued(rate, a, b)
  {
    assert 0.0 <= (b - a) / 1000.0;
  }

  lemma CheckKeepsBounds(b: Bucket, rate: real, c: Ask)
    requires 0.0 <= rate && InBounds(b, rate) && b.lastTime <= c.now && 0.0 <= c.cost
    ensures InBounds(After(b, rate, c), rate)
  {
    AccruedGrows(rate, b.lastTime, c.now);
  }

  /** In every run of an orderly clock the balance stays between 0 and its maximum. */
  lemma {:induction false} BalanceStaysInBounds(b: Bucket, rate: real, cs: seq<Ask>)
    requires 0.0 <= rate && InBounds(b, rate) && Orderly(b.lastTime, cs)
    ensures InBounds(Run(b, rate, cs), rate)
    decreases |cs|
  {
    if cs != [] {
      CheckKeepsBounds(b, rate, cs[0]);
      BalanceStaysInBounds(After(b, rate, cs[0]), rate, cs[1..]);
    }
  }

  /** What is granted, with what is left, comes from the balance at the start and the time that passed. */
  lemma {:induction false} GrantedComesFromTime(b: Bucket, rate: real, cs: seq<Ask>)
    requires 0.0 <= rate && InBounds(b, rate) && Orderly(b.lastTime, cs)
    ensures var t := Run(b, rate, cs);
            Granted(b, rate, cs) + t.balance <= b.balance + Accrued(rate, b.lastTime, t.lastTime)
    decreases |cs|
  {
    if cs == [] {
      assert Accrued(rate, b.lastTime, b.lastTime) == 0.0;
    } else {
      var c, t := cs[0], After(b, rate, cs[0]);
      CheckKeepsBounds(b, rate, c);
      GrantedComesFromTime(t, rate, cs[1..]);
      AccruedAdds(rate, b.lastTime, c.now, Run(t, rate, cs[1..]).lastTime);
    }
  }

  lemma {:induction false} RunsTogether(b: Bucket, rate: real, a: seq<Ask>, w: seq<Ask>)
    requires Orderly(b.lastTime, a + w)
    ensures Run(b, rate, a + w) == Run(Run(b, rate, a), rate, w)
    ensures Orderly(b.lastTime, a) && Orderly(Run(b, rate, a).lastTime, w)
    decreases |a|
  {
    if a == [] {
      assert a + w == w;
    } else {
      assert (a + w)[0] == a[0] && (a + w)[1..] == a[1..] + w;
      RunsTogether(After(b, rate, a[0]), rate, a[1..], w);
    }
  }

  lemma {:induction false} LastTimeOf(b: Bucket, rate: real, cs: seq<Ask>)
    requires cs != []
    ensures Run(b, rate, cs).lastTime == cs[|cs| - 1].now
    decreases |cs|
  {
    if |cs| == 1 {
      assert cs[1..] == [];
    } else {
      LastTimeOf(After(b, rate, cs[0]), rate, cs[1..]);
    }
  }

  /**
   In any window w of any run, the cost granted is at most the full bucket and what accrues
   between the first and the last check of the window.
   */
  lemma WindowIsBounded(b: Bucket, rate: real, past: seq<Ask>, w: seq<Ask>)
    requires 0.0 <= rate && InBounds(b, rate) && Orderly(b.lastTime, past + w) && w != []
    ensures Granted(Run(b, rate, past), rate, w) <= MaxBalance(rate) + Accrued(rate, w[0].now, w[|w| - 1].now)
  {
    var s := Run(b, rate, past);
    RunsTogether(b, rate, past, w);
    BalanceStaysInBounds(b, rate, past);
    var t := After(s, rate, w[0]);
    CheckKeepsBounds(s, rate, w[0]);
    GrantedComesFromTime(t, rate, w[1..]);
    BalanceStaysInBounds(t, rate, w[1..]);
    LastTimeOf(s, rate, w);
    assert Run(s, rate, w) == Run(t, rate, w[1..]);
  }

  /** A cost that fits the bucket is granted once enough time has passed; a greater one never is. */
  lemma GrantedAfterWaiting(b: Bucket, rate: real, c: Ask)
    requires 0.0 <= rate && InBounds(b, rate) && b.lastTime <= c.now
    ensures c.cost > MaxBalance(rate) ==> !Grants(b, rate, c)
    ensures c.cost <= MaxBalance(rate) ==> (Grants(b, rate, c)
          <==> c.cost - b.balance <= Accrued(rate, b.lastTime, c.now))
  {
  }

  // ------------------------------------------------------------------- in numbers

  /** The rate for every second. */
  lemma AccruedIs(rate: real, from: real, to: real, seconds: real)
    requires seconds == (to - from) / 1000.0
    ensures Accrued(rate, from, to) == seconds * rate
  {
  }

  /**
   One check in numbers: the balance grows by the rate for every second up to the greater of the rate
   and 1; the cost is granted if and only if it fits, and only then taken from the balance.
   */
  lemma CheckInNumbers(b: Bucket, rate: real, c: Ask, seconds: real)
    requires seconds == (c.now - b.lastTime) / 1000.0
    ensures var grown, full := b.balance + seconds * rate, if rate >= 1.0 then rate else 1.0;
            var before := if grown <= full then grown else full;
            && (Grants(b, rate, c) <==> c.cost <= before)
            && After(b, rate, c).lastTime == c.now
            && After(b, rate, c).balance == if c.cost <= before then before - c.cost else before
  {
    AccruedIs(rate, b.lastTime, c.now, seconds);
    assert Filled(b, rate, c.now) == Least(MaxBalance(rate), b.balance + seconds * rate);
  }

  /** Any window of any run grants at most the greater of the rate and 1, and the rate for every second of it. */
  lemma WindowInNumbers(b: Bucket, rate: real, past: seq<Ask>, w: seq<Ask>, seconds: real)
    requires 0.0 <= rate && InBounds(b, rate) && Orderly(b.lastTime, past + w) && w != []
    requires seconds == (w[|w| - 1].now - w[0].now) / 1000.0
    ensures Granted(Run(b, rate, past), rate, w) <= (if rate >= 1.0 then rate else 1.0) + seconds * rate
  {
    WindowIsBounded(b, rate, past, w);
    AccruedIs(rate, w[0].now, w[|w| - 1].now, seconds);
  }

  function Least(a: real, b: real): real { if a <= b then a else b }

  /** What a check grants and leaves is what was there before, filled up. */
  lemma CheckShares(b: Bucket, rate: real, c: Ask)
    ensures After(b, rate, c).balance + (if Grants(b, rate, c) then c.cost else 0.0)
            == Least(MaxBalance(rate), b.balance + Accrued(rate, b.lastTime, c.now))
  {
  }

  lemma {:induction false} LeftOrGranted(b: Bucket, rate: real, cs: seq<Ask>)
    requires 0.0 <= rate && InBounds(b, rate) && Orderly(b.lastTime, cs)
    ensures var t := Run(b, rate, cs);
            Granted(b, rate, cs) + t.balance
            >= Least(MaxBalance(rate), b.balance + Accrued(rate, b.lastTime, t.lastTime))
    decreases |cs|
  {
    if cs == [] {
      assert Accrued(rate, b.lastTime, b.lastTime) == 0.0;
    } else {
      var c, u := cs[0], After(b, rate, cs[0]);
      var t := Run(u, rate, cs[1..]);
      CheckShares(b, rate, c);
      CheckKeepsBounds(b, rate, c);
      LeftOrGranted(u, rate, cs[1..]);
      OrderlyEnds(u, rate, cs[1..]);
      AccruedAdds(rate, b.lastTime, c.now, t.lastTime);
      AccruedGrows(rate, c.now, t.lastTime);
      AddUp(MaxBalance(rate), b.balance + Accrued(rate, b.lastTime, c.now), Accrued(rate, c.now, t.lastTime),
            if Grants(b, rate, c) then c.cost else 0.0, u.balance, Granted(u, rate, cs[1..]) + t.balance);
    }
  }

  lemma AddUp(full: real, grown: real, more: real, granted: real, left: real, rest: real)
    requires left == Least(full, grown) - granted && 0.0 <= granted && 0.0 <= more && rest >= Least(full, left + more)
    ensures granted + rest >= Least(full, grown + more)
  {
  }

  /** Nothing is wasted: what was granted and what is left make up the whole accrual, short of a full bucket. */
  lemma NothingWasted(b: Bucket, rate: real, cs: seq<Ask>, seconds: real)
    requires 0.0 <= rate && InBounds(b, rate) && Orderly(b.lastTime, cs)
    requires seconds == (Run(b, rate, cs).lastTime - b.lastTime) / 1000.0
    ensures var grown, full := b.balance + seconds * rate, if rate >= 1.0 then rate else 1.0;
            Granted(b, rate, cs) + Run(b, rate, cs).balance >= if grown <= full then grown else full
  {
    LeftOrGranted(b, rate, cs);
    AccruedIs(rate, b.lastTime, Run(b, rate, cs).lastTime, seconds);
  }

  lemma {:induction false} OrderlyEnds(b: Bucket, rate: real, cs: seq<Ask>)
    requires Orderly(b.lastTime, cs)
    ensures b.lastTime <= Run(b, rate, cs).lastTime
    decreases |cs|
  {
    if cs != [] { OrderlyEnds(After(b, rate, cs[0]), rate, cs[1..]); }
  }

  class RateLimiter {
    const rate: real
    const maxBalance: real
    var lastTime: real
    var balance: real

    ghost function View(): Bucket
      reads this
    {
      Bucket(lastTime, balance)
    }

    constructor (rate: real, now: real)
      requires 0.0 <= rate
      ensures this.rate == rate && maxBalance == MaxBalance(rate)
      ensures View() == Bucket(now, 0.0) && InBounds(View(), rate)
    {
      this.rate := rate;
      maxBalance := if rate < 1.0 then 1.0 else rate;
      lastTime, balance := now, 0.0;
    }

    method Check(now: real, cost: real) returns (ok: bool)
      requires maxBalance == MaxBalance(rate)
      modifies this
      ensures View() == After(old(View()), rate, Ask(now, cost))
      ensures ok <==> Grants(old(View()), rate, Ask(now, cost))
    {
      var elapsed := (now - lastTime) / 1000.0;
      assert elapsed * rate == Accrued(rate, lastTime, now);
      lastTime := now;
      balance := balance + elapsed * rate;
      if balance > maxBalance { balance := maxBalance; }
      assert balance == Filled(old(View()), rate, now);
      if balance >= cost {
        balance := balance - cost;
        return true;
      }
      return false;
    }
  }
}
