/**
 Choosing the endpoint of a call: the availability filter of an endpoint list and the
 round-robin strategy behind it.
 */
module Balancer {
  import opened Prelude

  /** The endpoints that are not disabled, in list order. `down` holds those whose `state` is false. */
  function Available<E(!new)>(list: seq<E>, down: set<E>): (r: seq<E>)
    ensures forall e :: e in r <==> e in list && e !in down
  {
    if list == [] then []
    else (if list[0] in down then [] else [list[0]]) + Available(list[1..], down)
  }

  /** Available endpoints keep their order and number: filtering a list is filtering its parts. */
  lemma {:induction false} AvailableInOrder<E(!new)>(a: seq<E>, b: seq<E>, down: set<E>)
    ensures Available(a + b, down) == Available(a, down) + Available(b, down)
    ensures forall e :: Available([e], down) == if e in down then [] else [e]
  {
    forall e: E ensures Available([e], down) == if e in down then [] else [e] {
      assert [e][1..] == [];
    }
    AppendTail(a, b);
    if a != [] {
      AvailableInOrder(a[1..], b, down);
      Assoc(if a[0] in down then [] else [a[0]], Available(a[1..], down), Available(b, down));
    }
  }

  // --------------------------------------------------------------------- round robin

  /** The position the strategy uses next: a counter left by a longer list starts again at 0. */
  function Position(counter: nat, n: nat): nat {
    if counter >= n then 0 else counter
  }

  /** The positions of k consecutive selections from a list of n endpoints. */
  function Picks(counter: nat, n: nat, k: nat): (r: seq<nat>)
    ensures |r| == k
    decreases k
  {
    if k == 0 then [] else [Position(counter, n)] + Picks(Position(counter, n) + 1, n, k - 1)
  }

  lemma LaterAt<T>(x: T, rest: seq<T>, j: nat)
    requires 0 < j <= |rest|
    ensures ([x] + rest)[j] == rest[j - 1]
  {
  }

  lemma {:induction false} PicksRotate(counter: nat, n: nat, k: nat, j: nat)
    requires j < k <= n
    ensures
      var p := Position(counter, n);
      Picks(counter, n, k)[j] == if p + j < n then p + j else p + j - n
    decreases k
  {
    var p := Position(counter, n);
    if j > 0 {
      PicksRotate(p + 1, n, k - 1, j - 1);
      LaterAt(p, Picks(p + 1, n, k - 1), j);
    }
  }

  /**
   Fairness: from any counter, also one left by a longer list, any n consecutive selections
   from a list of n endpoints pick each endpoint exactly once.
   */
  lemma RoundRobinIsFair(counter: nat, n: nat)
    requires n > 0
    ensures forall j | 0 <= j < n :: 0 <= Picks(counter, n, n)[j] < n
    ensures forall i, j | 0 <= i < j < n :: Picks(counter, n, n)[i] != Picks(counter, n, n)[j]
    ensures forall e: nat | e < n :: e in Picks(counter, n, n)
  {
    var p := Position(counter, n);
    var picks := Picks(counter, n, n);
    forall j | 0 <= j < n
      ensures picks[j] == if p + j < n then p + j else p + j - n
    {
      PicksRotate(counter, n, n, j);
    }
    forall e: nat | e < n
      ensures e in picks
    {
      var j := if e >= p then e - p else e - p + n;
      assert picks[j] == e;
    }
  }

  class RoundRobin {
    var counter: nat

    constructor ()
      ensures counter == 0
    {
      counter := 0;
    }

    method Select<E>(list: seq<E>) returns (e: E)
      requires list != []
      modifies this
      ensures Position(old(counter), |list|) < |list| && e == list[Position(old(counter), |list|)]
      ensures counter == Position(old(counter), |list|) + 1
    {
      if counter >= |list| {
        counter := 0;
      }
      e := list[counter];
      counter := counter + 1;
    }
  }

  // ----------------------------------------------------------------------- the list

  class EndpointList<E(==,!new)> {
    const internal: bool  // the name starts with "$"
    var endpoints: seq<E>
    var localEndpoints: seq<E>
    const strategy: RoundRobin

    ghost predicate Valid()
      reads this
    {
      forall e <- localEndpoints :: e in endpoints
    }

    constructor (internal: bool, endpoints: seq<E>, localEndpoints: seq<E>)
      requires forall e <- localEndpoints :: e in endpoints
      ensures Valid() && this.internal == internal
      ensures this.endpoints == endpoints && this.localEndpoints == localEndpoints && fresh(strategy)
    {
      this.internal := internal;
      this.endpoints := endpoints;
      this.localEndpoints := localEndpoints;
      strategy := new RoundRobin();
    }

    /** The strategy chooses among all endpoints: no other rule applies. */
    predicate InTurn(down: set<E>, preferLocal: bool)
      reads this
    {
      && |endpoints| > 1
      && !(internal && localEndpoints != [])
      && !(preferLocal && exists e <- localEndpoints :: e !in down)
    }

    method NextLocal(down: set<E>) returns (r: Option<E>)
      requires Valid()
      modifies strategy
      ensures r.None? <==> forall e <- localEndpoints :: e in down
      ensures r.Some? ==> r.value in localEndpoints && r.value !in down
      ensures r.None? || |localEndpoints| == 1 ==> strategy.counter == old(strategy.counter)
      ensures r.Some? && |localEndpoints| > 1 ==>
                var list := Available(localEndpoints, down);
                var p := Position(old(strategy.counter), |list|);
                p < |list| && r == Some(list[p]) && strategy.counter == p + 1
    {
      if |localEndpoints| == 0 {
        return None;
      }
      if |localEndpoints| == 1 {
        var item := localEndpoints[0];
        assert item in localEndpoints;
        if item !in down {
          return Some(item);
        }
        return None;
      }
      var epList := Available(localEndpoints, down);
      if |epList| == 0 {
        assert forall e <- localEndpoints :: e !in epList;
        return None;
      }
      var e := strategy.Select(epList);
      assert e in epList;
      r := Some(e);
    }

    /** Sound and complete: outside internal lists nothing is returned exactly when nothing is available. */
    method Next(down: set<E>, preferLocal: bool) returns (r: Option<E>)
      requires Valid()
      modifies strategy
      ensures r.Some? ==> r.value in endpoints && r.value !in down
      ensures !(internal && localEndpoints != []) ==> (r.None? <==> forall e <- endpoints :: e in down)
      ensures internal && localEndpoints != [] ==>
                (r.None? <==> forall e <- localEndpoints :: e in down) && (r.Some? ==> r.value in localEndpoints)
      ensures preferLocal && |endpoints| > 1 && (exists e <- localEndpoints :: e !in down) ==>
                r.Some? && r.value in localEndpoints
      ensures InTurn(down, preferLocal) && (exists e <- endpoints :: e !in down) ==>
                var list := Available(endpoints, down);
                var p := Position(old(strategy.counter), |list|);
                p < |list| && r == Some(list[p]) && strategy.counter == p + 1
      ensures |endpoints| > 1 && |localEndpoints| > 1 && (internal || preferLocal)
              && (exists e <- localEndpoints :: e !in down) ==>
                var list := Available(localEndpoints, down);
                var p := Position(old(strategy.counter), |list|);
                p < |list| && r == Some(list[p]) && strategy.counter == p + 1
    {
      if |endpoints| == 0 {
        return None;
      }
      if internal && |localEndpoints| > 0 {
        r := NextLocal(down);
        return;
      }
      if |endpoints| == 1 {
        var item := endpoints[0];
        if item !in down {
          return Some(item);
        }
        return None;
      }
      if preferLocal && |localEndpoints| > 0 {
        r := NextLocal(down);
        if r.Some? {
          return;
        }
      }
      var epList := Available(endpoints, down);
      if |epList| == 0 {
        assert forall e <- endpoints :: e !in epList;
        return None;
      }
      var e := strategy.Select(epList);
      r := Some(e);
    }
  }

  /** A round from position p takes what is behind p, then what is before it. */
  lemma RoundIsComplete<E>(list: seq<E>, counter: nat, es: seq<E>)
    requires list != [] && |es| == |list|
    requires forall j | 0 <= j < |list| ::
               Picks(counter, |list|, |list|)[j] < |list| && es[j] == list[Picks(counter, |list|, |list|)[j]]
    ensures multiset(es) == multiset(list)
  {
    var n, p := |list|, Position(counter, |list|);
    forall j | 0 <= j < n
      ensures es[j] == (list[p..] + list[..p])[j]
    {
      PicksRotate(counter, n, n, j);
    }
    assert es == list[p..] + list[..p] && list == list[..p] + list[p..];
  }

  /** The next position of a round, and the positions after it. */
  lemma FirstPick(all: seq<nat>, i: nat, counter: nat, n: nat, k: nat)
    requires i < k == |all| && all[i..] == Picks(counter, n, k - i)
    ensures all[i] == Position(counter, n) && all[i + 1..] == Picks(Position(counter, n) + 1, n, k - i - 1)
  {
    assert all[i] == all[i..][0] && all[i + 1..] == all[i..][1..];
  }

  /**
   Calls in a row on an unchanged list where the strategy decides: they follow `Picks`, and as many
   calls as there are available endpoints choose each of them once.
   */
  method NextMany<E(==,!new)>(list: EndpointList<E>, down: set<E>, preferLocal: bool, k: nat)
    returns (es: seq<E>)
    requires list.Valid() && list.InTurn(down, preferLocal) && exists e <- list.endpoints :: e !in down
    modifies list.strategy
    ensures |es| == k
    ensures var available := Available(list.endpoints, down);
            && (forall j | 0 <= j < k ::
                  var picks := Picks(old(list.strategy.counter), |available|, k);
                  picks[j] < |available| && es[j] == available[picks[j]])
            && (k == |available| ==> multiset(es) == multiset(available))
  {
    es := [];
    ghost var counter, available := list.strategy.counter, Available(list.endpoints, down);
    ghost var n := |available|;
    ghost var all := Picks(counter, n, k);
    assert all[0..] == all;
    for i := 0 to k
      invariant |es| == i
      invariant all[i..] == Picks(list.strategy.counter, n, k - i)
      invariant forall j | 0 <= j < i :: all[j] < n && es[j] == available[all[j]]
    {
      FirstPick(all, i, list.strategy.counter, n, k);
      assert available != [];
      var r := list.Next(down, preferLocal);
      assert r == Some(available[all[i]]);
      es := es + [r.value];
    }
    if k == n {
      assert available != [];
      RoundIsComplete(available, counter, es);
    }
  }
}
