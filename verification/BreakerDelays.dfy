/**
 One trial request for each half-opening of a circuit: it holds in all runs if and only if all options
 used for the endpoint have the same half-open time.
 */
module BreakerDelays {
  import opened Prelude
  import opened CircuitBreaker

  // ------------------------------------------------------------- runs on the minute

  /** Time stops at every timer that is due, and timers fire in the order in which they are due. */
  predicate Punctual(s: State, e: Event) {
    match e
    case Tick(to) => forall j: nat | j < |s.entries| && IsArmed(s, j) :: to <= s.entries[j].timer.due
    case Fire(i) =>
      IsArmed(s, i) && forall j: nat | j < |s.entries| && IsArmed(s, j) ::
        || s.entries[i].timer.due < s.entries[j].timer.due
        || (s.entries[i].timer.due == s.entries[j].timer.due && s.entries[i].timer.order <= s.entries[j].timer.order)
    case _ => true
  }

  ghost predicate PunctualRun(s: State, es: seq<Event>, t: State)
    requires WellFormed(s)
    decreases |es|
  {
    if es == [] then s == t
    else Enabled(s, es[0]) && Punctual(s, es[0]) && PunctualRun(Step(s, es[0]), es[1..], t)
  }

  lemma {:induction false} PunctualIsRun(s: State, es: seq<Event>, t: State)
    requires WellFormed(s) && PunctualRun(s, es, t)
    ensures Run(s, es, t)
    decreases |es|
  {
    if es != [] { PunctualIsRun(Step(s, es[0]), es[1..], t); }
  }

  lemma {:induction false} RunsJoin(s: State, es: seq<Event>, t: State, fs: seq<Event>, u: State)
    requires WellFormed(s) && WellFormed(t) && PunctualRun(s, es, t) && PunctualRun(t, fs, u)
    ensures PunctualRun(s, es + fs, u)
    decreases |es|
  {
    if es == [] {
      assert es + fs == fs;
    } else {
      assert (es + fs)[0] == es[0] && (es + fs)[1..] == es[1..] + fs;
      RunsJoin(Step(s, es[0]), es[1..], t, fs, u);
    }
  }

  lemma OneStep(s: State, e: Event, t: State)
    requires WellFormed(s) && Enabled(s, e) && Punctual(s, e) && Step(s, e) == t
    ensures PunctualRun(s, [e], t)
  {
    assert [e][1..] == [] && PunctualRun(t, [], t);
  }

  // ------------------------------------------------ two delays let two requests through

  function Opts(delay: nat): Options { Options(1, 0.5, delay) }

  /** A state with one entry. */
  function First(ep: Endpoint, b: nat, count: nat, state: Circuit, timer: Timer, down: set<Endpoint>, c: Clock): State
  {
    State(map[ep.name := 0], [Entry(ep, Opts(b), count, count, state, timer)], down, c)
  }

  function PlainClock(now: nat, armings: nat, window: nat): Clock { Clock(now, armings, window, window) }

  ghost predicate Leg(s: State, es: seq<Event>, t: State, ep: Endpoint, delays: set<nat>)
    requires WellFormed(s)
  {
    PunctualRun(s, es, t) && forall e <- es :: UsesDelays(e, ep, delays)
  }

  lemma LegsJoin(s: State, es: seq<Event>, t: State, fs: seq<Event>, u: State, ep: Endpoint, delays: set<nat>)
    requires WellFormed(s) && WellFormed(t) && Leg(s, es, t, ep, delays) && Leg(t, fs, u, ep, delays)
    ensures Leg(s, es + fs, u, ep, delays)
  {
    RunsJoin(s, es, t, fs, u);
  }

  lemma LegStep(s: State, e: Event, t: State, ep: Endpoint, delays: set<nat>)
    requires WellFormed(s) && Enabled(s, e) && Punctual(s, e) && Step(s, e) == t && UsesDelays(e, ep, delays)
    ensures Leg(s, [e], t, ep, delays)
  {
    OneStep(s, e, t);
  }

  /** Two requests are made, with the old options and with the new ones. */
  lemma FirstCalls(window: nat, ep: Endpoint, a: nat, b: nat) returns (es: seq<Event>, s: State)
    requires 1 <= a < b
    ensures s == First(ep, b, 0, Closed, Off, {}, PlainClock(0, 0, window)) && Leg(Empty(window), es, s, ep, {a, b})
  {
    s := First(ep, b, 0, Closed, Off, {}, PlainClock(0, 0, window));
    var e1, e2 := Call(ep, Opts(b), true), Call(ep, Opts(a), true);
    LegStep(Empty(window), e1, s, ep, {a, b});
    LegStep(s, e2, s, ep, {a, b});
    LegsJoin(Empty(window), [e1], s, [e2], s, ep, {a, b});
    es := [e1] + [e2];
  }

  /** The first one fails and the circuit opens; it is half open when the long delay has passed. */
  lemma FirstFails(window: nat, ep: Endpoint, a: nat, b: nat) returns (es: seq<Event>, t: State)
    requires 1 <= a < b
    ensures t == First(ep, b, 1, HalfOpen, Off, {}, PlainClock(b, 1, window))
    ensures Leg(First(ep, b, 0, Closed, Off, {}, PlainClock(0, 0, window)), es, t, ep, {a, b})
  {
    var s1 := First(ep, b, 0, Closed, Off, {}, PlainClock(0, 0, window));
    var s2 := First(ep, b, 1, Opened, Armed(b, 0), {ep}, PlainClock(0, 1, window));
    LegStep(s1, FailCall(ep, Opts(b)), s2, ep, {a, b});
    var s3 := First(ep, b, 1, Opened, Armed(b, 0), {ep}, PlainClock(b, 1, window));
    LegStep(s2, Tick(b), s3, ep, {a, b});
    t := First(ep, b, 1, HalfOpen, Off, {}, PlainClock(b, 1, window));
    LegStep(s3, Fire(0), t, ep, {a, b});
    LegsJoin(s1, [FailCall(ep, Opts(b))], s2, [Tick(b)], s3, ep, {a, b});
    LegsJoin(s1, [FailCall(ep, Opts(b))] + [Tick(b)], s3, [Fire(0)], t, ep, {a, b});
    es := [FailCall(ep, Opts(b))] + [Tick(b)] + [Fire(0)];
  }

  /** A sweep restarts the counters of the half-open entry. */
  lemma SweepRestarts(window: nat, ep: Endpoint, a: nat, b: nat, t1: nat) returns (es: seq<Event>, t: State)
    requires b <= t1 && window <= t1
    ensures t == First(ep, b, 0, HalfOpen, Off, {}, Clock(t1, 1, t1 + window, window))
    ensures Leg(First(ep, b, 1, HalfOpen, Off, {}, PlainClock(b, 1, window)), es, t, ep, {a, b})
  {
    var s0 := First(ep, b, 1, HalfOpen, Off, {}, PlainClock(b, 1, window));
    var s1 := First(ep, b, 1, HalfOpen, Off, {}, PlainClock(t1, 1, window));
    LegStep(s0, Tick(t1), s1, ep, {a, b});
    t := First(ep, b, 0, HalfOpen, Off, {}, Clock(t1, 1, t1 + window, window));
    assert Swept(s1).entries == t.entries && Swept(s1).store == t.store;
    LegStep(s1, Sweep, t, ep, {a, b});
    LegsJoin(s0, [Tick(t1)], s1, [Sweep], t, ep, {a, b});
    es := [Tick(t1)] + [Sweep];
  }

  function OldEntry(ep: Endpoint, b: nat, t2: nat): Entry {
    Entry(ep, Opts(b), 0, 0, HalfOpenWait, Armed(t2 + b, 1))
  }

  /** The old entry has left the store and waits for its timer. */
  function Orphaned(window: nat, ep: Endpoint, b: nat, t2: nat): State {
    State(map[], [OldEntry(ep, b, t2)], {ep}, Clock(t2, 2, t2 + window, window))
  }

  /** The trial request comes just before the next sweep, which drops the entry. */
  lemma TrialThenSweep(window: nat, ep: Endpoint, a: nat, b: nat, t1: nat) returns (es: seq<Event>, t: State)
    requires 1 <= a < b
    ensures t == Orphaned(window, ep, b, t1 + window)
    ensures Leg(First(ep, b, 0, HalfOpen, Off, {}, Clock(t1, 1, t1 + window, window)), es, t, ep, {a, b})
  {
    var t2 := t1 + window;
    var s2 := First(ep, b, 0, HalfOpen, Off, {}, Clock(t1, 1, t2, window));
    var s3 := First(ep, b, 0, HalfOpen, Off, {}, Clock(t2, 1, t2, window));
    LegStep(s2, Tick(t2), s3, ep, {a, b});
    var s4 := First(ep, b, 0, HalfOpenWait, Armed(t2 + b, 1), {ep}, Clock(t2, 2, t2, window));
    var call := Call(ep, Opts(a), true);
    LegStep(s3, call, s4, ep, {a, b});
    t := Orphaned(window, ep, b, t2);
    assert Swept(s4).entries == t.entries && Swept(s4).store == t.store;
    LegStep(s4, Sweep, t, ep, {a, b});
    LegsJoin(s2, [Tick(t2)], s3, [call], s4, ep, {a, b});
    LegsJoin(s2, [Tick(t2)] + [call], s4, [Sweep], t, ep, {a, b});
    es := [Tick(t2)] + [call] + [Sweep];
  }

  /** Both entries: the swept one still waits for its timer, the stored one is half open. */
  function Both(window: nat, ep: Endpoint, a: nat, b: nat, t2: nat): State {
    State(map[ep.name := 1], [OldEntry(ep, b, t2), Entry(ep, Opts(a), 1, 1, HalfOpen, Off)], {},
          Clock(t2 + a, 3, t2 + window, window))
  }

  /** The second request fails; its entry trips with the short delay and is half open soon. */
  lemma SecondTrips(window: nat, ep: Endpoint, a: nat, b: nat, t2: nat) returns (es: seq<Event>, t: State)
    requires 1 <= a < b
    ensures t == Both(window, ep, a, b, t2) && Leg(Orphaned(window, ep, b, t2), es, t, ep, {a, b})
  {
    var x, y := OldEntry(ep, b, t2), Entry(ep, Opts(a), 1, 1, Opened, Armed(t2 + a, 2));
    var s0 := Orphaned(window, ep, b, t2);
    var s1 := State(map[ep.name := 1], [x, y], {ep}, Clock(t2, 3, t2 + window, window));
    LegStep(s0, FailCall(ep, Opts(a)), s1, ep, {a, b});
    var s2 := State(map[ep.name := 1], [x, y], {ep}, Clock(t2 + a, 3, t2 + window, window));
    LegStep(s1, Tick(t2 + a), s2, ep, {a, b});
    t := Both(window, ep, a, b, t2);
    LegStep(s2, Fire(1), t, ep, {a, b});
    LegsJoin(s0, [FailCall(ep, Opts(a))], s1, [Tick(t2 + a)], s2, ep, {a, b});
    LegsJoin(s0, [FailCall(ep, Opts(a))] + [Tick(t2 + a)], s2, [Fire(1)], t, ep, {a, b});
    es := [FailCall(ep, Opts(a))] + [Tick(t2 + a)] + [Fire(1)];
  }

  lemma ReachesBoth(window: nat, ep: Endpoint, a: nat, b: nat) returns (es: seq<Event>, t2: nat)
    requires 1 <= a < b
    ensures Leg(Empty(window), es, Both(window, ep, a, b, t2), ep, {a, b})
  {
    var t1 := if b < window then window else b;
    t2 := t1 + window;
    var e1, s1 := FirstCalls(window, ep, a, b);
    var e2, s2 := FirstFails(window, ep, a, b);
    var e3, s3 := SweepRestarts(window, ep, a, b, t1);
    var e4, s4 := TrialThenSweep(window, ep, a, b, t1);
    var e5, s5 := SecondTrips(window, ep, a, b, t2);
    LegsJoin(Empty(window), e1, s1, e2, s2, ep, {a, b});
    LegsJoin(Empty(window), e1 + e2, s2, e3, s3, ep, {a, b});
    LegsJoin(Empty(window), e1 + e2 + e3, s3, e4, s4, ep, {a, b});
    LegsJoin(Empty(window), e1 + e2 + e3 + e4, s4, e5, s5, ep, {a, b});
    es := e1 + e2 + e3 + e4 + e5;
  }

  /** From there two routed requests reach the endpoint while the stored entry waits for one answer. */
  lemma TwoGetThrough(window: nat, ep: Endpoint, a: nat, b: nat, t2: nat) returns (fs: seq<Event>, t: State)
    requires 1 <= a < b
    ensures var s := Both(window, ep, a, b, t2);
            HalfOpened(s, 1, ep) && StaysPut(s, 1, fs) && RoutedTo(ep, fs) == 2 && Leg(s, fs, t, ep, {a, b})
  {
    var call := Call(ep, Opts(a), true);
    var x, y := OldEntry(ep, b, t2), Entry(ep, Opts(a), 1, 1, HalfOpen, Off);
    var z := Entry(ep, Opts(a), 1, 1, HalfOpenWait, Armed(t2 + b - 1 + a, 3));
    var store, next := map[ep.name := 1], t2 + window;
    var s0 := Both(window, ep, a, b, t2);
    var s1 := State(store, [x, y], {}, Clock(t2 + b - 1, 3, next, window));
    var s2 := State(store, [x, z], {ep}, Clock(t2 + b - 1, 4, next, window));
    var s3 := State(store, [x, z], {ep}, Clock(t2 + b, 4, next, window));
    var s4 := State(store, [Entry(ep, Opts(b), 0, 0, HalfOpen, Off), z], {}, Clock(t2 + b, 4, next, window));
    Stays(s4, call, s4, [], s4, ep, {a, b});
    Stays(s3, Fire(0), s4, [call] + [], s4, ep, {a, b});
    Stays(s2, Tick(t2 + b), s3, [Fire(0)] + ([call] + []), s4, ep, {a, b});
    Stays(s1, call, s2, [Tick(t2 + b)] + ([Fire(0)] + ([call] + [])), s4, ep, {a, b});
    Stays(s0, Tick(t2 + b - 1), s1, [call] + ([Tick(t2 + b)] + ([Fire(0)] + ([call] + []))), s4, ep, {a, b});
    fs := [Tick(t2 + b - 1)] + ([call] + ([Tick(t2 + b)] + ([Fire(0)] + ([call] + []))));
    t := s4;
  }

  /** One more step in front of a run during which entry 1 stays put. */
  lemma Stays(s: State, e: Event, t: State, es: seq<Event>, u: State, ep: Endpoint, delays: set<nat>)
    requires WellFormed(s) && Enabled(s, e) && Punctual(s, e) && Step(s, e) == t && UsesDelays(e, ep, delays)
    requires |s.entries| == |t.entries| == 2 && t.entries[1].ep == ep && ep.name in t.store && t.store[ep.name] == 1
    requires t.entries[1].state == s.entries[1].state || t.entries[1].state == HalfOpenWait
    requires StaysPut(t, 1, es) && Leg(t, es, u, ep, delays)
    ensures StaysPut(s, 1, [e] + es) && Leg(s, [e] + es, u, ep, delays)
    ensures RoutedTo(ep, [e] + es) == RoutedTo(ep, es) + (if e.Call? && e.routed && e.ep == ep then 1 else 0)
  {
    assert ([e] + es)[0] == e && ([e] + es)[1..] == es;
  }

  // --------------------------------------------------------------- the exact condition

  /**
   Two delays for one endpoint: a run from the start, punctual and with sweeps a window apart, in
   which the delay shrinks and two routed requests reach the endpoint in one half-open period.
   */
  lemma TwoDelaysTwoTrials(window: nat, ep: Endpoint, a: nat, b: nat)
    returns (past: seq<Event>, s: State, es: seq<Event>, t: State)
    requires 1 <= a < b
    ensures Leg(Empty(window), past, s, ep, {a, b}) && HalfOpened(s, 1, ep)
    ensures StaysPut(s, 1, es) && Leg(s, es, t, ep, {a, b}) && RoutedTo(ep, es) == 2
  {
    var t2;
    past, t2 := ReachesBoth(window, ep, a, b);
    s := Both(window, ep, a, b, t2);
    es, t := TwoGetThrough(window, ep, a, b, t2);
  }

  ghost predicate AllUse(es: seq<Event>, ep: Endpoint, delays: set<nat>) {
    forall e <- es :: UsesDelays(e, ep, delays)
  }

  /** In every run that uses the given delays, a half-open period lets at most one routed request through. */
  ghost predicate OneTrial(window: nat, ep: Endpoint, delays: set<nat>) {
    forall past, s, i, es |
      && Run(Empty(window), past, s) && AllUse(past, ep, delays)
      && HalfOpened(s, i, ep) && StaysPut(s, i, es) && AllUse(es, ep, delays) ::
      RoutedTo(ep, es) <= 1
  }

  /** One trial request in every half-open period if and only if the endpoint has a single delay. */
  lemma OneTrialIffOneDelay(window: nat, ep: Endpoint, delays: set<nat>)
    requires forall d | d in delays :: d >= 1
    ensures OneTrial(window, ep, delays) <==> forall a, b | a in delays && b in delays :: a == b
  {
    if forall a, b | a in delays && b in delays :: a == b {
      forall past, s, i, es |
          && Run(Empty(window), past, s) && AllUse(past, ep, delays)
          && HalfOpened(s, i, ep) && StaysPut(s, i, es) && AllUse(es, ep, delays)
        ensures RoutedTo(ep, es) <= 1
      {
        var d :| delays == {} || d in delays;
        OneDelayOneTrial(window, past, s, i, ep, d, es);
      }
    } else {
      var x, y :| x in delays && y in delays && x != y;
      var a, b := if x < y then x else y, if x < y then y else x;
      var past, s, es, t := TwoDelaysTwoTrials(window, ep, a, b);
      PunctualIsRun(Empty(window), past, s);
      assert AllUse(past, ep, delays) && AllUse(es, ep, delays);
      assert !OneTrial(window, ep, delays);
    }
  }
}
