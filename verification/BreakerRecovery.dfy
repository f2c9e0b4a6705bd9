/**
 A disabled endpoint comes back: whatever requests are made meanwhile, time does not pass its
 deadline before it has been enabled.
 */
module BreakerRecovery {
  import opened Prelude
  import opened CircuitBreaker
  import opened BreakerDelays

  /** No armed timer is overdue. */
  ghost predicate OnTime(s: State) {
    forall j: nat | IsArmed(s, j) :: s.clock.now <= s.entries[j].timer.due
  }

  /** While a trial request is under way it may still fail, and then the delay starts once more. */
  function Deadline(x: Entry): nat
    requires x.timer.Armed?
  {
    x.timer.due + if x.state == HalfOpenWait then Delay(x.opts) else 0
  }

  /** Entry i has an armed timer for the endpoint, with a deadline at d or before. */
  ghost predicate Awaits(s: State, i: nat, ep: Endpoint, d: nat) {
    IsArmed(s, i) && s.entries[i].ep == ep && Deadline(s.entries[i]) <= d
  }

  /** The endpoint is disabled in every state of the run. */
  ghost predicate StaysDown(s: State, es: seq<Event>, ep: Endpoint)
    requires WellFormed(s)
    decreases |es|
  {
    ep in s.down && (es == [] || (Enabled(s, es[0]) && StaysDown(Step(s, es[0]), es[1..], ep)))
  }

  lemma MoveOnTime(s: State, i: nat, m: Move)
    requires OnTime(s) && i < |s.entries| && m.entry.timer == s.entries[i].timer
    ensures OnTime(Apply(s, i, m))
  {
    var t := Apply(s, i, m);
    forall j: nat | IsArmed(t, j)
      ensures t.clock.now <= t.entries[j].timer.due
    {
      if j == i { assert m.timer == Hold ==> IsArmed(s, i); } else { assert IsArmed(s, j); }
    }
  }

  lemma EntryOnTime(s: State, ep: Endpoint, opts: Options)
    requires OnTime(s)
    ensures OnTime(WithEntry(s, ep, opts))
  {
    var t := WithEntry(s, ep, opts);
    forall j: nat | IsArmed(t, j)
      ensures t.clock.now <= t.entries[j].timer.due
    {
      assert IsArmed(s, j);
    }
  }

  lemma CallOnTime(s: State, ep: Endpoint, opts: Options, move: Entry -> Move)
    requires Inv(s) && OnTime(s) && (move == OnEnter || move == OnSuccess || move == OnFailure)
    ensures OnTime(StepOn(s, ep, opts, move))
  {
    var t := WithEntry(s, ep, opts);
    var i := t.store[ep.name];
    WithEntryKeepsInv(s, ep, opts);
    EntryOnTime(s, ep, opts);
    MovesAreOk(t.entries[i]);
    MoveOnTime(t, i, move(t.entries[i]));
  }

  lemma SweepOnTime(s: State)
    requires WellFormed(s) && OnTime(s)
    ensures OnTime(Swept(s))
  {
    forall j: nat | IsArmed(Swept(s), j)
      ensures s.clock.now <= Swept(s).entries[j].timer.due
    {
      assert IsArmed(s, j);
    }
  }

  /** Punctual steps never leave a timer overdue. */
  lemma StepOnTime(s: State, e: Event)
    requires Inv(s) && OnTime(s) && Enabled(s, e) && Punctual(s, e)
    ensures OnTime(Step(s, e))
  {
    match e
    case Call(ep, opts, _) => CallOnTime(s, ep, opts, OnEnter);
    case Succeed(ep, opts) => CallOnTime(s, ep, opts, OnSuccess);
    case FailCall(ep, opts) => CallOnTime(s, ep, opts, OnFailure);
    case Fire(i) => MoveOnTime(s, i, ToHalfOpen(s.entries[i]));
    case Sweep => SweepOnTime(s);
    case Tick(to) =>
      forall j: nat | IsArmed(Ticked(s, to), j)
        ensures to <= Ticked(s, to).entries[j].timer.due
      {
        assert IsArmed(s, j);
      }
  }

  /** A request that leaves the endpoint disabled does not move the deadline back. */
  lemma MoveAwaits(x: Entry, c: Clock, move: Entry -> Move)
    requires EntryOk(x) && x.timer.Armed? && c.now <= x.timer.due
    requires move == OnEnter || move == OnSuccess || move == OnFailure
    ensures var m := move(x);
            m.ep != Enable ==>
              Moved(c, m).ep == x.ep && Moved(c, m).timer.Armed? && Deadline(Moved(c, m)) <= Deadline(x)
  {
  }

  lemma CallAwaits(s: State, ep: Endpoint, opts: Options, move: Entry -> Move, i: nat, target: Endpoint, d: nat)
    requires Inv(s) && OnTime(s) && (move == OnEnter || move == OnSuccess || move == OnFailure)
    requires Awaits(s, i, target, d) && target in StepOn(s, ep, opts, move).down
    ensures Awaits(StepOn(s, ep, opts, move), i, target, d)
  {
    var t := WithEntry(s, ep, opts);
    WithEntryKeepsInv(s, ep, opts);
    if t.store[ep.name] == i {
      MovesAreOk(t.entries[i]);
      MoveAwaits(t.entries[i], t.clock, move);
    }
  }

  lemma StepAwaits(s: State, e: Event, i: nat, ep: Endpoint, d: nat)
    requires Inv(s) && OnTime(s) && Enabled(s, e) && Awaits(s, i, ep, d) && ep in Step(s, e).down
    ensures Awaits(Step(s, e), i, ep, d)
  {
    match e
    case Call(target, opts, _) => CallAwaits(s, target, opts, OnEnter, i, ep, d);
    case Succeed(target, opts) => CallAwaits(s, target, opts, OnSuccess, i, ep, d);
    case FailCall(target, opts) => CallAwaits(s, target, opts, OnFailure, i, ep, d);
    case Fire(j) =>
    case Sweep =>
    case Tick(to) =>
  }

  lemma {:induction false} DownUntilDeadline(s: State, es: seq<Event>, t: State, i: nat, ep: Endpoint, d: nat)
    requires Inv(s) && OnTime(s) && Awaits(s, i, ep, d) && PunctualRun(s, es, t) && StaysDown(s, es, ep)
    ensures t.clock.now <= d
    decreases |es|
  {
    if es == [] {
      assert IsArmed(s, i);
    } else {
      var u := Step(s, es[0]);
      StepKeepsInv(s, es[0]);
      StepOnTime(s, es[0]);
      assert StaysDown(u, es[1..], ep);
      StepAwaits(s, es[0], i, ep, d);
      DownUntilDeadline(u, es[1..], t, i, ep, d);
    }
  }

  lemma {:induction false} RunKeepsTime(s: State, es: seq<Event>, t: State)
    requires Inv(s) && OnTime(s) && PunctualRun(s, es, t)
    ensures Inv(t) && OnTime(t)
    decreases |es|
  {
    if es != [] {
      StepKeepsInv(s, es[0]);
      StepOnTime(s, es[0]);
      RunKeepsTime(Step(s, es[0]), es[1..], t);
    }
  }

  /**
   In every reachable state a disabled endpoint has an armed timer, and every run that goes past the
   deadline of such a timer has a state in which the endpoint is enabled. For an opened circuit the
   deadline is the time the timer is due, for one that waits for its trial request a delay more.
   */
  lemma EveryRunEnables(window: nat, past: seq<Event>, s: State, ep: Endpoint)
    requires PunctualRun(Empty(window), past, s) && ep in s.down
    ensures exists i: nat :: IsArmed(s, i) && s.entries[i].ep == ep
    ensures WellFormed(s) && forall i: nat | IsArmed(s, i) && s.entries[i].ep == ep ::
              && Deadline(s.entries[i]) <= s.clock.now + 2 * Delay(s.entries[i].opts)
              && forall es, t | PunctualRun(s, es, t) && Deadline(s.entries[i]) < t.clock.now :: !StaysDown(s, es, ep)
  {
    RunKeepsTime(Empty(window), past, s);
    assert WillBeEnabled(s, ep);
    forall i: nat | IsArmed(s, i) && s.entries[i].ep == ep
      ensures Deadline(s.entries[i]) <= s.clock.now + 2 * Delay(s.entries[i].opts)
      ensures forall es, t | PunctualRun(s, es, t) && Deadline(s.entries[i]) < t.clock.now :: !StaysDown(s, es, ep)
    {
      assert TimerOk(s.entries[i], s.clock);
      forall es, t | PunctualRun(s, es, t) && Deadline(s.entries[i]) < t.clock.now
        ensures !StaysDown(s, es, ep)
      {
        if StaysDown(s, es, ep) { DownUntilDeadline(s, es, t, i, ep, Deadline(s.entries[i])); }
      }
    }
  }

  // -------------------------------------------------- the due time alone is not enough

  lemma OneMoreDown(s: State, e: Event, t: State, es: seq<Event>, u: State, ep: Endpoint)
    requires WellFormed(s) && Enabled(s, e) && Punctual(s, e) && Step(s, e) == t && ep in s.down
    requires StaysDown(t, es, ep) && PunctualRun(t, es, u)
    ensures StaysDown(s, [e] + es, ep) && PunctualRun(s, [e] + es, u)
  {
    assert ([e] + es)[0] == e && ([e] + es)[1..] == es;
  }

  /** The circuit is half open after its first failure, and the next request is on trial. */
  lemma TrialBegins(window: nat, ep: Endpoint, b: nat) returns (past: seq<Event>, s: State)
    requires b >= 2
    ensures s == First(ep, b, 1, HalfOpenWait, Armed(b + b, 1), {ep}, PlainClock(b, 2, window))
    ensures PunctualRun(Empty(window), past, s)
  {
    var call := Call(ep, Opts(b), true);
    var s1 := First(ep, b, 0, Closed, Off, {}, PlainClock(0, 0, window));
    OneStep(Empty(window), call, s1);
    var es, s2 := FirstFails(window, ep, 1, b);
    s := First(ep, b, 1, HalfOpenWait, Armed(b + b, 1), {ep}, PlainClock(b, 2, window));
    OneStep(s2, call, s);
    RunsJoin(Empty(window), [call], s1, es, s2);
    RunsJoin(Empty(window), [call] + es, s2, [call], s);
    past := [call] + es + [call];
  }

  /** A trial that fails late: the timer was due, time has passed, and the endpoint was never enabled. */
  lemma FailedTrialWaitsAgain(window: nat, ep: Endpoint, b: nat)
    returns (past: seq<Event>, s: State, es: seq<Event>, t: State)
    requires b >= 2
    ensures PunctualRun(Empty(window), past, s) && IsArmed(s, 0) && s.entries[0].ep == ep && WellFormed(s)
    ensures PunctualRun(s, es, t) && s.entries[0].timer.due < t.clock.now && StaysDown(s, es, ep)
  {
    past, s := TrialBegins(window, ep, b);
    var s1 := First(ep, b, 1, HalfOpenWait, Armed(b + b, 1), {ep}, PlainClock(b + 1, 2, window));
    var s2 := First(ep, b, 2, Opened, Armed(b + b + 1, 2), {ep}, PlainClock(b + 1, 3, window));
    t := First(ep, b, 2, Opened, Armed(b + b + 1, 2), {ep}, PlainClock(b + b + 1, 3, window));
    OneMoreDown(s2, Tick(b + b + 1), t, [], t, ep);
    OneMoreDown(s1, FailCall(ep, Opts(b)), s2, [Tick(b + b + 1)] + [], t, ep);
    es := [FailCall(ep, Opts(b))] + ([Tick(b + b + 1)] + []);
    OneMoreDown(s, Tick(b + 1), s1, es, t, ep);
    es := [Tick(b + 1)] + es;
  }
}
