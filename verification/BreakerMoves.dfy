/**
 The moves of the circuit breaker, said about one step of the whole: which event opens, half-opens and
 closes a circuit, what becomes of its counters and its timer, and which endpoint it switches.
 */
module BreakerMoves {
  import opened Prelude
  import opened CircuitBreaker

  /** The position of the entry that a request to the endpoint is about: the stored one, or a new one. */
  function EntryOf(s: State, ep: Endpoint): nat
    requires WellFormed(s)
  {
    if ep.name in s.store then s.store[ep.name] else |s.entries|
  }

  /** The entry at a position before the step; a new one starts closed and empty. */
  function EntryBefore(s: State, ep: Endpoint, opts: Options, i: nat): Entry {
    if i < |s.entries| then s.entries[i] else Entry(ep, opts, 0, 0, Closed, Off)
  }

  /** A request to the endpoint of the entry at position i has succeeded while the circuit was on trial. */
  ghost predicate TrialSucceeds(s: State, e: Event, i: nat)
    requires WellFormed(s)
  {
    e.Succeed? && EntryOf(s, e.ep) == i && EntryBefore(s, e.ep, e.opts, i).state == HalfOpenWait
  }

  /** A request has ended, failed or not, and its result is not the success of a trial. */
  ghost predicate Counted(s: State, e: Event, i: nat)
    requires WellFormed(s)
  {
    (e.FailCall? || e.Succeed?) && EntryOf(s, e.ep) == i && !TrialSucceeds(s, e, i)
  }

  /** With this result enough requests are counted, and enough of them have failed. */
  ghost predicate TooManyFail(x: Entry, failed: bool) {
    var count, failures := x.count + 1, x.failures + if failed then 1 else 0;
    count >= x.opts.minRequestCount && failures as real >= x.opts.threshold * count as real
  }

  // ----------------------------------------------------------------- one entry moves

  lemma RateIsRatio(failures: nat, count: nat, threshold: real)
    requires count > 0
    ensures failures as real / count as real >= threshold <==> failures as real >= threshold * count as real
  {
    var rate := failures as real / count as real;
    assert failures as real == rate * count as real;
    if rate >= threshold { assert rate * count as real >= threshold * count as real; }
    if rate < threshold { assert rate * count as real < threshold * count as real; }
  }

  lemma FailureMoves(x: Entry)
    ensures var y := OnFailure(x).entry;
            && y.count == x.count + 1 && y.failures == x.failures + 1 && y.ep == x.ep && y.opts == x.opts
            && (y.state == Opened <==> x.state == Opened || TooManyFail(x, true))
            && (y.state != Opened ==> y.state == x.state)
            && OnFailure(x).timer == (if y.state == x.state then Hold else Start)
            && OnFailure(x).ep == (if y.state == x.state then Leave else Disable)
  {
    RateIsRatio(x.failures + 1, x.count + 1, x.opts.threshold);
  }

  lemma SuccessMoves(x: Entry)
    requires x.state != HalfOpenWait
    ensures var y := OnSuccess(x).entry;
            && y.count == x.count + 1 && y.failures == x.failures && y.ep == x.ep && y.opts == x.opts
            && (y.state == Opened <==> x.state == Opened || TooManyFail(x, false))
            && (y.state != Opened ==> y.state == x.state)
            && OnSuccess(x).timer == (if y.state == x.state then Hold else Start)
            && OnSuccess(x).ep == (if y.state == x.state then Leave else Disable)
  {
    RateIsRatio(x.failures, x.count + 1, x.opts.threshold);
  }

  lemma RequestStep(s: State, ep: Endpoint, opts: Options, move: Entry -> Move)
    requires Inv(s)
    ensures var i, t := EntryOf(s, ep), StepOn(s, ep, opts, move);
            var m := move(EntryBefore(s, ep, opts, i));
            && |t.entries| == (if i < |s.entries| then |s.entries| else |s.entries| + 1) && i < |t.entries|
            && t.entries[i] == Moved(s.clock, m)
            && (forall j | 0 <= j < |s.entries| && j != i :: t.entries[j] == s.entries[j])
            && (t.down == match m.ep
                          case Enable => s.down - {m.entry.ep}
                          case Disable => s.down + {m.entry.ep}
                          case Leave => s.down)
            && t.store == s.store[ep.name := i]
  {
    assert ep.name in s.store ==> s.store[ep.name := s.store[ep.name]] == s.store;
  }

  // ----------------------------------------------------------------- the whole steps

  /**
   A successful trial closes the circuit: both counters are zero, the timer is off and the endpoint
   enabled; no other entry changes.
   */
  lemma SuccessfulTrialCloses(window: nat, past: seq<Event>, s: State, ep: Endpoint, opts: Options)
    requires Run(Empty(window), past, s)
    requires WellFormed(s) && ep.name in s.store && s.entries[s.store[ep.name]].state == HalfOpenWait
    ensures var i, t := s.store[ep.name], Step(s, Succeed(ep, opts));
            var x := s.entries[i];
            && t.entries == s.entries[i := Entry(x.ep, x.opts, 0, 0, Closed, Off)]
            && t.down == s.down - {x.ep} && t.store == s.store && t.clock == s.clock
  {
    RunKeepsInv(Empty(window), past, s);
    RequestStep(s, ep, opts, OnSuccess);
  }

  /** An entry that was not closed becomes closed in the success of a trial and in no other step. */
  lemma ClosesIff(s: State, e: Event, i: nat)
    requires Inv(s) && Enabled(s, e) && i < |s.entries| && s.entries[i].state != Closed
    ensures Step(s, e).entries[i].state == Closed <==> TrialSucceeds(s, e, i)
  {
    match e
    case Call(ep, opts, _) => RequestStep(s, ep, opts, OnEnter);
    case Succeed(ep, opts) =>
      RequestStep(s, ep, opts, OnSuccess);
      if EntryOf(s, ep) == i && s.entries[i].state != HalfOpenWait { SuccessMoves(s.entries[i]); }
    case FailCall(ep, opts) =>
      RequestStep(s, ep, opts, OnFailure);
      FailureMoves(s.entries[i]);
    case Fire(j) =>
    case Sweep =>
    case Tick(to) =>
  }

  lemma FailureOpensIff(s: State, ep: Endpoint, opts: Options, i: nat)
    requires Inv(s) && i < |Step(s, FailCall(ep, opts)).entries| && EntryBefore(s, ep, opts, i).state != Opened
    ensures Step(s, FailCall(ep, opts)).entries[i].state == Opened <==>
              EntryOf(s, ep) == i && TooManyFail(EntryBefore(s, ep, opts, i), true)
  {
    RequestStep(s, ep, opts, OnFailure);
    FailureMoves(EntryBefore(s, ep, opts, i));
  }

  lemma SuccessOpensIff(s: State, ep: Endpoint, opts: Options, i: nat)
    requires Inv(s) && i < |Step(s, Succeed(ep, opts)).entries| && EntryBefore(s, ep, opts, i).state != Opened
    ensures Step(s, Succeed(ep, opts)).entries[i].state == Opened <==>
              && EntryOf(s, ep) == i && EntryBefore(s, ep, opts, i).state != HalfOpenWait
              && TooManyFail(EntryBefore(s, ep, opts, i), false)
  {
    RequestStep(s, ep, opts, OnSuccess);
    if EntryBefore(s, ep, opts, i).state != HalfOpenWait { SuccessMoves(EntryBefore(s, ep, opts, i)); }
  }

  /**
   An entry that is not open, stored before or new, opens if and only if a request to its endpoint has
   ended, not as a successful trial, and with it enough requests are counted and enough of them failed.
   */
  lemma OpensIff(s: State, e: Event, i: nat)
    requires Inv(s) && Enabled(s, e) && i < |Step(s, e).entries|
    requires i < |s.entries| ==> s.entries[i].state != Opened
    ensures Step(s, e).entries[i].state == Opened <==>
              Counted(s, e, i) && TooManyFail(EntryBefore(s, e.ep, e.opts, i), e.FailCall?)
  {
    match e
    case Succeed(ep, opts) => SuccessOpensIff(s, ep, opts, i);
    case FailCall(ep, opts) => FailureOpensIff(s, ep, opts, i);
    case Call(ep, opts, _) => RequestStep(s, ep, opts, OnEnter);
    case Fire(j) =>
    case Sweep =>
    case Tick(to) =>
  }

  /** An entry becomes half open when its own timer fires and in no other step. */
  lemma HalfOpensIff(s: State, e: Event, i: nat)
    requires Inv(s) && Enabled(s, e) && i < |Step(s, e).entries|
    requires i < |s.entries| ==> s.entries[i].state != HalfOpen
    ensures Step(s, e).entries[i].state == HalfOpen <==> e == Fire(i)
  {
    match e
    case Call(ep, opts, _) => RequestStep(s, ep, opts, OnEnter);
    case Succeed(ep, opts) =>
      RequestStep(s, ep, opts, OnSuccess);
      var x := EntryBefore(s, ep, opts, i);
      if x.state != HalfOpenWait { SuccessMoves(x); }
    case FailCall(ep, opts) =>
      RequestStep(s, ep, opts, OnFailure);
      FailureMoves(EntryBefore(s, ep, opts, i));
    case Fire(j) =>
    case Sweep =>
    case Tick(to) =>
  }

  /** An entry goes on trial when a request enters its half-open circuit and in no other step. */
  lemma TriesIff(s: State, e: Event, i: nat)
    requires Inv(s) && Enabled(s, e) && i < |Step(s, e).entries|
    requires i < |s.entries| ==> s.entries[i].state != HalfOpenWait
    ensures Step(s, e).entries[i].state == HalfOpenWait <==>
              e.Call? && i < |s.entries| && EntryOf(s, e.ep) == i && s.entries[i].state == HalfOpen
  {
    match e
    case Call(ep, opts, _) => RequestStep(s, ep, opts, OnEnter);
    case Succeed(ep, opts) =>
      RequestStep(s, ep, opts, OnSuccess);
      SuccessMoves(EntryBefore(s, ep, opts, i));
    case FailCall(ep, opts) =>
      RequestStep(s, ep, opts, OnFailure);
      FailureMoves(EntryBefore(s, ep, opts, i));
    case Fire(j) =>
    case Sweep =>
    case Tick(to) =>
  }

  // --------------------------------------------------------------- counters, timers

  /**
   The counters: a success on trial and a sweep of a stored entry start them again, any other result
   counts one request, a failed one also a failure, and nothing else changes them.
   */
  lemma CountersAfter(s: State, e: Event, i: nat)
    requires Inv(s) && Enabled(s, e) && i < |s.entries|
    ensures var x, y := s.entries[i], Step(s, e).entries[i];
            if TrialSucceeds(s, e, i) || (e.Sweep? && Stored(s, i)) then y.count == 0 && y.failures == 0
            else if Counted(s, e, i) then
              y.count == x.count + 1 && y.failures == x.failures + if e.FailCall? then 1 else 0
            else y.count == x.count && y.failures == x.failures
  {
    match e
    case Call(ep, opts, _) => RequestStep(s, ep, opts, OnEnter);
    case Succeed(ep, opts) =>
      RequestStep(s, ep, opts, OnSuccess);
      if s.entries[i].state != HalfOpenWait { SuccessMoves(s.entries[i]); }
    case FailCall(ep, opts) =>
      RequestStep(s, ep, opts, OnFailure);
      FailureMoves(s.entries[i]);
    case Fire(j) =>
    case Sweep => assert EntryOk(s.entries[i]);
    case Tick(to) =>
  }

  /**
   The timer: an entry that opens or goes on trial is due its half-open time later, or a millisecond
   later if that is less; one that closes or half-opens has none; otherwise the timer stays.
   */
  lemma TimerAfterStep(s: State, e: Event, i: nat)
    requires Inv(s) && Enabled(s, e) && i < |s.entries|
    ensures var x, y := s.entries[i], Step(s, e).entries[i];
            if y.state == x.state then y.timer == x.timer
            else if y.state == Opened || y.state == HalfOpenWait then
              && y.timer.Armed? && y.timer.order == s.clock.armings
              && y.timer.due == s.clock.now + if x.opts.halfOpenTime < 1 then 1 else x.opts.halfOpenTime
            else y.timer == Off
  {
    match e
    case Call(ep, opts, _) => RequestStep(s, ep, opts, OnEnter);
    case Succeed(ep, opts) =>
      RequestStep(s, ep, opts, OnSuccess);
      if s.entries[i].state != HalfOpenWait { SuccessMoves(s.entries[i]); }
    case FailCall(ep, opts) =>
      RequestStep(s, ep, opts, OnFailure);
      FailureMoves(s.entries[i]);
    case Fire(j) => assert EntryOk(s.entries[j]);
    case Sweep =>
    case Tick(to) =>
  }

  // ------------------------------------------------------------- entries, endpoints

  /** Entries keep their endpoint and options; a request to a name without an entry adds one for itself. */
  lemma EntriesKept(s: State, e: Event)
    requires Inv(s) && Enabled(s, e)
    ensures var t := Step(s, e);
            && (forall i | 0 <= i < |s.entries| ::
                  i < |t.entries| && t.entries[i].ep == s.entries[i].ep && t.entries[i].opts == s.entries[i].opts)
            && |t.entries| == |s.entries| + (if About(e) && e.ep.name !in s.store then 1 else 0)
            && (About(e) && e.ep.name !in s.store ==>
                  && t.entries[|s.entries|].ep == e.ep && t.entries[|s.entries|].opts == e.opts
                  && t.store == s.store[e.ep.name := |s.entries|])
  {
    match e
    case Call(ep, opts, _) => RequestStep(s, ep, opts, OnEnter);
    case Succeed(ep, opts) =>
      RequestStep(s, ep, opts, OnSuccess);
      var x := EntryBefore(s, ep, opts, EntryOf(s, ep));
      if x.state != HalfOpenWait { SuccessMoves(x); }
    case FailCall(ep, opts) =>
      RequestStep(s, ep, opts, OnFailure);
      FailureMoves(EntryBefore(s, ep, opts, EntryOf(s, ep)));
    case Fire(j) =>
    case Sweep =>
    case Tick(to) =>
  }

  predicate About(e: Event) { e.Call? || e.Succeed? || e.FailCall? }

  /** The entry at position i is in another state after the step. */
  ghost predicate Changes(s: State, t: State, i: nat) {
    i < |t.entries| && t.entries[i].state != if i < |s.entries| then s.entries[i].state else Closed
  }

  predicate Disables(x: Entry) { x.state == Opened || x.state == HalfOpenWait }

  /** A step changes the state of one entry at most. */
  lemma OneChanges(s: State, e: Event, i: nat)
    requires Inv(s) && Enabled(s, e) && Changes(s, Step(s, e), i)
    ensures match e
            case Fire(j) => i == j
            case Sweep => false
            case Tick(_) => false
            case _ => i == EntryOf(s, e.ep)
  {
    match e
    case Call(ep, opts, _) => RequestStep(s, ep, opts, OnEnter);
    case Succeed(ep, opts) => RequestStep(s, ep, opts, OnSuccess);
    case FailCall(ep, opts) => RequestStep(s, ep, opts, OnFailure);
    case Fire(j) =>
    case Sweep =>
    case Tick(to) =>
  }

  lemma RequestSwitches(s: State, ep: Endpoint, opts: Options, move: Entry -> Move)
    requires Inv(s) && (move == OnEnter || move == OnSuccess || move == OnFailure)
    ensures var i, t := EntryOf(s, ep), StepOn(s, ep, opts, move);
            var x, y := EntryBefore(s, ep, opts, i), t.entries[i];
            t.down == if y.state == x.state then s.down
                      else if Disables(y) then s.down + {x.ep} else s.down - {x.ep}
  {
    var i := EntryOf(s, ep);
    var x := EntryBefore(s, ep, opts, i);
    RequestStep(s, ep, opts, move);
    FailureMoves(x);
    if x.state != HalfOpenWait { SuccessMoves(x); }
  }

  /**
   An endpoint is disabled exactly when a circuit of it opens or goes on trial, and enabled exactly
   when a circuit of it closes or half-opens.
   */
  lemma SwitchedIff(s: State, e: Event, i: nat)
    requires Inv(s) && Enabled(s, e) && Changes(s, Step(s, e), i)
    ensures var x, t := Step(s, e).entries[i], Step(s, e);
            t.down == if Disables(x) then s.down + {x.ep} else s.down - {x.ep}
  {
    OneChanges(s, e, i);
    EntriesKept(s, e);
    match e
    case Call(ep, opts, _) => RequestSwitches(s, ep, opts, OnEnter);
    case Succeed(ep, opts) => RequestSwitches(s, ep, opts, OnSuccess);
    case FailCall(ep, opts) => RequestSwitches(s, ep, opts, OnFailure);
    case Fire(j) =>
  }

  lemma NoSwitchWithoutChange(s: State, e: Event)
    requires Inv(s) && Enabled(s, e) && forall i: nat :: !Changes(s, Step(s, e), i)
    ensures Step(s, e).down == s.down
  {
    match e
    case Call(ep, opts, _) =>
      RequestSwitches(s, ep, opts, OnEnter);
      RequestStep(s, ep, opts, OnEnter);
      assert !Changes(s, Step(s, e), EntryOf(s, ep));
    case Succeed(ep, opts) =>
      RequestSwitches(s, ep, opts, OnSuccess);
      RequestStep(s, ep, opts, OnSuccess);
      assert !Changes(s, Step(s, e), EntryOf(s, ep));
    case FailCall(ep, opts) =>
      RequestSwitches(s, ep, opts, OnFailure);
      RequestStep(s, ep, opts, OnFailure);
      assert !Changes(s, Step(s, e), EntryOf(s, ep));
    case Fire(j) =>
      assert EntryOk(s.entries[j]);
      assert Changes(s, Step(s, e), j);
    case Sweep =>
    case Tick(to) =>
  }

  /** The sweep forgets the entries without requests and is due again a window later; it switches nothing. */
  lemma SweepForgetsUnused(s: State)
    requires Inv(s) && Enabled(s, Sweep)
    ensures var t := Step(s, Sweep);
            && (forall n :: n in t.store <==> n in s.store && s.entries[s.store[n]].count > 0)
            && (forall n | n in t.store :: t.store[n] == s.store[n])
            && t.down == s.down && t.clock.now == s.clock.now && t.clock.sweepDue == s.clock.now + s.clock.window
  {
  }
}
