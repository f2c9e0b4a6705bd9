/**
 The circuit breaker of action endpoints. Entries live in a store keyed by endpoint name, but the
 window sweep may drop an entry whose timer is still armed: such an entry goes on switching the
 `state` of the endpoint object it was created for. Times are in milliseconds.
 */
module CircuitBreaker {
  import opened Prelude
  import Balancer

  /** An endpoint object; re-registration creates a new object under the same name. */
  datatype Endpoint = Endpoint(name: string, object: nat)

  datatype Options = Options(minRequestCount: nat, threshold: real, halfOpenTime: nat)

  /** A timer takes at least a millisecond. */
  function Delay(o: Options): nat { if o.halfOpenTime < 1 then 1 else o.halfOpenTime }

  datatype Circuit = Closed | Opened | HalfOpen | HalfOpenWait

  /** When an armed timer is due, and its place in the order of arming. */
  datatype Timer = Off | Armed(due: nat, order: nat)

  datatype Entry = Entry(ep: Endpoint, opts: Options, count: nat, failures: nat, state: Circuit, timer: Timer)

  /** The time, the number of timers armed so far, when the next sweep is due, and the window between sweeps. */
  datatype Clock = Clock(now: nat, armings: nat, sweepDue: nat, window: nat)

  /**
   `entries` also holds the entries that were swept from the store; `down` are the endpoints whose
   state is false.
   */
  datatype State = State(store: map<string, nat>, entries: seq<Entry>, down: set<Endpoint>, clock: Clock)

  // -------------------------------------------------------------- moves of one entry

  /** The entry after a move, the value given to `ep.state`, if any, and what happens to the timer. */
  datatype Move = Move(entry: Entry, ep: Switch, timer: Arm)

  datatype Switch = Leave | Enable | Disable

  datatype Arm = Hold | Start | Clear

  function Trip(x: Entry): Move {
    if x.state == Opened then Move(x, Leave, Hold)
    else Move(x.(state := Opened), Disable, Start)
  }

  function ToHalfOpen(x: Entry): Move {
    Move(x.(state := HalfOpen), Enable, Clear)
  }

  function ToHalfOpenWait(x: Entry): Move {
    Move(x.(state := HalfOpenWait), Disable, Start)
  }

  function ToClosed(x: Entry): Move {
    Move(x.(state := Closed, count := 0, failures := 0), Enable, Clear)
  }

  predicate OverThreshold(x: Entry)
    requires x.count > 0
  {
    x.count >= x.opts.minRequestCount && x.failures as real / x.count as real >= x.opts.threshold
  }

  function CheckThreshold(x: Entry): Move
    requires x.count > 0
  {
    if OverThreshold(x) then Trip(x) else Move(x, Leave, Hold)
  }

  function OnSuccess(x: Entry): Move {
    var y := x.(count := x.count + 1);
    if y.state == HalfOpenWait then ToClosed(y) else CheckThreshold(y)
  }

  function OnFailure(x: Entry): Move {
    CheckThreshold(x.(count := x.count + 1, failures := x.failures + 1))
  }

  function OnEnter(x: Entry): Move {
    if x.state == HalfOpen then ToHalfOpenWait(x) else Move(x, Leave, Hold)
  }

  // ------------------------------------------------------------------ steps of the store

  predicate WellFormed(s: State) {
    forall n | n in s.store :: s.store[n] < |s.entries|
  }

  /** The stored entry of an endpoint, created closed if there is none. */
  function WithEntry(s: State, ep: Endpoint, opts: Options): State {
    if ep.name in s.store then s
    else State(s.store[ep.name := |s.entries|], s.entries + [Entry(ep, opts, 0, 0, Closed, Off)], s.down, s.clock)
  }

  function TimerAfter(c: Clock, m: Move): Timer {
    match m.timer
    case Hold => m.entry.timer
    case Start => Armed(c.now + Delay(m.entry.opts), c.armings)
    case Clear => Off
  }

  function Moved(c: Clock, m: Move): Entry {
    Entry(m.entry.ep, m.entry.opts, m.entry.count, m.entry.failures, m.entry.state, TimerAfter(c, m))
  }

  function ClockAfter(c: Clock, m: Move): Clock {
    if m.timer == Start then Clock(c.now, c.armings + 1, c.sweepDue, c.window) else c
  }

  function Apply(s: State, i: nat, m: Move): State
    requires i < |s.entries|
  {
    State(s.store, s.entries[i := Moved(s.clock, m)],
          if m.ep == Enable then s.down - {m.entry.ep}
          else if m.ep == Disable then s.down + {m.entry.ep}
          else s.down,
          ClockAfter(s.clock, m))
  }

  datatype Event =
    | Call(ep: Endpoint, opts: Options, routed: bool)  // a request enters the middleware
    | Succeed(ep: Endpoint, opts: Options)
    | FailCall(ep: Endpoint, opts: Options)
    | Fire(entry: nat)                                 // the timer of an entry, stored or swept
    | Sweep
    | Tick(to: nat)                                    // time passes

  predicate IsArmed(s: State, i: nat) { i < |s.entries| && s.entries[i].timer.Armed? }

  /** Timers with the same delay fire in the order of arming. */
  predicate FirstInLine(s: State, i: nat)
    requires IsArmed(s, i)
  {
    forall j: nat | j < |s.entries| && IsArmed(s, j) && Delay(s.entries[j].opts) == Delay(s.entries[i].opts) ::
      s.entries[i].timer.order <= s.entries[j].timer.order
  }

  /**
   A routed call comes from the balancer, which never picks a disabled endpoint
   (`Balancer.EndpointList.Next`). Timers are never early, and neither are sweeps.
   */
  predicate Enabled(s: State, e: Event) {
    match e
    case Call(ep, _, routed) => routed ==> ep !in s.down
    case Fire(i) => IsArmed(s, i) && s.entries[i].timer.due <= s.clock.now && FirstInLine(s, i)
    case Sweep => s.clock.sweepDue <= s.clock.now
    case Tick(to) => s.clock.now <= to
    case _ => true
  }

  /** The entry is the one its endpoint's name leads to. */
  predicate Stored(s: State, i: nat)
    requires i < |s.entries|
  {
    s.entries[i].ep.name in s.store && s.store[s.entries[i].ep.name] == i
  }

  /** The state after the sweep has visited the given names. */
  function SweptOf(s: State, names: set<string>): State
    requires WellFormed(s)
  {
    State(map n | n in s.store && !(n in names && s.entries[s.store[n]].count == 0) :: s.store[n],
          seq(|s.entries|, i requires 0 <= i < |s.entries| => SweptEntry(s, names, i)),
          s.down,
          Clock(s.clock.now, s.clock.armings, s.clock.now + s.clock.window, s.clock.window))
  }

  function SweptEntry(s: State, names: set<string>, i: nat): Entry
    requires i < |s.entries|
  {
    if Stored(s, i) && s.entries[i].ep.name in names && s.entries[i].count != 0
    then s.entries[i].(count := 0, failures := 0)
    else s.entries[i]
  }

  /** The entry of one name: deleted without requests, otherwise its counters restart. */
  function ResetOne(s: State, name: string): State
    requires WellFormed(s) && name in s.store
  {
    var i := s.store[name];
    if s.entries[i].count == 0 then State(s.store - {name}, s.entries, s.down, s.clock)
    else State(s.store, s.entries[i := s.entries[i].(count := 0, failures := 0)], s.down, s.clock)
  }

  /** Unused entries leave the store, the counters of the others restart. */
  function Swept(s: State): State
    requires WellFormed(s)
  {
    SweptOf(s, s.store.Keys)
  }

  function StepOn(s: State, ep: Endpoint, opts: Options, move: Entry -> Move): State
    requires WellFormed(s)
  {
    var t := WithEntry(s, ep, opts);
    Apply(t, t.store[ep.name], move(t.entries[t.store[ep.name]]))
  }

  function Ticked(s: State, to: nat): State {
    State(s.store, s.entries, s.down, Clock(to, s.clock.armings, s.clock.sweepDue, s.clock.window))
  }

  function Step(s: State, e: Event): (t: State)
    requires WellFormed(s) && Enabled(s, e)
    ensures WellFormed(t)
  {
    match e
    case Call(ep, opts, _) => StepOn(s, ep, opts, OnEnter)
    case Succeed(ep, opts) => StepOn(s, ep, opts, OnSuccess)
    case FailCall(ep, opts) => StepOn(s, ep, opts, OnFailure)
    case Fire(i) => Apply(s, i, ToHalfOpen(s.entries[i]))
    case Sweep => Swept(s)
    case Tick(to) => Ticked(s, to)
  }

  ghost predicate Run(s: State, es: seq<Event>, t: State)
    requires WellFormed(s)
    decreases |es|
  {
    if es == [] then s == t
    else Enabled(s, es[0]) && Run(Step(s, es[0]), es[1..], t)
  }

  function Empty(window: nat): State { State(map[], [], {}, Clock(0, 0, window, window)) }

  // ------------------------------------------------------------------ the invariant

  /** A timer is armed exactly in the two waiting states, and failures are counted requests. */
  ghost predicate EntryOk(x: Entry) {
    && (x.timer.Armed? <==> x.state == Opened || x.state == HalfOpenWait)
    && x.failures <= x.count
  }

  ghost predicate Basics(s: State) {
    && WellFormed(s)
    && (forall n | n in s.store :: s.entries[s.store[n]].ep.name == n)
    && (forall i | 0 <= i < |s.entries| :: EntryOk(s.entries[i]))
    && (forall ep | ep in s.down :: WillBeEnabled(s, ep))
  }

  /** Some entry, stored or swept, has an armed timer for this endpoint. */
  ghost predicate WillBeEnabled(s: State, ep: Endpoint) {
    exists i | 0 <= i < |s.entries| :: s.entries[i].ep == ep && s.entries[i].timer.Armed?
  }

  /** An armed timer was armed before now. */
  ghost predicate TimerOk(x: Entry, c: Clock) {
    x.timer.Armed? ==> x.timer.order < c.armings && x.timer.due <= c.now + Delay(x.opts)
  }

  /** Of two armed timers one was armed first, and it is due first if they have the same delay. */
  ghost predicate Before(x: Entry, y: Entry) {
    x.timer.Armed? && y.timer.Armed? ==>
      && x.timer.order != y.timer.order
      && (Delay(x.opts) == Delay(y.opts) && x.timer.order < y.timer.order ==> x.timer.due <= y.timer.due)
      && (Delay(x.opts) == Delay(y.opts) && x.timer.order > y.timer.order ==> x.timer.due >= y.timer.due)
  }

  /** Of two entries for one name the later one was armed later. */
  ghost predicate NewerLater(x: Entry, y: Entry) {
    x.timer.Armed? && y.timer.Armed? && x.ep.name == y.ep.name ==> x.timer.order < y.timer.order
  }

  ghost predicate Timed(entries: seq<Entry>, c: Clock) {
    && (forall i | 0 <= i < |entries| :: TimerOk(entries[i], c))
    && (forall i, j | 0 <= i < j < |entries| :: Before(entries[i], entries[j]) && NewerLater(entries[i], entries[j]))
  }

  /** The stored entry is the newest of its name. */
  ghost predicate Newest(store: map<string, nat>, entries: seq<Entry>) {
    forall j | 0 <= j < |entries| && entries[j].ep.name in store :: j <= store[entries[j].ep.name]
  }

  ghost predicate Inv(s: State) {
    Basics(s) && Timed(s.entries, s.clock) && Newest(s.store, s.entries)
  }

  /** What a move must do: keep the entry in order, and keep the timer while it leaves `ep.state` alone. */
  ghost predicate MoveOk(x: Entry, m: Move) {
    && m.entry.ep == x.ep && m.entry.opts == x.opts && m.entry.timer == x.timer
    && m.entry.failures <= m.entry.count
    && (m.timer == Start <==> m.ep == Disable) && (m.timer == Clear <==> m.ep == Enable)
    && (m.ep == Leave ==> m.entry.state == x.state)
    && (m.ep == Disable <==> m.timer == Start && (m.entry.state == Opened || m.entry.state == HalfOpenWait))
    && (m.ep == Enable ==> m.entry.state == Closed || m.entry.state == HalfOpen)
  }

  lemma MovesAreOk(x: Entry)
    requires EntryOk(x)
    ensures MoveOk(x, OnEnter(x)) && MoveOk(x, OnSuccess(x)) && MoveOk(x, OnFailure(x)) && MoveOk(x, ToHalfOpen(x))
  {
  }

  lemma ApplyKeepsBasics(s: State, i: nat, m: Move)
    requires Basics(s) && i < |s.entries| && MoveOk(s.entries[i], m)
    ensures Basics(Apply(s, i, m))
  {
    var t := Apply(s, i, m);
    forall ep | ep in t.down
      ensures WillBeEnabled(t, ep)
    {
      if ep == m.entry.ep && m.ep == Disable {
        assert t.entries[i].ep == ep && t.entries[i].timer.Armed?;
      } else {
        assert !(ep == m.entry.ep && m.ep == Enable);
        assert WillBeEnabled(s, ep);
        var j :| 0 <= j < |s.entries| && s.entries[j].ep == ep && s.entries[j].timer.Armed?;
        assert t.entries[j].ep == ep && t.entries[j].timer.Armed?;
      }
    }
  }

  lemma ApplyKeepsTimed(s: State, i: nat, m: Move)
    requires Timed(s.entries, s.clock) && i < |s.entries| && MoveOk(s.entries[i], m)
    requires m.timer == Start ==> forall j | 0 <= j < |s.entries| && s.entries[j].ep.name == s.entries[i].ep.name ::
          j <= i
    ensures var t := Apply(s, i, m); Timed(t.entries, t.clock)
  {
    var t, x := Apply(s, i, m), Moved(s.clock, m);
    forall j | 0 <= j < |t.entries|
      ensures TimerOk(t.entries[j], t.clock)
    {
      assert TimerOk(s.entries[j], s.clock);
    }
    forall j, k | 0 <= j < k < |t.entries|
      ensures Before(t.entries[j], t.entries[k]) && NewerLater(t.entries[j], t.entries[k])
    {
      assert Before(s.entries[j], s.entries[k]) && NewerLater(s.entries[j], s.entries[k]);
      assert TimerOk(s.entries[j], s.clock) && TimerOk(s.entries[k], s.clock);
    }
  }

  lemma ApplyKeepsInv(s: State, i: nat, m: Move)
    requires Inv(s) && i < |s.entries| && MoveOk(s.entries[i], m)
    requires m.timer == Start ==> Stored(s, i)
    ensures Inv(Apply(s, i, m))
  {
    ApplyKeepsBasics(s, i, m);
    ApplyKeepsTimed(s, i, m);
    var t := Apply(s, i, m);
    assert forall j | 0 <= j < |t.entries| :: t.entries[j].ep == s.entries[j].ep;
  }

  lemma WithEntryKeepsInv(s: State, ep: Endpoint, opts: Options)
    requires Inv(s)
    ensures Inv(WithEntry(s, ep, opts))
  {
    var t := WithEntry(s, ep, opts);
    forall e | e in t.down
      ensures WillBeEnabled(t, e)
    {
      assert WillBeEnabled(s, e);
      var j :| 0 <= j < |s.entries| && s.entries[j].ep == e && s.entries[j].timer.Armed?;
      assert t.entries[j] == s.entries[j];
    }
  }

  /** The same entries but for their counters. */
  ghost predicate SameTimers(a: seq<Entry>, b: seq<Entry>) {
    |a| == |b| && forall i | 0 <= i < |a| :: a[i].ep == b[i].ep && a[i].opts == b[i].opts && a[i].timer == b[i].timer
  }

  lemma SameTimersTimed(a: seq<Entry>, b: seq<Entry>, c: Clock, d: Clock)
    requires Timed(a, c) && SameTimers(a, b) && c.now <= d.now && c.armings == d.armings
    ensures Timed(b, d)
  {
    forall j | 0 <= j < |b|
      ensures TimerOk(b[j], d)
    {
      assert TimerOk(a[j], c);
    }
    forall j, k | 0 <= j < k < |b|
      ensures Before(b[j], b[k]) && NewerLater(b[j], b[k])
    {
      assert Before(a[j], a[k]) && NewerLater(a[j], a[k]);
    }
  }

  lemma SweepKeepsInv(s: State)
    requires Inv(s)
    ensures Inv(Swept(s))
  {
    var t := Swept(s);
    SameTimersTimed(s.entries, t.entries, s.clock, t.clock);
    forall e | e in t.down
      ensures WillBeEnabled(t, e)
    {
      assert WillBeEnabled(s, e);
      var j :| 0 <= j < |s.entries| && s.entries[j].ep == e && s.entries[j].timer.Armed?;
      assert t.entries[j].ep == e && t.entries[j].timer.Armed?;
    }
  }

  lemma TickKeepsInv(s: State, to: nat)
    requires Inv(s) && s.clock.now <= to
    ensures Inv(Ticked(s, to))
  {
    var t := Ticked(s, to);
    SameTimersTimed(s.entries, t.entries, s.clock, t.clock);
    forall e | e in t.down
      ensures WillBeEnabled(t, e)
    {
      assert WillBeEnabled(s, e);
    }
  }

  lemma StepOnKeepsInv(s: State, ep: Endpoint, opts: Options, move: Entry -> Move)
    requires Inv(s) && (move == OnEnter || move == OnSuccess || move == OnFailure)
    ensures Inv(StepOn(s, ep, opts, move))
  {
    var t := WithEntry(s, ep, opts);
    var x := t.entries[t.store[ep.name]];
    WithEntryKeepsInv(s, ep, opts);
    MovesAreOk(x);
    ApplyKeepsInv(t, t.store[ep.name], move(x));
  }

  lemma StepKeepsInv(s: State, e: Event)
    requires Inv(s) && Enabled(s, e)
    ensures Inv(Step(s, e))
  {
    match e
    case Fire(i) =>
      MovesAreOk(s.entries[i]);
      ApplyKeepsInv(s, i, ToHalfOpen(s.entries[i]));
    case Sweep => SweepKeepsInv(s);
    case Tick(to) => TickKeepsInv(s, to);
    case Call(ep, opts, _) => StepOnKeepsInv(s, ep, opts, OnEnter);
    case Succeed(ep, opts) => StepOnKeepsInv(s, ep, opts, OnSuccess);
    case FailCall(ep, opts) => StepOnKeepsInv(s, ep, opts, OnFailure);
  }

  lemma {:induction false} RunKeepsInv(s: State, es: seq<Event>, t: State)
    requires Inv(s) && Run(s, es, t)
    ensures Inv(t)
    decreases |es|
  {
    if es != [] {
      StepKeepsInv(s, es[0]);
      RunKeepsInv(Step(s, es[0]), es[1..], t);
    }
  }

  // --------------------------------------------------------- no endpoint is lost

  function ArmedSet(s: State): set<nat> { set i: nat | i < |s.entries| && IsArmed(s, i) }

  lemma {:induction false} FirstOfLine(s: State, i: nat) returns (j: nat)
    requires Inv(s) && IsArmed(s, i)
    ensures IsArmed(s, j) && FirstInLine(s, j) && Delay(s.entries[j].opts) == Delay(s.entries[i].opts)
    ensures s.entries[j].timer.due <= s.entries[i].timer.due
    decreases s.entries[i].timer.order
  {
    if FirstInLine(s, i) {
      j := i;
    } else {
      var k: nat :| k < |s.entries| && IsArmed(s, k) && Delay(s.entries[k].opts) == Delay(s.entries[i].opts)
        && s.entries[k].timer.order < s.entries[i].timer.order;
      assert if k < i then Before(s.entries[k], s.entries[i]) else Before(s.entries[i], s.entries[k]);
      j := FirstOfLine(s, k);
    }
  }

  /** Firing the timers ahead of a due one, and then the timer itself. */
  lemma {:induction false} FireUntil(s: State, i: nat) returns (es: seq<Event>, t: State)
    requires Inv(s) && IsArmed(s, i) && s.entries[i].timer.due <= s.clock.now
    ensures Run(s, es, t) && (forall e <- es :: e.Fire?)
    ensures s.entries[i].ep !in t.down && t.clock == s.clock
    decreases |ArmedSet(s)|
  {
    var j := FirstOfLine(s, i);
    var u := Step(s, Fire(j));
    StepKeepsInv(s, Fire(j));
    if j == i {
      es, t := [Fire(i)], u;
      assert es[1..] == [];
    } else {
      assert ArmedSet(u) == ArmedSet(s) - {j} && j in ArmedSet(s);
      var rest;
      rest, t := FireUntil(u, i);
      es := [Fire(j)] + rest;
      assert es[1..] == rest;
    }
  }

  /**
   No endpoint is disabled forever: in every reachable state a disabled endpoint has an armed timer,
   of a stored or swept entry, and when nothing but time passes and timers fire the endpoint is
   enabled again within that entry's delay.
   */
  lemma NoEndpointDisabledForever(window: nat, es: seq<Event>, s: State, ep: Endpoint)
    returns (i: nat, fs: seq<Event>, t: State)
    requires Run(Empty(window), es, s) && ep in s.down
    ensures IsArmed(s, i) && s.entries[i].ep == ep
    ensures s.entries[i].state == Opened || s.entries[i].state == HalfOpenWait
    ensures WellFormed(s) && Run(s, fs, t) && forall e <- fs :: e.Tick? || e.Fire?
    ensures ep !in t.down && t.clock.now <= s.clock.now + Delay(s.entries[i].opts)
  {
    RunKeepsInv(Empty(window), es, s);
    assert WillBeEnabled(s, ep);
    i :| 0 <= i < |s.entries| && s.entries[i].ep == ep && s.entries[i].timer.Armed?;
    assert EntryOk(s.entries[i]) && TimerOk(s.entries[i], s.clock);
    var due := s.entries[i].timer.due;
    var to := if due < s.clock.now then s.clock.now else due;
    TickKeepsInv(s, to);
    var rest;
    rest, t := FireUntil(Ticked(s, to), i);
    fs := [Tick(to)] + rest;
    assert fs[1..] == rest;
  }

  /** Every trip happens with enough requests and a failure rate at or above the threshold. */
  lemma TripsAreJustified(s: State, e: Event, i: nat)
    requires Inv(s) && Enabled(s, e) && i < |Step(s, e).entries|
    requires Step(s, e).entries[i].state == Opened && !(i < |s.entries| && s.entries[i].state == Opened)
    ensures
      var x := Step(s, e).entries[i];
      x.count >= x.opts.minRequestCount && x.count > 0 && x.failures as real / x.count as real >= x.opts.threshold
    ensures e.Succeed? || e.FailCall?
  {
  }

  // ------------------------------------------------- the breaker together with the balancer

  function RoutedTo(ep: Endpoint, es: seq<Event>): nat {
    if es == [] then 0
    else (if es[0].Call? && es[0].routed && es[0].ep == ep then 1 else 0) + RoutedTo(ep, es[1..])
  }

  /** Entry i stays in the store and makes no move to Closed, Opened or HalfOpen during the run. */
  ghost predicate StaysPut(s: State, i: nat, es: seq<Event>)
    requires WellFormed(s) && i < |s.entries|
    decreases |es|
  {
    es == [] ||
    (&& Enabled(s, es[0])
     && var t := Step(s, es[0]);
     && i < |t.entries|
     && (t.entries[i].ep.name in t.store && t.store[t.entries[i].ep.name] == i)
     && (t.entries[i].state == s.entries[i].state || t.entries[i].state == HalfOpenWait)
     && StaysPut(t, i, es[1..]))
  }

  /** The stored entry i of endpoint ep is half open. */
  ghost predicate HalfOpened(s: State, i: nat, ep: Endpoint) {
    && WellFormed(s) && i < |s.entries|
    && s.entries[i].ep == ep && s.entries[i].state == HalfOpen
    && ep.name in s.store && s.store[ep.name] == i
  }

  ghost predicate NoOtherTimer(s: State, i: nat, ep: Endpoint) {
    forall j | 0 <= j < |s.entries| && j != i && s.entries[j].ep == ep :: !s.entries[j].timer.Armed?
  }

  /** Entry i guards ep: it is half open, or it waits for the trial request and ep is disabled. */
  ghost predicate Guards(s: State, i: nat, ep: Endpoint) {
    && Inv(s) && i < |s.entries| && s.entries[i].ep == ep
    && ep.name in s.store && s.store[ep.name] == i
    && NoOtherTimer(s, i, ep)
    && (s.entries[i].state == HalfOpen || (s.entries[i].state == HalfOpenWait && ep in s.down))
  }

  /** A move of the guarding entry itself. */
  lemma OwnMoveKeepsGuard(s: State, i: nat, ep: Endpoint, move: Entry -> Move)
    requires Guards(s, i, ep) && (move == OnEnter || move == OnSuccess || move == OnFailure)
    requires var t := Apply(s, i, move(s.entries[i]));
             Inv(t) && (t.entries[i].state == s.entries[i].state || t.entries[i].state == HalfOpenWait)
    ensures var t := Apply(s, i, move(s.entries[i]));
            Guards(t, i, ep) && (t.entries[i].state == HalfOpen ==> s.entries[i].state == HalfOpen && move != OnEnter)
  {
    var x, t := s.entries[i], Apply(s, i, move(s.entries[i]));
    assert forall j | 0 <= j < |t.entries| && j != i :: t.entries[j] == s.entries[j];
    if x.state == HalfOpen && move == OnEnter {
      assert t.entries[i].state == HalfOpenWait && ep in t.down;
    }
  }

  /** A move of an entry with another name. */
  lemma OtherMoveKeepsGuard(s: State, k: nat, m: Move, i: nat, ep: Endpoint)
    requires Guards(s, i, ep) && k < |s.entries| && k != i && s.entries[k].ep.name != ep.name
    requires MoveOk(s.entries[k], m) && Inv(Apply(s, k, m))
    ensures Guards(Apply(s, k, m), i, ep) && Apply(s, k, m).entries[i] == s.entries[i]
  {
  }

  lemma WithEntryKeepsGuard(s: State, e: Endpoint, opts: Options, i: nat, ep: Endpoint)
    requires Guards(s, i, ep) && e.name != ep.name
    ensures var t := WithEntry(s, e, opts); Guards(t, i, ep) && t.entries[i] == s.entries[i]
  {
    WithEntryKeepsInv(s, e, opts);
  }

  lemma FireKeepsGuard(s: State, j: nat, i: nat, ep: Endpoint)
    requires Guards(s, i, ep) && Enabled(s, Fire(j)) && j != i
    ensures Guards(Step(s, Fire(j)), i, ep) && Step(s, Fire(j)).entries[i] == s.entries[i]
  {
    StepKeepsInv(s, Fire(j));
    assert s.entries[j].ep != ep;
  }

  lemma StepOnKeepsGuard(s: State, e: Endpoint, opts: Options, move: Entry -> Move, i: nat, ep: Endpoint)
    requires Guards(s, i, ep) && (move == OnEnter || move == OnSuccess || move == OnFailure)
    requires var t := StepOn(s, e, opts, move);
             i < |t.entries| && (t.entries[i].state == s.entries[i].state || t.entries[i].state == HalfOpenWait)
    ensures var t := StepOn(s, e, opts, move);
            && Guards(t, i, ep)
            && (t.entries[i].state == HalfOpen ==> s.entries[i].state == HalfOpen && !(move == OnEnter && e == ep))
  {
    StepOnKeepsInv(s, e, opts, move);
    if e.name == ep.name {
      OwnMoveKeepsGuard(s, i, ep, move);
    } else {
      var u := WithEntry(s, e, opts);
      var k := u.store[e.name];
      WithEntryKeepsGuard(s, e, opts, i, ep);
      MovesAreOk(u.entries[k]);
      OtherMoveKeepsGuard(u, k, move(u.entries[k]), i, ep);
    }
  }

  lemma SweepKeepsGuard(s: State, i: nat, ep: Endpoint)
    requires Guards(s, i, ep) && Stored(Swept(s), i)
    ensures Guards(Swept(s), i, ep) && Swept(s).entries[i].state == s.entries[i].state
  {
    SweepKeepsInv(s);
  }

  lemma StepKeepsGuard(s: State, e: Event, i: nat, ep: Endpoint)
    requires Guards(s, i, ep) && StaysPut(s, i, [e])
    ensures Guards(Step(s, e), i, ep)
    ensures Step(s, e).entries[i].state == HalfOpen ==> s.entries[i].state == HalfOpen && !(e.Call? && e.ep == ep)
  {
    match e
    case Fire(j) => FireKeepsGuard(s, j, i, ep);
    case Sweep => SweepKeepsGuard(s, i, ep);
    case Tick(to) => TickKeepsInv(s, to);
    case Call(p, opts, _) => StepOnKeepsGuard(s, p, opts, OnEnter, i, ep);
    case Succeed(p, opts) => StepOnKeepsGuard(s, p, opts, OnSuccess, i, ep);
    case FailCall(p, opts) => StepOnKeepsGuard(s, p, opts, OnFailure, i, ep);
  }

  lemma {:induction false} GuardedRoutes(s: State, i: nat, ep: Endpoint, es: seq<Event>)
    requires Guards(s, i, ep) && StaysPut(s, i, es)
    ensures RoutedTo(ep, es) <= if s.entries[i].state == HalfOpen then 1 else 0
    decreases |es|
  {
    if es != [] {
      assert StaysPut(s, i, [es[0]]);
      StepKeepsGuard(s, es[0], i, ep);
      GuardedRoutes(Step(s, es[0]), i, ep, es[1..]);
    }
  }

  // ------------------------------------------------------ one delay, one trial request

  /** The options used for an endpoint have one of the delays. */
  predicate UsesDelays(e: Event, ep: Endpoint, delays: set<nat>) {
    (e.Call? || e.Succeed? || e.FailCall?) && e.ep == ep ==> Delay(e.opts) in delays
  }

  /** While the stored entry of the endpoint is half open, no other entry has a timer for it. */
  ghost predicate Alone(s: State, ep: Endpoint, delay: nat)
    requires WellFormed(s)
  {
    && (forall j | 0 <= j < |s.entries| && s.entries[j].ep == ep :: Delay(s.entries[j].opts) == delay)
    && (ep.name in s.store && s.entries[s.store[ep.name]].ep == ep && s.entries[s.store[ep.name]].state == HalfOpen
        ==> NoOtherTimer(s, s.store[ep.name], ep))
  }

  lemma WithEntryKeepsAlone(s: State, e: Endpoint, opts: Options, ep: Endpoint, delay: nat)
    requires Inv(s) && Alone(s, ep, delay) && (e == ep ==> Delay(opts) == delay)
    ensures Alone(WithEntry(s, e, opts), ep, delay)
  {
  }

  /** A move of a stored entry that does not make it half open. */
  lemma ApplyKeepsAlone(s: State, i: nat, m: Move, ep: Endpoint, delay: nat)
    requires Inv(s) && Alone(s, ep, delay) && i < |s.entries| && Stored(s, i) && MoveOk(s.entries[i], m)
    requires m.entry.state == HalfOpen ==> s.entries[i].state == HalfOpen
    ensures Alone(Apply(s, i, m), ep, delay)
  {
  }

  /** The first in line has no older entry of its name and delay with a timer. */
  lemma OlderIsNotArmed(s: State, i: nat, j: nat)
    requires Inv(s) && IsArmed(s, i) && FirstInLine(s, i) && j < i
    requires s.entries[j].ep.name == s.entries[i].ep.name && Delay(s.entries[j].opts) == Delay(s.entries[i].opts)
    ensures !s.entries[j].timer.Armed?
  {
    assert NewerLater(s.entries[j], s.entries[i]);
    assert IsArmed(s, j) <==> s.entries[j].timer.Armed?;
  }

  /** The timer that makes the stored entry half open is the last one armed for its endpoint. */
  lemma FireKeepsAlone(s: State, i: nat, ep: Endpoint, delay: nat)
    requires Inv(s) && Alone(s, ep, delay) && Enabled(s, Fire(i))
    ensures Alone(Step(s, Fire(i)), ep, delay)
  {
    var t := Step(s, Fire(i));
    if s.entries[i].ep == ep && Stored(s, i) {
      forall j | 0 <= j < |t.entries| && j != i && t.entries[j].ep == ep
        ensures !t.entries[j].timer.Armed?
      {
        assert j < i;
        OlderIsNotArmed(s, i, j);
      }
    }
  }

  lemma StepOnKeepsAlone(s: State, e: Endpoint, opts: Options, move: Entry -> Move, ep: Endpoint, delay: nat)
    requires Inv(s) && Alone(s, ep, delay) && (e == ep ==> Delay(opts) == delay)
    requires move == OnEnter || move == OnSuccess || move == OnFailure
    ensures Alone(StepOn(s, e, opts, move), ep, delay)
  {
    var u := WithEntry(s, e, opts);
    var i := u.store[e.name];
    WithEntryKeepsInv(s, e, opts);
    WithEntryKeepsAlone(s, e, opts, ep, delay);
    MovesAreOk(u.entries[i]);
    ApplyKeepsAlone(u, i, move(u.entries[i]), ep, delay);
  }

  lemma SweepKeepsAlone(s: State, ep: Endpoint, delay: nat)
    requires Inv(s) && Alone(s, ep, delay)
    ensures Alone(Swept(s), ep, delay)
  {
  }

  lemma StepKeepsAlone(s: State, e: Event, ep: Endpoint, delay: nat)
    requires Inv(s) && Alone(s, ep, delay) && Enabled(s, e) && UsesDelays(e, ep, {delay})
    ensures Alone(Step(s, e), ep, delay)
  {
    match e
    case Fire(i) => FireKeepsAlone(s, i, ep, delay);
    case Sweep => SweepKeepsAlone(s, ep, delay);
    case Tick(_) =>
    case Call(p, opts, _) => StepOnKeepsAlone(s, p, opts, OnEnter, ep, delay);
    case Succeed(p, opts) => StepOnKeepsAlone(s, p, opts, OnSuccess, ep, delay);
    case FailCall(p, opts) => StepOnKeepsAlone(s, p, opts, OnFailure, ep, delay);
  }

  lemma {:induction false} RunKeepsAlone(s: State, es: seq<Event>, t: State, ep: Endpoint, delay: nat)
    requires Inv(s) && Alone(s, ep, delay) && Run(s, es, t) && forall e <- es :: UsesDelays(e, ep, {delay})
    ensures Inv(t) && Alone(t, ep, delay)
    decreases |es|
  {
    if es != [] {
      assert es[0] in es && forall e | e in es[1..] :: e in es;
      StepKeepsInv(s, es[0]);
      StepKeepsAlone(s, es[0], ep, delay);
      RunKeepsAlone(Step(s, es[0]), es[1..], t, ep, delay);
    }
  }

  /**
   One trial request: with a single delay for an endpoint, in every reachable state with a
   half-opened entry at most one routed request reaches the endpoint before the entry moves on or
   is swept, whatever else happens.
   */
  lemma OneDelayOneTrial(window: nat, past: seq<Event>, s: State, i: nat, ep: Endpoint, delay: nat, es: seq<Event>)
    requires Run(Empty(window), past, s) && forall e <- past :: UsesDelays(e, ep, {delay})
    requires HalfOpened(s, i, ep) && StaysPut(s, i, es)
    ensures NoOtherTimer(s, i, ep) && RoutedTo(ep, es) <= 1
  {
    RunKeepsAlone(Empty(window), past, s, ep, delay);
    GuardedRoutes(s, i, ep, es);
  }

  // --------------------------------------------------------------------- the class

  class Breaker {
    var store: map<string, nat>
    var entries: seq<Entry>
    var down: set<Endpoint>
    var clock: Clock

    function View(): State
      reads this
    {
      State(store, entries, down, clock)
    }

    constructor (window: nat)
      ensures View() == Empty(window) && Inv(View())
    {
      store, entries, down := map[], [], {};
      clock := Clock(0, 0, window, window);
    }

    method Elapse(to: nat)
      requires Inv(View()) && clock.now <= to
      modifies this
      ensures View() == Step(old(View()), Tick(to))
      ensures Inv(View())
    {
      TickKeepsInv(View(), to);
      clock := Clock(to, clock.armings, clock.sweepDue, clock.window);
    }

    /** The timer of an entry is set. */
    method SetTimer(i: nat)
      requires i < |entries|
      modifies this
      ensures store == old(store) && down == old(down)
      ensures var x, c := old(entries[i]), old(clock);
              entries == old(entries)[i := x.(timer := Armed(c.now + Delay(x.opts), c.armings))]
      ensures clock == Clock(old(clock).now, old(clock).armings + 1, old(clock).sweepDue, old(clock).window)
    {
      entries := entries[i := entries[i].(timer := Armed(clock.now + Delay(entries[i].opts), clock.armings))];
      clock := Clock(clock.now, clock.armings + 1, clock.sweepDue, clock.window);
    }

    method GetEpState(ep: Endpoint, opts: Options) returns (i: nat)
      requires Inv(View())
      modifies this
      ensures View() == WithEntry(old(View()), ep, opts) && Inv(View())
      ensures i < |entries| && ep.name in store && i == store[ep.name]
    {
      ghost var before := View();
      if ep.name !in store {
        store := store[ep.name := |entries|];
        entries := entries + [Entry(ep, opts, 0, 0, Closed, Off)];
      }
      i := store[ep.name];
      WithEntryKeepsInv(before, ep, opts);
    }

    method DoTrip(i: nat)
      requires i < |entries|
      modifies this
      ensures View() == Apply(old(View()), i, Trip(old(entries[i])))
    {
      var item := entries[i];
      if item.state == Opened {
        return;
      }
      entries := entries[i := item.(state := Opened)];
      down := down + {item.ep};
      SetTimer(i);
    }

    method DoCheckThreshold(i: nat)
      requires i < |entries| && entries[i].count > 0
      modifies this
      ensures View() == Apply(old(View()), i, CheckThreshold(old(entries[i])))
    {
      var item := entries[i];
      if item.count >= item.opts.minRequestCount {
        var rate := item.failures as real / item.count as real;
        if rate >= item.opts.threshold {
          DoTrip(i);
        }
      }
    }

    method CircuitClose(i: nat)
      requires i < |entries|
      modifies this
      ensures View() == Apply(old(View()), i, ToClosed(old(entries[i])))
    {
      var item := entries[i].(state := Closed);
      down := down - {item.ep};
      item := item.(failures := 0, count := 0);
      entries := entries[i := item.(timer := Off)];
    }

    /** One more request is counted, and one more failure if it failed. */
    method CountRequest(i: nat, failed: bool)
      requires i < |entries|
      modifies this`entries
      ensures var x := old(entries[i]);
              entries == old(entries)[i := x.(count := x.count + 1, failures := x.failures + if failed then 1 else 0)]
    {
      var item := entries[i];
      item := item.(count := item.count + 1);
      if failed {
        item := item.(failures := item.failures + 1);
      }
      entries := entries[i := item];
    }

    method Failure(ep: Endpoint, opts: Options)
      requires Inv(View())
      modifies this
      ensures View() == Step(old(View()), FailCall(ep, opts))
      ensures Inv(View())
    {
      StepKeepsInv(View(), FailCall(ep, opts));
      var i := GetEpState(ep, opts);
      ghost var s := View();
      CountRequest(i, true);
      ApplyOver(s, i, entries[i], CheckThreshold(entries[i]));
      DoCheckThreshold(i);
    }

    method Success(ep: Endpoint, opts: Options)
      requires Inv(View())
      modifies this
      ensures View() == Step(old(View()), Succeed(ep, opts))
      ensures Inv(View())
    {
      StepKeepsInv(View(), Succeed(ep, opts));
      var i := GetEpState(ep, opts);
      ghost var s := View();
      CountRequest(i, false);
      if entries[i].state == HalfOpenWait {
        ApplyOver(s, i, entries[i], ToClosed(entries[i]));
        CircuitClose(i);
      } else {
        ApplyOver(s, i, entries[i], CheckThreshold(entries[i]));
        DoCheckThreshold(i);
      }
    }

    method TimerFires(i: nat)
      requires Inv(View()) && Enabled(View(), Fire(i))
      modifies this
      ensures View() == Step(old(View()), Fire(i))
      ensures Inv(View())
    {
      StepKeepsInv(View(), Fire(i));
      var item := entries[i].(state := HalfOpen);
      down := down - {item.ep};
      entries := entries[i := item.(timer := Off)];
    }

    method Enter(ep: Endpoint, opts: Options, routed: bool)
      requires Inv(View()) && (routed ==> ep !in down)
      modifies this
      ensures View() == Step(old(View()), Call(ep, opts, routed))
      ensures Inv(View())
    {
      StepKeepsInv(View(), Call(ep, opts, routed));
      var i := GetEpState(ep, opts);
      var item := entries[i];
      if item.state == HalfOpen {
        DoHalfOpenWait(i);
      }
    }

    method DoHalfOpenWait(i: nat)
      requires i < |entries|
      modifies this
      ensures View() == Apply(old(View()), i, ToHalfOpenWait(old(entries[i])))
    {
      var item := entries[i];
      entries := entries[i := item.(state := HalfOpenWait)];
      down := down + {item.ep};
      SetTimer(i);
    }

    /** A balanced call: the list's balancer picks an endpoint, the middleware is entered with it. */
    method CallBalanced(
        list: Balancer.EndpointList<Endpoint>, opts: Options, preferLocal: bool) returns (r: Option<Endpoint>)
      requires Inv(View()) && list.Valid()
      modifies this, list.strategy
      ensures Inv(View())
      ensures r.Some? ==> r.value in list.endpoints && r.value !in old(down)
      ensures r.Some? ==> View() == Step(old(View()), Call(r.value, opts, true))
      ensures r.None? ==> View() == old(View())
    {
      r := list.Next(down, preferLocal);
      if r.Some? {
        Enter(r.value, opts, true);
      }
    }

    method ResetStore()
      requires Inv(View()) && clock.sweepDue <= clock.now
      modifies this
      ensures View() == Step(old(View()), Sweep)
      ensures Inv(View())
    {
      StepKeepsInv(View(), Sweep);
      ghost var before := View();
      ghost var done: set<string> := {};
      var todo := store.Keys;
      clock := Clock(clock.now, clock.armings, clock.now + clock.window, clock.window);
      SweepNothing(before);
      while todo != {}
        invariant done + todo == before.store.Keys && done !! todo
        invariant View() == SweptOf(before, done)
        decreases todo
      {
        var key :| key in todo;
        SweepOneMore(before, done, key);
        ResetEntry(key);
        todo := todo - {key};
        done := done + {key};
      }
      assert done == before.store.Keys;
    }

    /** One round of the sweep. */
    method ResetEntry(key: string)
      requires WellFormed(View()) && key in store
      modifies this
      ensures View() == ResetOne(old(View()), key)
    {
      var i := store[key];
      if entries[i].count == 0 {
        store := store - {key};
      } else {
        entries := entries[i := entries[i].(count := 0, failures := 0)];
      }
    }
  }

  lemma ApplyOver(s: State, i: nat, x: Entry, m: Move)
    requires i < |s.entries|
    ensures Apply(State(s.store, s.entries[i := x], s.down, s.clock), i, m) == Apply(s, i, m)
  {
    assert s.entries[i := x][i := Moved(s.clock, m)] == s.entries[i := Moved(s.clock, m)];
  }

  lemma SweepNothing(s: State)
    requires WellFormed(s)
    ensures var t := SweptOf(s, {}); t.entries == s.entries && t.store == s.store && t.down == s.down
  {
  }

  lemma SweepOneMore(s: State, done: set<string>, key: string)
    requires Inv(s) && key in s.store && key !in done
    ensures WellFormed(SweptOf(s, done)) && key in SweptOf(s, done).store
    ensures ResetOne(SweptOf(s, done), key) == SweptOf(s, done + {key})
  {
    var t, u, i := SweptOf(s, done), SweptOf(s, done + {key}), s.store[key];
    assert s.entries[i].ep.name == key && t.entries[i] == s.entries[i];
    assert forall j | 0 <= j < |s.entries| && j != i :: u.entries[j] == t.entries[j];
    SweptStore(s, done, key);
    assert ResetOne(t, key).entries == u.entries;
  }

  lemma SweptStore(s: State, done: set<string>, key: string)
    requires WellFormed(s) && key in s.store && key !in done
    ensures SweptOf(s, done + {key}).store ==
              if s.entries[s.store[key]].count == 0 then SweptOf(s, done).store - {key} else SweptOf(s, done).store
  {
  }
}
