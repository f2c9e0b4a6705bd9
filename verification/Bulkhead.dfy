/**
 The bulkhead: at most `concurrency` handler calls run at a time, further ones wait in a queue.
 Calls are numbered in order of arrival.
 */
module Bulkhead {
  type Id = nat

  /** What a handler's promise ends with. */
  datatype Outcome = Resolved(value: string) | Rejected(error: string)

  /** A queue limit of 0 means none. */
  datatype Limits = Limits(concurrency: nat, maxQueue: nat)

  datatype State = State(
    inFlight: int,
    queue: seq<Id>,
    calls: nat,                 // calls made so far
    refused: set<Id>,           // calls turned away
    started: seq<Id>,           // handlers started, in order
    running: set<Id>,
    settled: map<Id, Outcome>)

  datatype Event = Arrive | Finish(id: Id, outcome: Outcome)

  function Initial(): State { State(0, [], 0, {}, [], {}, map[]) }

  function Arrival(s: State, l: Limits): State {
    var id := s.calls;
    if s.inFlight < l.concurrency then
      State(s.inFlight + 1, s.queue, id + 1, s.refused, s.started + [id], s.running + {id}, s.settled)
    else if l.maxQueue != 0 && |s.queue| >= l.maxQueue then
      State(s.inFlight, s.queue, id + 1, s.refused + {id}, s.started, s.running, s.settled)
    else
      State(s.inFlight, s.queue + [id], id + 1, s.refused, s.started, s.running, s.settled)
  }

  /** Starts the head of the queue when there is room. */
  function StartNext(s: State, l: Limits): State {
    if s.queue == [] || s.inFlight >= l.concurrency then s
    else State(s.inFlight + 1, s.queue[1..], s.calls, s.refused, s.started + [s.queue[0]], s.running + {s.queue[0]},
        s.settled)
  }

  function Finished(s: State, id: Id, o: Outcome): State {
    State(s.inFlight - 1, s.queue, s.calls, s.refused, s.started, s.running - {id}, s.settled[id := o])
  }

  /** Only a running handler can finish. */
  predicate Possible(s: State, e: Event) { e.Finish? ==> e.id in s.running }

  function Step(s: State, l: Limits, e: Event): State {
    match e
    case Arrive => Arrival(s, l)
    case Finish(id, o) => StartNext(Finished(s, id, o), l)
  }

  function Run(s: State, l: Limits, es: seq<Event>): State
    decreases |es|
  {
    if es == [] then s else Run(Step(s, l, es[0]), l, es[1..])
  }

  ghost predicate Feasible(s: State, l: Limits, es: seq<Event>)
    decreases |es|
  {
    es == [] || (Possible(s, es[0]) && Feasible(Step(s, l, es[0]), l, es[1..]))
  }

  // -------------------------------------------------------------------- the invariant

  ghost predicate Increasing(xs: seq<Id>) {
    forall i, j | 0 <= i < j < |xs| :: xs[i] < xs[j]
  }

  /** The limits hold, and a call waits only while every place is taken. */
  ghost predicate Limited(s: State, l: Limits) {
    && s.inFlight == |s.running| && s.inFlight <= l.concurrency
    && (l.maxQueue != 0 ==> |s.queue| <= l.maxQueue)
    && (s.queue != [] ==> s.inFlight == l.concurrency)
  }

  /** The calls started and then those waiting are the accepted calls in order of arrival. */
  ghost predicate InOrder(s: State) {
    Increasing(s.started + s.queue)
  }

  /** Every call is refused, waiting, running or settled, and only one of these. */
  ghost predicate Accounted(s: State) {
    && (forall id: Id :: id in s.started <==> id in s.running || id in s.settled)
    && (forall id: Id :: id in s.running ==> id !in s.settled)
    && (forall id: Id :: id < s.calls <==> id in s.started || id in s.queue || id in s.refused)
    && (forall id: Id :: id in s.refused ==> id !in s.started && id !in s.queue)
  }

  ghost predicate Inv(s: State, l: Limits) {
    Limited(s, l) && InOrder(s) && Accounted(s)
  }

  lemma ArrivalInOrder(s: State, l: Limits)
    requires Inv(s, l)
    ensures InOrder(Arrival(s, l))
  {
    var id, t, all := s.calls, Arrival(s, l), s.started + s.queue;
    forall i | 0 <= i < |all|
      ensures all[i] < id
    {
      assert all[i] in s.started || all[i] in s.queue;
    }
    assert Increasing(all + [id]);
    if s.inFlight < l.concurrency {
      assert t.started + t.queue == all + [id];
    } else if !(l.maxQueue != 0 && |s.queue| >= l.maxQueue) {
      assert t.started + t.queue == all + [id];
    }
  }

  lemma ArrivalAccounted(s: State, l: Limits)
    requires Accounted(s)
    ensures Accounted(Arrival(s, l))
  {
  }

  lemma ArrivalKeepsInv(s: State, l: Limits)
    requires Inv(s, l)
    ensures Inv(Arrival(s, l), l)
  {
    ArrivalInOrder(s, l);
    ArrivalAccounted(s, l);
    assert s.calls !in s.running;
  }

  lemma FinishedAccounted(s: State, id: Id, o: Outcome)
    requires Accounted(s) && id in s.running
    ensures Accounted(Finished(s, id, o))
  {
  }

  lemma StartNextAccounted(s: State, l: Limits)
    requires Accounted(s) && InOrder(s)
    ensures Accounted(StartNext(s, l)) && InOrder(StartNext(s, l))
  {
    if s.queue != [] && s.inFlight < l.concurrency {
      var t, id := StartNext(s, l), s.queue[0];
      assert s.queue == [id] + s.queue[1..];
      assert t.started + t.queue == s.started + s.queue;
      assert forall x :: x in s.queue <==> x == id || x in t.queue;
      HeadNotStarted(s.started, s.queue);
    }
  }

  lemma HeadNotStarted(started: seq<Id>, queue: seq<Id>)
    requires Increasing(started + queue) && queue != []
    ensures queue[0] !in started
  {
    forall i | 0 <= i < |started|
      ensures started[i] != queue[0]
    {
      assert (started + queue)[i] < (started + queue)[|started|];
    }
  }

  lemma FinishKeepsLimits(s: State, l: Limits, id: Id, o: Outcome)
    requires Inv(s, l) && id in s.running
    ensures Limited(StartNext(Finished(s, id, o), l), l)
  {
    var f := Finished(s, id, o);
    assert |f.running| == |s.running| - 1;
    if f.queue != [] {
      HeadNotStarted(s.started, s.queue);
      assert f.queue[0] !in f.running;
    }
  }

  lemma StepKeepsInv(s: State, l: Limits, e: Event)
    requires Inv(s, l) && Possible(s, e)
    ensures Inv(Step(s, l, e), l)
  {
    match e
    case Arrive => ArrivalKeepsInv(s, l);
    case Finish(id, o) =>
      FinishedAccounted(s, id, o);
      StartNextAccounted(Finished(s, id, o), l);
      FinishKeepsLimits(s, l, id, o);
  }

  /** In every state of every run the limits hold, calls start in order of arrival and none is lost. */
  lemma {:induction false} AlwaysWithinLimits(s: State, l: Limits, es: seq<Event>)
    requires Inv(s, l) && Feasible(s, l, es)
    ensures Inv(Run(s, l, es), l)
    decreases |es|
  {
    if es != [] {
      StepKeepsInv(s, l, es[0]);
      AlwaysWithinLimits(Step(s, l, es[0]), l, es[1..]);
    }
  }

  // ------------------------------------------------------------- who is let in, and who not

  /** Every place is taken and the queue, which has a limit, is full. */
  ghost predicate Full(s: State, l: Limits) {
    |s.running| == l.concurrency && l.maxQueue > 0 && |s.queue| == l.maxQueue
  }

  /** The event at position i is the arrival of the call. */
  ghost predicate ArrivesAt(s: State, l: Limits, es: seq<Event>, i: nat, id: Id) {
    i < |es| && es[i].Arrive? && Run(s, l, es[..i]).calls == id
  }

  /** An arriving call starts if a place is free, is refused if everything is full, and waits otherwise. */
  lemma ArrivalDecides(s: State, l: Limits)
    requires Inv(s, l)
    ensures var id, t := s.calls, Arrival(s, l);
            && (id in t.running <==> |s.running| < l.concurrency)
            && (id in t.refused <==> Full(s, l))
            && (id in t.queue <==> |s.running| == l.concurrency && !Full(s, l))
            && t.calls == id + 1
  {
    assert s.calls !in s.running && s.calls !in s.refused && s.calls !in s.queue;
  }

  lemma StepRefuses(s: State, l: Limits, e: Event, id: Id)
    requires Inv(s, l) && Possible(s, e)
    ensures id in Step(s, l, e).refused <==> id in s.refused || (e.Arrive? && id == s.calls && Full(s, l))
  {
    if e.Arrive? { ArrivalDecides(s, l); }
  }

  lemma RunShift(s: State, l: Limits, es: seq<Event>, i: nat)
    requires i < |es|
    ensures Run(s, l, es[..i + 1]) == Run(Step(s, l, es[0]), l, es[1..][..i])
  {
    assert es[..i + 1][0] == es[0] && es[..i + 1][1..] == es[1..][..i];
  }

  ghost predicate RefusedAt(s: State, l: Limits, es: seq<Event>, i: nat, id: Id) {
    ArrivesAt(s, l, es, i, id) && Full(Run(s, l, es[..i]), l)
  }

  /** A call is refused if and only if everything was full when it arrived. */
  lemma {:induction false} RefusedIff(s: State, l: Limits, es: seq<Event>, id: Id)
    requires Inv(s, l) && Feasible(s, l, es)
    ensures id in Run(s, l, es).refused <==> id in s.refused || exists i: nat :: RefusedAt(s, l, es, i, id)
    decreases |es|
  {
    if es != [] {
      var t := Step(s, l, es[0]);
      StepKeepsInv(s, l, es[0]);
      StepRefuses(s, l, es[0], id);
      RefusedIff(t, l, es[1..], id);
      assert es[..0] == [] && Run(s, l, es[..0]) == s;
      if i: nat :| RefusedAt(t, l, es[1..], i, id) {
        RunShift(s, l, es, i);
        assert RefusedAt(s, l, es, i + 1, id);
      }
      if i: nat :| RefusedAt(s, l, es, i, id) && i > 0 {
        RunShift(s, l, es, i - 1);
        assert RefusedAt(t, l, es[1..], i - 1, id);
      }
      assert es[0].Arrive? && id == s.calls && Full(s, l) <==> RefusedAt(s, l, es, 0, id);
    }
  }

  // --------------------------------------------------------------------- settlement

  lemma StepSettles(s: State, l: Limits, e: Event, id: Id)
    requires Inv(s, l) && Possible(s, e)
    ensures var t := Step(s, l, e).settled;
            if e.Finish? && e.id == id then id in t && t[id] == e.outcome
            else (id in t <==> id in s.settled) && (id in t ==> t[id] == s.settled[id])
  {
  }

  /** A call is settled with an outcome if and only if its handler finished with that outcome. */
  lemma {:induction false} SettledIff(s: State, l: Limits, es: seq<Event>, id: Id, o: Outcome)
    requires Inv(s, l) && Feasible(s, l, es)
    ensures Outcomes(Run(s, l, es), id, o) <==> Outcomes(s, id, o) || Finish(id, o) in es
    decreases |es|
  {
    if es != [] {
      var t := Step(s, l, es[0]);
      StepKeepsInv(s, l, es[0]);
      StepSettles(s, l, es[0], id);
      SettledIff(t, l, es[1..], id, o);
      InTail(es, Finish(id, o));
      if es[0].Finish? && es[0].id == id { assert id !in s.settled; }
    }
  }

  ghost predicate Outcomes(s: State, id: Id, o: Outcome) { id in s.settled && s.settled[id] == o }

  lemma InTail(es: seq<Event>, e: Event)
    requires es != []
    ensures e in es <==> e == es[0] || e in es[1..]
  {
    assert es == [es[0]] + es[1..];
  }

  /** A settled call stays settled with the same outcome, whatever follows. */
  lemma {:induction false} SettledOnce(s: State, l: Limits, es: seq<Event>, id: Id)
    requires Inv(s, l) && Feasible(s, l, es) && id in s.settled
    ensures var t := Run(s, l, es); id in t.settled && t.settled[id] == s.settled[id]
    decreases |es|
  {
    if es != [] {
      StepKeepsInv(s, l, es[0]);
      SettledOnce(Step(s, l, es[0]), l, es[1..], id);
    }
  }

  predicate OnlyFinishes(es: seq<Event>) { forall e <- es :: e.Finish? }

  function Unsettled(s: State): nat { |s.running| + |s.queue| }

  /** Each finish brings the number of unsettled calls down by one. */
  lemma FinishIsProgress(s: State, l: Limits, e: Event)
    requires Inv(s, l) && e.Finish? && Possible(s, e)
    ensures Unsettled(Step(s, l, e)) == Unsettled(s) - 1
  {
    var f := Finished(s, e.id, e.outcome);
    assert |f.running| == |s.running| - 1;
    if f.queue != [] {
      HeadNotStarted(s.started, s.queue);
      assert f.queue[0] !in f.running;
    }
  }

  /**
   No call is left waiting: however the running handlers finish, after as many finishes as there
   are unsettled calls every accepted call is settled; and while one is unsettled some handler is running.
   */
  lemma {:induction false} EveryAcceptedCallSettles(s: State, l: Limits, es: seq<Event>)
    requires Inv(s, l) && l.concurrency > 0 && Feasible(s, l, es) && OnlyFinishes(es)
    ensures |es| <= Unsettled(s) && Unsettled(Run(s, l, es)) == Unsettled(s) - |es|
    ensures var t := Run(s, l, es);
            && (|es| < Unsettled(s) ==> t.running != {})
            && (|es| == Unsettled(s) ==> forall id: Id | id < t.calls && id !in t.refused :: id in t.settled)
    decreases |es|
  {
    if es != [] {
      assert es[0] in es && forall e | e in es[1..] :: e in es;
      StepKeepsInv(s, l, es[0]);
      FinishIsProgress(s, l, es[0]);
      EveryAcceptedCallSettles(Step(s, l, es[0]), l, es[1..]);
    } else if Unsettled(s) == 0 {
      assert s.running == {} && s.queue == [];
    }
  }

  // ------------------------------------------------------------------ as the code runs

  class Bulkhead {
    const limits: Limits
    var queue: seq<Id>
    var inFlight: int
    ghost var calls: nat
    ghost var refused: set<Id>
    ghost var started: seq<Id>
    ghost var running: set<Id>
    ghost var settled: map<Id, Outcome>

    ghost function View(): State
      reads this
    {
      State(inFlight, queue, calls, refused, started, running, settled)
    }

    constructor (limits: Limits)
      ensures this.limits == limits && View() == Initial() && Inv(View(), limits)
    {
      this.limits := limits;
      queue, inFlight := [], 0;
      calls, refused, started, running, settled := 0, {}, [], {}, map[];
      new;
      assert started + queue == [];
    }

    /** A call arrives; the result says whether it was turned away because the queue is full. */
    method Call(id: Id) returns (full: bool)
      requires Inv(View(), limits) && id == calls
      modifies this
      ensures View() == Arrival(old(View()), limits)
      ensures Inv(View(), limits)
      ensures full <==> id in refused
    {
      ArrivalKeepsInv(View(), limits);
      calls := calls + 1;
      full := false;
      if inFlight < limits.concurrency {
        inFlight := inFlight + 1;
        started, running := started + [id], running + {id};
      } else if limits.maxQueue != 0 && |queue| >= limits.maxQueue {
        full := true;
        refused := refused + {id};
      } else {
        queue := queue + [id];
      }
    }

    method CallNext()
      modifies this
      ensures View() == StartNext(old(View()), limits)
    {
      if |queue| == 0 { return; }
      if inFlight >= limits.concurrency { return; }
      var item := queue[0];
      queue := queue[1..];
      inFlight := inFlight + 1;
      started, running := started + [item], running + {item};
    }

    /** A handler's promise settles. */
    method Done(id: Id, o: Outcome)
      requires Inv(View(), limits) && id in running
      modifies this
      ensures View() == Step(old(View()), limits, Finish(id, o))
      ensures Inv(View(), limits)
      ensures id in settled && settled[id] == o
    {
      StepKeepsInv(View(), limits, Finish(id, o));
      inFlight := inFlight - 1;
      running, settled := running - {id}, settled[id := o];
      CallNext();
    }
  }
}
