/** Requests under the cache lock come to an end: bounded steps, no deadlock, and what a waiter ends with. */
module SingleFlightProgress {
  import opened Prelude
  import opened Locks
  import opened SingleFlight

  /** How many steps a process has still to do, at most. */
  function Rank(pc: Pc): nat {
    match pc
    case Looked(_, _) => 11  // leads to Got, and may start a refresher
    case Got(_) => 6
    case Waiting => 5
    case Granted => 4
    case Checked(_) => 3
    case Running => 2
    case Unlocking(_) => 1
    case Done(_) => 0
  }

  ghost function WorkOf(procs: map<Pid, Proc>, ps: set<Pid>): nat
    requires ps <= procs.Keys
    decreases ps
  {
    if ps == {} then 0
    else
      var p :| p in ps;
      Rank(procs[p].pc) + WorkOf(procs, ps - {p})
  }

  ghost function Work(procs: map<Pid, Proc>): nat { WorkOf(procs, procs.Keys) }

  lemma {:induction false} WorkOfOne(procs: map<Pid, Proc>, ps: set<Pid>, p: Pid)
    requires ps <= procs.Keys && p in ps
    ensures WorkOf(procs, ps) == Rank(procs[p].pc) + WorkOf(procs, ps - {p})
    decreases ps
  {
    var q :| q in ps && WorkOf(procs, ps) == Rank(procs[q].pc) + WorkOf(procs, ps - {q});
    if p != q {
      WorkOfOne(procs, ps - {q}, p);
      WorkOfOne(procs, ps - {p}, q);
      assert ps - {q} - {p} == ps - {p} - {q};
    }
  }

  lemma {:induction false} WorkOfOthers(procs: map<Pid, Proc>, p: Pid, x: Proc, ps: set<Pid>)
    requires ps <= procs.Keys && p !in ps
    ensures WorkOf(procs[p := x], ps) == WorkOf(procs, ps)
    decreases ps
  {
    if ps != {} {
      var q :| q in ps;
      WorkOfOne(procs, ps, q);
      WorkOfOne(procs[p := x], ps, q);
      WorkOfOthers(procs, p, x, ps - {q});
    }
  }

  /** The work of all processes but one. */
  ghost function Rest(procs: map<Pid, Proc>, p: Pid): nat { WorkOf(procs, procs.Keys - {p}) }

  lemma WorkSet(procs: map<Pid, Proc>, p: Pid, x: Proc)
    ensures Work(procs[p := x]) == Rest(procs, p) + Rank(x.pc)
    ensures p in procs ==> Work(procs) == Rest(procs, p) + Rank(procs[p].pc)
    ensures p !in procs ==> Work(procs) == Rest(procs, p)
  {
    var after := procs[p := x];
    WorkOfOne(after, after.Keys, p);
    assert after.Keys - {p} == procs.Keys - {p};
    WorkOfOthers(procs, p, x, procs.Keys - {p});
    if p in procs {
      WorkOfOne(procs, procs.Keys, p);
    } else {
      assert procs.Keys - {p} == procs.Keys;
    }
  }

  predicate Internal(e: Event) { e.Continue? || e.HandlerOk? || e.HandlerErr? }

  predicate Arrival(e: Event) { e.Arrive? || e.ArriveStale? }

  lemma LockWork(l: Locking, p: Pid)
    requires p in l.procs && l.procs[p].pc.Got?
    ensures Work(AskLock(l, p).procs) < Work(l.procs)
  {
    WorkSet(l.procs, p, AskLock(l, p).procs[p]);
  }

  lemma UnlockWork(l: Locking, p: Pid, o: Outcome)
    requires p in l.procs && Holds(l.procs[p].pc) && HeadWaits(l, l.procs[p].key)
    ensures Work(Unlock(l, p, o).procs) < Work(l.procs)
  {
    var x := Proc(l.procs[p].key, l.procs[p].refresher, Done(o));
    WorkSet(l.procs, p, x);
    var next := HandedTo(l.table, x.key);
    if next.Some? {
      WorkSet(l.procs[p := x], next.value, Unlock(l, p, o).procs[next.value]);
    }
  }

  lemma LookWork(l: Locking, p: Pid, q: Pid)
    requires p in l.procs && l.procs[p].pc.Looked? && q !in l.procs
    ensures Work(AfterLook(l, p, q).procs) < Work(l.procs)
  {
    var x := Proc(l.procs[p].key, l.procs[p].refresher, Got(l.procs[p].pc.data));
    WorkSet(l.procs, p, x);
    WorkSet(l.procs[p := x], q, Proc(x.key, true, Granted));
  }

  lemma SetPcWork(l: Locking, p: Pid, pc: Pc)
    requires p in l.procs && Rank(pc) < Rank(l.procs[p].pc)
    ensures Work(SetPc(l, p, pc).procs) < Work(l.procs)
  {
    WorkSet(l.procs, p, Proc(l.procs[p].key, l.procs[p].refresher, pc));
  }

  lemma ContinueWork(s: State, p: Pid, q: Pid)
    requires Inv(s.l) && Enabled(s, Continue(p, q))
    ensures Work(Next(s, p, q).procs) < Work(s.l.procs)
  {
    var l := s.l;
    HeadsWait(l, l.procs[p].key);
    match l.procs[p].pc
    case Looked(_, _) => LookWork(l, p, q);
    case Got(d) => if d != s.missing { SetPcWork(l, p, Done(Hit(d))); } else { LockWork(l, p); }
    case Granted =>
      SetPcWork(l, p, if l.procs[p].refresher then Running else Checked(ReadAnswer(s, l.procs[p].key)));
    case Checked(d) => if NonNull(d) { UnlockWork(l, p, Hit(d)); } else { SetPcWork(l, p, Running); }
    case Unlocking(o) => UnlockWork(l, p, o);
  }

  lemma StepWork(s: State, e: Event)
    requires Inv(s.l) && Enabled(s, e)
    ensures Internal(e) ==> Work(Step(s, e).l.procs) < Work(s.l.procs)
    ensures Arrival(e) ==> Work(Step(s, e).l.procs) <= Work(s.l.procs) + 11
    ensures !Internal(e) && !Arrival(e) ==> Work(Step(s, e).l.procs) == Work(s.l.procs)
  {
    match e
    case Arrive(p, k) => WorkSet(s.l.procs, p, Step(s, e).l.procs[p]);
    case ArriveStale(p, k, _, _) => WorkSet(s.l.procs, p, Step(s, e).l.procs[p]);
    case Continue(p, q) => ContinueWork(s, p, q);
    case HandlerOk(p, result) =>
      SetPcWork(s.l, p, Unlocking(if s.l.procs[p].refresher then Refreshed else Computed(result)));
    case HandlerErr(p) =>
      HeadsWait(s.l, s.l.procs[p].key);
      if s.l.procs[p].refresher { SetPcWork(s.l, p, Unlocking(Refreshed)); } else { UnlockWork(s.l, p, Failed); }
    case _ =>
  }

  function CountOf(es: seq<Event>, f: Event -> bool): nat {
    if es == [] then 0 else (if f(es[0]) then 1 else 0) + CountOf(es[1..], f)
  }

  /** Processes cannot go on for ever: each arrival pays for at most eleven steps. */
  lemma {:induction false} StepsAreBounded(s: State, es: seq<Event>, t: State)
    requires Inv(s.l) && Run(s, es, t)
    ensures CountOf(es, Internal) + Work(t.l.procs) <= Work(s.l.procs) + 11 * CountOf(es, Arrival)
    decreases |es|
  {
    if es != [] {
      StepWork(s, es[0]);
      StepKeepsInv(s, es[0]);
      StepsAreBounded(Step(s, es[0]), es[1..], t);
    }
  }

  /** No process can continue and no handler is executing. */
  ghost predicate Quiet(s: State) {
    forall p | p in s.l.procs :: s.l.procs[p].pc.Waiting? || s.l.procs[p].pc.Done?
  }

  lemma QuietMeansDone(s: State)
    requires Inv(s.l) && Quiet(s)
    ensures s.l.table == map[] && forall p | p in s.l.procs :: s.l.procs[p].pc.Done?
  {
    assert forall k :: !Held(s.l.procs, k);
    assert forall k | k in s.l.table :: Held(s.l.procs, k);
    assert s.l.table.Keys == {};
  }

  /** No deadlock: in every reachable state in which nobody can step, all are done and no key is locked. */
  lemma NoDeadlock(missing: Data, cache: map<Key, Entry>, es: seq<Event>, t: State)
    requires Run(Init(missing, cache), es, t) && Quiet(t)
    ensures t.l.table == map[] && forall p | p in t.l.procs :: t.l.procs[p].pc.Done?
  {
    assert Inv(Init(missing, cache).l);
    RunKeepsInv(Init(missing, cache), es, t);
    QuietMeansDone(t);
  }

  lemma {:induction false} FreshPid(ps: set<Pid>) returns (q: Pid)
    ensures forall p | p in ps :: p < q
    decreases |ps|
  {
    if ps == {} {
      q := 0;
    } else {
      var p :| p in ps;
      var r := FreshPid(ps - {p});
      assert forall x | x in ps :: x == p || x in ps - {p};
      q := if p < r then r else p + 1;
    }
  }

  /** A state is quiet if and only if no process can step. */
  lemma QuietIff(s: State)
    ensures Quiet(s) <==> forall e | Internal(e) :: !Enabled(s, e)
  {
    if !Quiet(s) {
      var p :| p in s.l.procs && !s.l.procs[p].pc.Waiting? && !s.l.procs[p].pc.Done?;
      var q := FreshPid(s.l.procs.Keys);
      var e := if s.l.procs[p].pc.Running? then HandlerErr(p) else Continue(p, q);
      assert Internal(e) && Enabled(s, e);
    }
  }

  /** The waiter of `FollowersHitTheCache` does end, in every run that goes on until nobody can step. */
  lemma FollowersEnd(s: State, es: seq<Event>, p: Pid, k: Key, vs: set<int>, t: State)
    requires Inv(s.l) && Follows(s.l.procs, p, k, vs) && StaysCached(s, es, k, vs) && Run(s, es, t) && Quiet(t)
    ensures p in t.l.procs && exists v <- vs :: t.l.procs[p].pc == Done(Hit(Val(v)))
  {
    FollowersHitTheCache(s, es, p, k, vs, t);
    RunKeepsInv(s, es, t);
    QuietMeansDone(t);
    var o := t.l.procs[p].pc.outcome;
    assert o.data.v in vs && t.l.procs[p].pc == Done(Hit(Val(o.data.v)));
  }
}
