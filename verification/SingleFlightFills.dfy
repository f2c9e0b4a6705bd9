/**
 What requests under the cache lock answer: with the entry they find, with what their own handler
 returns, or with what another request has just stored. Runs are restricted by their events only.
 */
module SingleFlightFills {
  import opened Prelude
  import opened Locks
  import opened SingleFlight
  import opened SingleFlightProgress

  // ------------------------------------------------------------- what a read answers

  /** The event is the result of a handler that was called for the key. */
  ghost predicate ResultFor(s: State, e: Event, k: Key) {
    (e.HandlerOk? || e.HandlerErr?) && e.p in s.l.procs && s.l.procs[e.p].key == k
  }

  /**
   What a read of a key answers changes only when a handler called for it answers, when a refresh of it
   fails, when it is written, removed or expires, and when a stale hit prolongs an entry.
   */
  lemma AnswerAfter(s: State, e: Event, k: Key)
    requires Enabled(s, e)
    ensures ReadAnswer(Step(s, e), k) ==
              match e
              case HandlerOk(p, r) => if s.l.procs[p].key == k then r else ReadAnswer(s, k)
              case HandlerErr(p) =>
                if s.l.procs[p].key == k && s.l.procs[p].refresher then s.missing else ReadAnswer(s, k)
              case Put(j, d) => if j == k then d else ReadAnswer(s, k)
              case Evict(j) => if j == k then s.missing else ReadAnswer(s, k)
              case Expire(j) => if j == k then s.missing else ReadAnswer(s, k)
              case ArriveStale(_, j, _, extend) =>
                if j == k && extend && k in s.cache then s.cache[k].data else ReadAnswer(s, k)
              case _ => ReadAnswer(s, k)
  {
  }

  // ---------------------------------------------------- waiting behind a cache fill

  /** The event leaves the entry of k in place, or puts one of the values there. */
  ghost predicate Harmless(s: State, e: Event, k: Key, vs: set<int>) {
    match e
    case Expire(j) => j != k
    case Evict(j) => j != k
    case Put(j, d) => j == k ==> OneOf(d, vs)
    case HandlerOk(_, r) => ResultFor(s, e, k) ==> OneOf(r, vs)
    case HandlerErr(p) => ResultFor(s, e, k) ==> !s.l.procs[p].refresher
    case _ => true
  }

  ghost predicate HarmlessRun(s: State, es: seq<Event>, k: Key, vs: set<int>, t: State)
    decreases |es|
  {
    if es == [] then s == t
    else Enabled(s, es[0]) && Harmless(s, es[0], k, vs) && HarmlessRun(Step(s, es[0]), es[1..], k, vs, t)
  }

  lemma StepKeepsCached(s: State, e: Event, k: Key, vs: set<int>)
    requires Enabled(s, e) && Harmless(s, e, k, vs) && Cached(s.cache, k, vs)
    ensures Cached(Step(s, e).cache, k, vs)
  {
  }

  lemma {:induction false} HarmlessKeepsCached(s: State, es: seq<Event>, k: Key, vs: set<int>, t: State)
    requires Cached(s.cache, k, vs) && HarmlessRun(s, es, k, vs, t)
    ensures StaysCached(s, es, k, vs) && Run(s, es, t)
    decreases |es|
  {
    if es != [] {
      StepKeepsCached(s, es[0], k, vs);
      HarmlessKeepsCached(Step(s, es[0]), es[1..], k, vs, t);
    }
  }

  lemma FillIsCached(s: State, p: Pid, w: Pid, k: Key, v: int, vs: set<int>)
    requires Inv(s.l) && p in s.l.procs && s.l.procs[p].key == k && s.l.procs[p].pc == Running
    requires w in s.l.procs && s.l.procs[w] == Proc(k, false, Waiting) && v in vs
    ensures var t := Step(s, HandlerOk(p, Val(v)));
            Inv(t.l) && Cached(t.cache, k, vs) && Follows(t.l.procs, w, k, vs)
  {
    StepKeepsInv(s, HandlerOk(p, Val(v)));
  }

  /**
   A handler answers with a value while another request waits for the lock of the same key. In every
   run after that in which no event takes the entry away or replaces it by something else, the waiting
   request never calls its handler; once nobody can step it has ended as a hit with that value, or
   with one of those that replaced it.
   */
  lemma WaiterHitsTheFill(
      s: State, p: Pid, w: Pid, k: Key, v: int, vs: set<int>, es: seq<Event>, t: State)
    requires Inv(s.l) && p in s.l.procs && s.l.procs[p].key == k && s.l.procs[p].pc == Running
    requires w in s.l.procs && s.l.procs[w] == Proc(k, false, Waiting) && v in vs
    requires HarmlessRun(Step(s, HandlerOk(p, Val(v))), es, k, vs, t)
    ensures w in t.l.procs && t.l.procs[w].pc != Running
    ensures Quiet(t) ==> exists u <- vs :: t.l.procs[w].pc == Done(Hit(Val(u)))
    ensures Quiet(t) && vs == {v} ==> t.l.procs[w].pc == Done(Hit(Val(v)))
  {
    var s1 := Step(s, HandlerOk(p, Val(v)));
    FillIsCached(s, p, w, k, v, vs);
    HarmlessKeepsCached(s1, es, k, vs, t);
    FollowersHitTheCache(s1, es, w, k, vs, t);
    if Quiet(t) { FollowersEnd(s1, es, w, k, vs, t); }
  }

  /** Refreshers take the lock when it is free or give up; they never wait for it. */
  ghost predicate NoRefresherWaits(procs: map<Pid, Proc>) {
    forall p | p in procs && procs[p].refresher :: Holds(procs[p].pc) || procs[p].pc.Done?
  }

  lemma UnlockKeepsRefreshers(l: Locking, p: Pid, o: Outcome)
    requires Inv(l) && p in l.procs && NoRefresherWaits(l.procs)
    ensures NoRefresherWaits(Unlock(l, p, o).procs)
  {
    HeadsWait(l, l.procs[p].key);
  }

  lemma SetKeepsRefreshers(procs: map<Pid, Proc>, p: Pid, x: Proc)
    requires NoRefresherWaits(procs) && (x.refresher ==> Holds(x.pc) || x.pc.Done?)
    ensures NoRefresherWaits(procs[p := x])
  {
  }

  lemma LookKeepsRefreshers(l: Locking, p: Pid, q: Pid)
    requires p in l.procs && l.procs[p].pc.Looked? && NoRefresherWaits(l.procs)
    ensures NoRefresherWaits(AfterLook(l, p, q).procs)
  {
    var x := Proc(l.procs[p].key, l.procs[p].refresher, Got(l.procs[p].pc.data));
    SetKeepsRefreshers(l.procs, p, x);
    SetKeepsRefreshers(l.procs[p := x], q, Proc(x.key, true, Granted));
  }

  lemma GotKeepsRefreshers(l: Locking, p: Pid, missing: Data)
    requires p in l.procs && l.procs[p].pc.Got? && NoRefresherWaits(l.procs)
    ensures NoRefresherWaits(AfterGot(l, p, missing).procs)
  {
    SetKeepsRefreshers(l.procs, p, AfterGot(l, p, missing).procs[p]);
  }

  lemma CheckKeepsRefreshers(l: Locking, p: Pid)
    requires Inv(l) && p in l.procs && l.procs[p].pc.Checked? && NoRefresherWaits(l.procs)
    ensures NoRefresherWaits(AfterCheck(l, p).procs)
  {
    UnlockKeepsRefreshers(l, p, Hit(l.procs[p].pc.content));
    SetKeepsRefreshers(l.procs, p, Proc(l.procs[p].key, l.procs[p].refresher, Running));
  }

  lemma ContinueKeepsRefreshers(s: State, p: Pid, q: Pid)
    requires Inv(s.l) && NoRefresherWaits(s.l.procs) && Enabled(s, Continue(p, q))
    ensures NoRefresherWaits(Next(s, p, q).procs)
  {
    match s.l.procs[p].pc
    case Looked(_, _) => LookKeepsRefreshers(s.l, p, q);
    case Got(_) => GotKeepsRefreshers(s.l, p, s.missing);
    case Granted => SetKeepsRefreshers(s.l.procs, p, Next(s, p, q).procs[p]);
    case Checked(_) => CheckKeepsRefreshers(s.l, p);
    case Unlocking(o) => UnlockKeepsRefreshers(s.l, p, o);
  }

  lemma StepKeepsRefreshers(s: State, e: Event)
    requires Inv(s.l) && NoRefresherWaits(s.l.procs) && Enabled(s, e)
    ensures NoRefresherWaits(Step(s, e).l.procs)
  {
    match e
    case Continue(p, q) => ContinueKeepsRefreshers(s, p, q);
    case HandlerErr(p) => UnlockKeepsRefreshers(s.l, p, Failed);
    case _ =>
  }

  lemma {:induction false} RunKeepsRefreshers(s: State, es: seq<Event>, t: State)
    requires Inv(s.l) && NoRefresherWaits(s.l.procs) && Run(s, es, t)
    ensures Inv(t.l) && NoRefresherWaits(t.l.procs)
    decreases |es|
  {
    if es != [] {
      StepKeepsInv(s, es[0]);
      StepKeepsRefreshers(s, es[0]);
      RunKeepsRefreshers(Step(s, es[0]), es[1..], t);
    }
  }

  /** The same in every reachable state, for every process that waits. */
  lemma EveryWaiterHitsTheFill(
      missing: Data, cache: map<Key, Entry>, past: seq<Event>, s: State, p: Pid, w: Pid, v: int, es: seq<Event>,
      t: State)
    requires Run(Init(missing, cache), past, s)
    requires p in s.l.procs && s.l.procs[p].pc == Running
    requires w in s.l.procs && s.l.procs[w].key == s.l.procs[p].key && s.l.procs[w].pc == Waiting
    requires HarmlessRun(Step(s, HandlerOk(p, Val(v))), es, s.l.procs[p].key, {v}, t)
    ensures w in t.l.procs && t.l.procs[w].pc != Running
    ensures Quiet(t) ==> t.l.procs[w].pc == Done(Hit(Val(v)))
  {
    RunKeepsRefreshers(Init(missing, cache), past, s);
    WaiterHitsTheFill(s, p, w, s.l.procs[p].key, v, {v}, es, t);
  }

  // ------------------------------------------------------- requests that are decided

  /** The request has read d, which is not the missing response, and will return it. */
  ghost predicate Answering(procs: map<Pid, Proc>, p: Pid, d: Data) {
    && p in procs && !procs[p].refresher
    && match procs[p].pc
       case Looked(x, _) => x == d
       case Got(x) => x == d
       case Done(o) => o == Hit(d)
       case _ => false
  }

  /** The process will end, or has ended, with this outcome. */
  ghost predicate Ending(procs: map<Pid, Proc>, p: Pid, o: Outcome) {
    p in procs && (procs[p].pc == Unlocking(o) || procs[p].pc == Done(o))
  }

  /** A process that does not wait is moved by its own steps only. */
  lemma UnlockLeavesOthers(l: Locking, r: Pid, o: Outcome, p: Pid)
    requires Inv(l) && r in l.procs && p in l.procs && p != r && !l.procs[p].pc.Waiting?
    ensures p in Unlock(l, r, o).procs && Unlock(l, r, o).procs[p] == l.procs[p]
  {
    HeadsWait(l, l.procs[r].key);
  }

  lemma CheckLeavesOthers(l: Locking, r: Pid, p: Pid)
    requires Inv(l) && r in l.procs && l.procs[r].pc.Checked? && p in l.procs && p != r && !l.procs[p].pc.Waiting?
    ensures p in AfterCheck(l, r).procs && AfterCheck(l, r).procs[p] == l.procs[p]
  {
    UnlockLeavesOthers(l, r, Hit(l.procs[r].pc.content), p);
  }

  lemma ContinueLeavesOthers(s: State, r: Pid, q: Pid, p: Pid)
    requires Inv(s.l) && Enabled(s, Continue(r, q)) && p in s.l.procs && p != r && !s.l.procs[p].pc.Waiting?
    ensures p in Next(s, r, q).procs && Next(s, r, q).procs[p] == s.l.procs[p]
  {
    match s.l.procs[r].pc
    case Looked(_, _) => LookOfAnother(s.l, r, q, p);
    case Got(_) => GotOfAnother(s.l, r, s.missing, p);
    case Granted =>
    case Checked(_) => CheckLeavesOthers(s.l, r, p);
    case Unlocking(o) => UnlockLeavesOthers(s.l, r, o, p);
  }

  predicate Own(e: Event, p: Pid) {
    (e.Continue? || e.HandlerOk? || e.HandlerErr?) && e.p == p
  }

  lemma StepLeavesOthers(s: State, e: Event, p: Pid)
    requires Inv(s.l) && Enabled(s, e) && p in s.l.procs && !Own(e, p) && !s.l.procs[p].pc.Waiting?
    ensures p in Step(s, e).l.procs && Step(s, e).l.procs[p] == s.l.procs[p]
  {
    match e
    case Continue(r, q) => ContinueLeavesOthers(s, r, q, p);
    case HandlerErr(r) => UnlockLeavesOthers(s.l, r, Failed, p);
    case _ =>
  }

  lemma StepKeepsAnswering(s: State, e: Event, p: Pid, d: Data)
    requires Inv(s.l) && Enabled(s, e) && Answering(s.l.procs, p, d) && d != s.missing
    ensures Answering(Step(s, e).l.procs, p, d)
  {
    if Own(e, p) { OwnStepAnswers(s, e.q, p, d); } else { StepLeavesOthers(s, e, p); }
  }

  lemma OwnStepAnswers(s: State, q: Pid, p: Pid, d: Data)
    requires Enabled(s, Continue(p, q)) && Answering(s.l.procs, p, d) && d != s.missing
    ensures Answering(Next(s, p, q).procs, p, d)
  {
    match s.l.procs[p].pc
    case Looked(_, _) => OwnLook(s.l, p, q);
    case Got(_) => OwnGot(s.l, p, s.missing);
  }

  lemma OwnLook(l: Locking, p: Pid, q: Pid)
    requires p in l.procs && q !in l.procs && l.procs[p].pc.Looked?
    ensures var x := l.procs[p]; AfterLook(l, p, q).procs[p] == Proc(x.key, x.refresher, Got(x.pc.data))
  {
  }

  lemma OwnGot(l: Locking, p: Pid, missing: Data)
    requires p in l.procs && l.procs[p].pc.Got? && l.procs[p].pc.data != missing
    ensures var x := l.procs[p]; AfterGot(l, p, missing).procs[p] == Proc(x.key, x.refresher, Done(Hit(x.pc.data)))
  {
  }

  lemma {:induction false} RunKeepsAnswering(s: State, es: seq<Event>, p: Pid, d: Data, t: State)
    requires Inv(s.l) && Run(s, es, t) && Answering(s.l.procs, p, d) && d != s.missing
    ensures Answering(t.l.procs, p, d)
    decreases |es|
  {
    if es != [] {
      StepKeepsAnswering(s, es[0], p, d);
      StepKeepsInv(s, es[0]);
      RunKeepsAnswering(Step(s, es[0]), es[1..], p, d, t);
    }
  }

  /**
   A request that finds a live entry other than the missing response: whatever happens to the entry
   afterwards it never calls its handler, and it ends as a hit with exactly that data.
   */
  lemma FoundIsReturned(s: State, p: Pid, k: Key, es: seq<Event>, t: State)
    requires Inv(s.l) && Enabled(s, Arrive(p, k)) && Live(s.cache, k) && s.cache[k].data != s.missing
    requires Run(Step(s, Arrive(p, k)), es, t)
    ensures p in t.l.procs && t.l.procs[p].pc != Running
    ensures Quiet(t) ==> t.l.procs[p].pc == Done(Hit(s.cache[k].data))
  {
    StepKeepsInv(s, Arrive(p, k));
    RunKeepsAnswering(Step(s, Arrive(p, k)), es, p, s.cache[k].data, t);
  }

  /** With a stale time configured the entry may also be expired, and is returned all the same. */
  lemma StaleIsReturned(s: State, p: Pid, k: Key, stale: bool, extend: bool, es: seq<Event>, t: State)
    requires Inv(s.l) && Enabled(s, ArriveStale(p, k, stale, extend)) && k in s.cache && s.cache[k].data != s.missing
    requires Run(Step(s, ArriveStale(p, k, stale, extend)), es, t)
    ensures p in t.l.procs && t.l.procs[p].pc != Running
    ensures Quiet(t) ==> t.l.procs[p].pc == Done(Hit(s.cache[k].data))
  {
    StepKeepsInv(s, ArriveStale(p, k, stale, extend));
    RunKeepsAnswering(Step(s, ArriveStale(p, k, stale, extend)), es, p, s.cache[k].data, t);
  }

  lemma StepKeepsEnding(s: State, e: Event, p: Pid, o: Outcome)
    requires Inv(s.l) && Enabled(s, e) && Ending(s.l.procs, p, o)
    ensures Ending(Step(s, e).l.procs, p, o)
  {
    if Own(e, p) {
      HeadsWait(s.l, s.l.procs[p].key);
      OwnUnlock(s.l, p, o);
    } else {
      StepLeavesOthers(s, e, p);
    }
  }

  lemma {:induction false} RunKeepsEnding(s: State, es: seq<Event>, p: Pid, o: Outcome, t: State)
    requires Inv(s.l) && Run(s, es, t) && Ending(s.l.procs, p, o)
    ensures Ending(t.l.procs, p, o)
    decreases |es|
  {
    if es != [] {
      StepKeepsEnding(s, es[0], p, o);
      StepKeepsInv(s, es[0]);
      RunKeepsEnding(Step(s, es[0]), es[1..], p, o, t);
    }
  }

  /** How a process ends whose handler has just answered or failed. */
  function OwnOutcome(refresher: bool, e: Event): Outcome
    requires e.HandlerOk? || e.HandlerErr?
  {
    if refresher then Refreshed else if e.HandlerOk? then Computed(e.result) else Failed
  }

  /**
   A request whose handler answers returns that answer, and one whose handler fails fails: in every run
   after that it has no other outcome, and it has ended so when nobody can step.
   */
  lemma OwnResultIsReturned(s: State, e: Event, es: seq<Event>, t: State)
    requires Inv(s.l) && (e.HandlerOk? || e.HandlerErr?) && Enabled(s, e) && Run(Step(s, e), es, t)
    ensures e.p in t.l.procs && Ending(t.l.procs, e.p, OwnOutcome(s.l.procs[e.p].refresher, e))
    ensures Quiet(t) ==> t.l.procs[e.p].pc == Done(OwnOutcome(s.l.procs[e.p].refresher, e))
  {
    StepKeepsInv(s, e);
    HeadsWait(s.l, s.l.procs[e.p].key);
    if e.HandlerErr? { OwnUnlock(s.l, e.p, Failed); }
    RunKeepsEnding(Step(s, e), es, e.p, OwnOutcome(s.l.procs[e.p].refresher, e), t);
  }

  // ------------------------------------------------------------------- stale entries

  ghost predicate WithoutOwn(es: seq<Event>, p: Pid) { forall e <- es :: !Own(e, p) }

  lemma {:induction false} RunLeavesOthers(s: State, es: seq<Event>, p: Pid, t: State)
    requires Inv(s.l) && Run(s, es, t) && WithoutOwn(es, p) && p in s.l.procs && !s.l.procs[p].pc.Waiting?
    ensures Inv(t.l) && p in t.l.procs && t.l.procs[p] == s.l.procs[p]
    decreases |es|
  {
    if es != [] {
      assert es[0] in es && forall e | e in es[1..] :: e in es;
      StepLeavesOthers(s, es[0], p);
      StepKeepsInv(s, es[0]);
      RunLeavesOthers(Step(s, es[0]), es[1..], p, t);
    }
  }

  lemma LookStartsRefresher(l: Locking, p: Pid, q: Pid)
    requires p in l.procs && l.procs[p].pc.Looked? && q !in l.procs && p != q
    ensures var t := AfterLook(l, p, q);
            && (q in t.procs <==> l.procs[p].pc.refresh && l.procs[p].key !in l.table)
            && (q in t.procs ==> t.procs[q] == Proc(l.procs[p].key, true, Granted) && l.procs[p].key in t.table)
  {
  }

  /**
   A request with a stale time starts a refresher of its key if and only if the entry it found is stale,
   not null and nobody holds the lock when it goes on; the refresher then holds the lock.
   */
  lemma RefreshStartsIff(
      s: State, p: Pid, k: Key, stale: bool, extend: bool, es: seq<Event>, t: State, q: Pid)
    requires Inv(s.l) && Enabled(s, ArriveStale(p, k, stale, extend))
    requires Run(Step(s, ArriveStale(p, k, stale, extend)), es, t) && WithoutOwn(es, p) && q !in t.l.procs
    ensures Enabled(t, Continue(p, q))
    ensures var found, u := if k in s.cache then s.cache[k].data else s.missing, Step(t, Continue(p, q)).l;
            && (q in u.procs <==> stale && found.Val? && k !in t.l.table)
            && (q in u.procs ==> u.procs[q] == Proc(k, true, Granted) && k in u.table)
  {
    StepKeepsInv(s, ArriveStale(p, k, stale, extend));
    RunLeavesOthers(Step(s, ArriveStale(p, k, stale, extend)), es, p, t);
    LookStartsRefresher(t.l, p, q);
  }

  /** A refresher calls the handler without looking at the cache again. */
  lemma RefresherRuns(s: State, p: Pid, q: Pid)
    requires Enabled(s, Continue(p, q)) && s.l.procs[p].refresher && s.l.procs[p].pc == Granted
    ensures Step(s, Continue(p, q)).l.procs[p].pc == Running && Step(s, Continue(p, q)).cache == s.cache
  {
  }

  /** Reading a key removes its entry if it has expired, and touches nothing else. */
  lemma ReadRemovesExpired(s: State, e: Event, k: Key)
    requires Enabled(s, e)
    requires (e.Arrive? && e.key == k) || (e.Continue? && s.l.procs[e.p] == Proc(k, false, Granted))
    ensures forall j :: Get(Step(s, e).cache, j) ==
                        if j == k && j in s.cache && s.cache[j].expired then None else Get(s.cache, j)
  {
  }
}
