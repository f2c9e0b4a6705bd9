/** The in-process lock: per key, a holder and the waiters in arrival order. */
module Locks {
  import opened Prelude

  type Key = string
  type Pid = nat

  /** A key is present while it is locked; its sequence holds the waiters. */
  type Table = map<Key, seq<Pid>>

  function Acquired(t: Table, k: Key, p: Pid): Table {
    if k in t then t[k := t[k] + [p]] else t[k := []]
  }

  function Released(t: Table, k: Key): Table {
    if k !in t then t else if t[k] != [] then t[k := t[k][1..]] else t - {k}
  }

  /** The waiter the lock is handed to, if any. */
  function HandedTo(t: Table, k: Key): Option<Pid> {
    if k in t && t[k] != [] then Some(t[k][0]) else None
  }

  class Lock {
    var locked: Table

    constructor ()
      ensures locked == map[]
    {
      locked := map[];
    }

    method Acquire(k: Key, p: Pid) returns (granted: bool)
      modifies this
      ensures locked == Acquired(old(locked), k, p)
      ensures granted <==> k !in old(locked)
    {
      if k !in locked {
        locked := locked[k := []];
        return true;
      }
      locked := locked[k := locked[k] + [p]];
      granted := false;
    }

    method IsLocked(k: Key) returns (r: bool)
      ensures r <==> k in locked
    {
      r := k in locked;
    }

    method Release(k: Key) returns (next: Option<Pid>)
      modifies this
      ensures locked == Released(old(locked), k)
      ensures next == HandedTo(old(locked), k)
    {
      next := None;
      if k in locked {
        if |locked[k]| > 0 {
          next := Some(locked[k][0]);
          locked := locked[k := locked[k][1..]];
        } else {
          locked := locked - {k};
        }
      }
    }
  }
}

/**
 The caching middleware with its lock, as a machine of interleaved requests. Every continuation of
 a promise is one step. A stale entry spawns a refresher that competes for the same lock.
 */
module SingleFlight {
  import opened Prelude
  import opened Locks

  datatype Data = Undefined | Null | Val(v: int)

  datatype Entry = Entry(data: Data, expired: bool)

  datatype Outcome = Hit(data: Data) | Computed(data: Data) | Failed | Refreshed

  /** Where a request or a refresher stands. */
  datatype Pc =
    | Looked(data: Data, refresh: bool)  // the first read has answered
    | Got(data: Data)                    // a refresh, if needed, has been started
    | Waiting                            // queued for the lock
    | Granted                            // holds the lock
    | Checked(content: Data)             // holds the lock, the second read has answered
    | Running                            // holds the lock, the handler is executing
    | Unlocking(outcome: Outcome)        // holds the lock, the release is scheduled
    | Done(outcome: Outcome)

  datatype Proc = Proc(key: Key, refresher: bool, pc: Pc)

  predicate Holds(pc: Pc) {
    pc.Granted? || pc.Checked? || pc.Running? || pc.Unlocking?
  }

  /** The lock table and the processes. `queued` and `handed` record, per key, who joined the queue and
      who received the lock from it; `taken` and `freed` count acquisitions and releases. */
  datatype Locking = Locking(
    table: Table,
    procs: map<Pid, Proc>,
    queued: map<Key, seq<Pid>>,
    handed: map<Key, seq<Pid>>,
    taken: map<Pid, nat>,
    freed: map<Pid, nat>)

  /** `missing` is the configured missing response. */
  datatype State = State(missing: Data, cache: map<Key, Entry>, l: Locking)

  function Count(m: map<Pid, nat>, p: Pid): nat { if p in m then m[p] else 0 }

  predicate NonNull(d: Data) { d.Val? }

  predicate Live(cache: map<Key, Entry>, k: Key) {
    k in cache && !cache[k].expired
  }

  /** A read that removes an expired entry. */
  function ReadCache(cache: map<Key, Entry>, k: Key): map<Key, Entry> {
    if k in cache && cache[k].expired then cache - {k} else cache
  }

  function ReadAnswer(s: State, k: Key): Data {
    if Live(s.cache, k) then s.cache[k].data else s.missing
  }

  // ----------------------------------------------------------------------- steps

  datatype Event =
    | Arrive(p: Pid, key: Key)
    | ArriveStale(p: Pid, key: Key, stale: bool, extend: bool)  // with a stale time configured
    | Continue(p: Pid, q: Pid)                                  // q names a refresher, if one is started
    | HandlerOk(p: Pid, result: Data)
    | HandlerErr(p: Pid)
    | Expire(key: Key)
    | Evict(key: Key)
    | Put(key: Key, data: Data)

  predicate Enabled(s: State, e: Event) {
    match e
    case Arrive(p, _) => p !in s.l.procs
    case ArriveStale(p, _, _, _) => p !in s.l.procs
    case Continue(p, q) =>
      p in s.l.procs && q !in s.l.procs && !s.l.procs[p].pc.Waiting? && !s.l.procs[p].pc.Running? &&
          !s.l.procs[p].pc.Done?
    case HandlerOk(p, _) => p in s.l.procs && s.l.procs[p].pc.Running?
    case HandlerErr(p) => p in s.l.procs && s.l.procs[p].pc.Running?
    case Expire(k) => k in s.cache
    case _ => true
  }

  function Spawn(l: Locking, p: Pid, x: Proc): Locking {
    Locking(l.table, l.procs[p := x], l.queued, l.handed, l.taken, l.freed)
  }

  function SetPc(l: Locking, p: Pid, pc: Pc): Locking
    requires p in l.procs
  {
    Spawn(l, p, Proc(l.procs[p].key, l.procs[p].refresher, pc))
  }

  function Bump(m: map<Pid, nat>, p: Pid): map<Pid, nat> {
    m[p := Count(m, p) + 1]
  }

  /** A process takes a lock that is free. */
  function TakeLock(l: Locking, p: Pid, x: Proc): Locking {
    Locking(Acquired(l.table, x.key, p), l.procs[p := x], l.queued, l.handed, Bump(l.taken, p), l.freed)
  }

  /** `lock(key)`: take the lock or join its queue. */
  function AskLock(l: Locking, p: Pid): Locking
    requires p in l.procs
  {
    var x := l.procs[p];
    if x.key in l.table then
      Locking(Acquired(l.table, x.key, p), l.procs[p := Proc(x.key, x.refresher, Waiting)],
              l.queued[x.key := At(l.queued, x.key) + [p]], l.handed, l.taken, l.freed)
    else TakeLock(l, p, Proc(x.key, x.refresher, Granted))
  }

  /** `unlock()`: hand the lock to the first waiter or free it; the releasing process ends. */
  function Unlock(l: Locking, p: Pid, o: Outcome): Locking
    requires p in l.procs
  {
    var x := Proc(l.procs[p].key, l.procs[p].refresher, Done(o));
    var next := HandedTo(l.table, x.key);
    if next.Some? && next.value in l.procs then
      Locking(Released(l.table, x.key), HandedProcs(l.table, l.procs, p, x), l.queued,
              l.handed[x.key := At(l.handed, x.key) + [next.value]], Bump(l.taken, next.value), Bump(l.freed, p))
    else
      Locking(Released(l.table, x.key), l.procs[p := x], l.queued, l.handed, l.taken, Bump(l.freed, p))
  }

  /** The processes after p ended and the first waiter of its key got the lock. */
  function HandedProcs(table: Table, procs: map<Pid, Proc>, p: Pid, x: Proc): map<Pid, Proc>
    requires x.key in table && table[x.key] != [] && table[x.key][0] in procs
  {
    procs[p := x][table[x.key][0] := Proc(x.key, procs[table[x.key][0]].refresher, Granted)]
  }

  /** The first read has answered: a stale entry starts a refresher, unless the key is locked. */
  function AfterLook(l: Locking, p: Pid, q: Pid): Locking
    requires p in l.procs && l.procs[p].pc.Looked?
  {
    var x := l.procs[p];
    var read := SetPc(l, p, Got(x.pc.data));
    if x.pc.refresh && x.key !in l.table then TakeLock(read, q, Proc(x.key, true, Granted)) else read
  }

  function AfterGot(l: Locking, p: Pid, missing: Data): Locking
    requires p in l.procs && l.procs[p].pc.Got?
  {
    var d := l.procs[p].pc.data;
    if d != missing then SetPc(l, p, Done(Hit(d))) else AskLock(l, p)
  }

  function AfterGrant(l: Locking, p: Pid, content: Data): Locking
    requires p in l.procs
  {
    if l.procs[p].refresher then SetPc(l, p, Running) else SetPc(l, p, Checked(content))
  }

  function AfterCheck(l: Locking, p: Pid): Locking
    requires p in l.procs && l.procs[p].pc.Checked?
  {
    var d := l.procs[p].pc.content;
    if NonNull(d) then Unlock(l, p, Hit(d)) else SetPc(l, p, Running)
  }

  function AfterHandler(l: Locking, p: Pid, result: Data): Locking
    requires p in l.procs
  {
    SetPc(l, p, Unlocking(if l.procs[p].refresher then Refreshed else Computed(result)))
  }

  function AfterFailure(l: Locking, p: Pid): Locking
    requires p in l.procs
  {
    if l.procs[p].refresher then SetPc(l, p, Unlocking(Refreshed)) else Unlock(l, p, Failed)
  }

  /** One continuation of process p. */
  function Next(s: State, p: Pid, q: Pid): Locking
    requires Enabled(s, Continue(p, q))
  {
    var l := s.l;
    match l.procs[p].pc
    case Looked(_, _) => AfterLook(l, p, q)
    case Got(_) => AfterGot(l, p, s.missing)
    case Granted => AfterGrant(l, p, ReadAnswer(s, l.procs[p].key))
    case Checked(_) => AfterCheck(l, p)
    case Unlocking(o) => Unlock(l, p, o)
  }

  function Step(s: State, e: Event): State
    requires Enabled(s, e)
  {
    match e
    case Arrive(p, k) =>
      State(s.missing, ReadCache(s.cache, k), Spawn(s.l, p, Proc(k, false, Got(ReadAnswer(s, k)))))
    case ArriveStale(p, k, stale, extend) =>
      var d := if k in s.cache then s.cache[k].data else s.missing;
      State(s.missing, if k in s.cache && extend then s.cache[k := Entry(d, false)] else s.cache,
            Spawn(s.l, p, Proc(k, false, Looked(d, stale && NonNull(d)))))
    case Continue(p, q) =>
      var x := s.l.procs[p];
      State(s.missing, if x.pc.Granted? && !x.refresher then ReadCache(s.cache, x.key) else s.cache, Next(s, p, q))
    case HandlerOk(p, result) =>
      State(s.missing, s.cache[s.l.procs[p].key := Entry(result, false)], AfterHandler(s.l, p, result))
    case HandlerErr(p) =>
      State(s.missing, if s.l.procs[p].refresher then s.cache - {s.l.procs[p].key} else s.cache, AfterFailure(s.l, p))
    case Expire(k) => s.(cache := s.cache[k := s.cache[k].(expired := true)])
    case Evict(k) => s.(cache := s.cache - {k})
    case Put(k, d) => s.(cache := s.cache[k := Entry(d, false)])
  }

  ghost predicate Run(s: State, es: seq<Event>, t: State)
    decreases |es|
  {
    if es == [] then s == t
    else Enabled(s, es[0]) && Run(Step(s, es[0]), es[1..], t)
  }

  function Init(missing: Data, cache: map<Key, Entry>): State {
    State(missing, cache, Locking(map[], map[], map[], map[], map[], map[]))
  }

  // ------------------------------------------------------------------ the invariant

  /** The lock discipline: what matters of a state for it. */
  ghost predicate Mutex(table: Table, procs: map<Pid, Proc>) {
    && OneHolder(procs)
    && (forall p | p in procs && Holds(procs[p].pc) :: procs[p].key in table)
    && (forall k | k in table :: Held(procs, k))
    && (forall p | p in procs && procs[p].pc.Waiting? :: procs[p].key in table && p in table[procs[p].key])
    && (forall k | k in table :: Queue(procs, k, table[k]))
  }

  ghost predicate OneHolder(procs: map<Pid, Proc>) {
    forall p, q | p in procs && q in procs && Holds(procs[p].pc) && Holds(procs[q].pc) ::
      procs[p].key == procs[q].key ==> p == q
  }

  ghost predicate Held(procs: map<Pid, Proc>, k: Key) {
    exists p | p in procs :: Holds(procs[p].pc) && procs[p].key == k
  }

  /** A queue names each waiting process of its key once. */
  ghost predicate Queue(procs: map<Pid, Proc>, k: Key, q: seq<Pid>) {
    && (forall p <- q :: p in procs && procs[p].pc.Waiting? && procs[p].key == k)
    && (forall i, j | 0 <= i < j < |q| :: q[i] != q[j])
  }

  /** Joined the queue = received the lock from it, in that order, followed by those still waiting. */
  ghost predicate Fifo(l: Locking) {
    forall k :: At(l.queued, k) == At(l.handed, k) + At(l.table, k)
  }

  /** A process has taken the lock once while it holds it and released it once when it is done with it. */
  ghost predicate Balanced(procs: map<Pid, Proc>, taken: map<Pid, nat>, freed: map<Pid, nat>) {
    && (forall p | p in procs ::
          && (Holds(procs[p].pc) ==> Count(taken, p) == 1 && Count(freed, p) == 0)
          && (procs[p].pc.Done? ==> Count(taken, p) == Count(freed, p) <= 1)
          && (!Holds(procs[p].pc) && !procs[p].pc.Done? ==> Count(taken, p) == 0 && Count(freed, p) == 0))
    && (forall p | p !in procs :: Count(taken, p) == 0 && Count(freed, p) == 0)
  }

  ghost predicate Inv(l: Locking) {
    Mutex(l.table, l.procs) && Fifo(l) && Balanced(l.procs, l.taken, l.freed)
  }

  predicate Idle(pc: Pc) { !Holds(pc) && !pc.Waiting? }

  /** A process appears, or moves without gaining or losing the lock or a place in a queue. */
  lemma MoveKeepsMutex(table: Table, procs: map<Pid, Proc>, p: Pid, x: Proc)
    requires Mutex(table, procs)
    requires if p in procs then x.key == procs[p].key && ((Holds(procs[p].pc) &&
          Holds(x.pc)) || (Idle(procs[p].pc) && Idle(x.pc)))
             else Idle(x.pc)
    ensures Mutex(table, procs[p := x])
  {
    var after := procs[p := x];
    forall k | k in table
      ensures Held(after, k) && Queue(after, k, table[k])
    {
      assert Held(procs, k) && Queue(procs, k, table[k]);
      var h :| h in procs && Holds(procs[h].pc) && procs[h].key == k;
      assert h in after && Holds(after[h].pc) && after[h].key == k;
    }
  }

  lemma TakeFreeLock(table: Table, procs: map<Pid, Proc>, p: Pid, x: Proc)
    requires Mutex(table, procs) && x.key !in table && Holds(x.pc)
    requires p in procs ==> Idle(procs[p].pc) && procs[p].key == x.key
    ensures Mutex(table[x.key := []], procs[p := x])
  {
    var after, queues := procs[p := x], table[x.key := []];
    assert after[p] == x;
    forall k | k in queues
      ensures Held(after, k) && Queue(after, k, queues[k])
    {
      if k != x.key {
        assert Held(procs, k) && Queue(procs, k, table[k]);
        var h :| h in procs && Holds(procs[h].pc) && procs[h].key == k;
        assert h in after && Holds(after[h].pc) && after[h].key == k;
      }
    }
  }

  lemma JoinQueue(table: Table, procs: map<Pid, Proc>, p: Pid)
    requires Mutex(table, procs) && p in procs && Idle(procs[p].pc) && procs[p].key in table
    ensures var k := procs[p].key; Mutex(table[k := table[k] + [p]], procs[p := procs[p].(pc := Waiting)])
  {
    var k := procs[p].key;
    var after, queues := procs[p := procs[p].(pc := Waiting)], table[k := table[k] + [p]];
    assert Queue(procs, k, table[k]);
    assert p in queues[k];
    forall j | j in queues
      ensures Held(after, j) && Queue(after, j, queues[j])
    {
      assert Held(procs, j) && Queue(procs, j, table[j]);
      var h :| h in procs && Holds(procs[h].pc) && procs[h].key == j;
      assert h in after && Holds(after[h].pc) && after[h].key == j;
    }
    forall w | w in after && after[w].pc.Waiting?
      ensures after[w].key in queues && w in queues[after[w].key]
    {
      if w != p { assert w in table[procs[w].key]; }
    }
  }

  lemma FreeLock(table: Table, procs: map<Pid, Proc>, p: Pid, x: Proc)
    requires Mutex(table, procs) && p in procs && Holds(procs[p].pc) && table[procs[p].key] == []
    requires x.key == procs[p].key && Idle(x.pc)
    ensures Mutex(table - {x.key}, procs[p := x])
  {
    var after, queues := procs[p := x], table - {x.key};
    forall k | k in queues
      ensures Held(after, k) && Queue(after, k, queues[k])
    {
      assert Held(procs, k) && Queue(procs, k, table[k]);
      var h :| h in procs && Holds(procs[h].pc) && procs[h].key == k;
      assert h in after && Holds(after[h].pc) && after[h].key == k;
    }
    forall w | w in after && after[w].pc.Waiting?
      ensures after[w].key in queues && w in queues[after[w].key]
    {
      assert w in table[procs[w].key];
    }
  }

  ghost predicate CanHand(table: Table, procs: map<Pid, Proc>, p: Pid, x: Proc) {
    && Mutex(table, procs) && p in procs && Holds(procs[p].pc) && table[procs[p].key] != []
    && x.key == procs[p].key && Idle(x.pc)
    && var q := table[x.key][0];
    && q in procs && q != p && procs[q].pc.Waiting? && procs[q].key == x.key
  }

  lemma HandedQueues(table: Table, procs: map<Pid, Proc>, p: Pid, x: Proc, j: Key)
    requires CanHand(table, procs, p, x) && j in table
    ensures var left := table[x.key := table[x.key][1..]]; Queue(HandedProcs(table, procs, p, x), j, left[j])
  {
    var q := table[j];
    assert Queue(procs, j, q);
    assert Queue(procs, x.key, table[x.key]);
    if j == x.key {
      assert forall i | 0 <= i < |q[1..]| :: q[1..][i] == q[i + 1] && q[i + 1] in q && q[i + 1] != q[0];
    }
  }

  lemma HandedWaiters(table: Table, procs: map<Pid, Proc>, p: Pid, x: Proc, w: Pid)
    requires CanHand(table, procs, p, x)
    requires w in HandedProcs(table, procs, p, x) && HandedProcs(table, procs, p, x)[w].pc.Waiting?
    ensures var left := table[x.key := table[x.key][1..]];
            w in procs && procs[w].key in left && w in left[procs[w].key]
  {
    assert w != p && w != table[x.key][0];
    assert w in table[procs[w].key];
    if procs[w].key == x.key {
      var i :| 0 <= i < |table[x.key]| && table[x.key][i] == w;
      assert i > 0 && table[x.key][1..][i - 1] == w;
    }
  }

  lemma HandedHeld(table: Table, procs: map<Pid, Proc>, p: Pid, x: Proc, j: Key)
    requires CanHand(table, procs, p, x) && j in table
    ensures Held(HandedProcs(table, procs, p, x), j)
  {
    var after := HandedProcs(table, procs, p, x);
    if j == x.key {
      assert Holds(after[table[x.key][0]].pc);
    } else {
      assert Held(procs, j);
      var h :| h in procs && Holds(procs[h].pc) && procs[h].key == j;
      assert h in after && Holds(after[h].pc) && after[h].key == j;
    }
  }

  lemma HandedHolders(table: Table, procs: map<Pid, Proc>, p: Pid, x: Proc)
    requires CanHand(table, procs, p, x)
    ensures var after := HandedProcs(table, procs, p, x);
            OneHolder(after) && forall q | q in after && Holds(after[q].pc) :: after[q].key in table
  {
  }

  lemma HandIsPossible(table: Table, procs: map<Pid, Proc>, p: Pid, x: Proc)
    requires Mutex(table, procs) && p in procs && Holds(procs[p].pc) && table[procs[p].key] != []
    requires x.key == procs[p].key && Idle(x.pc)
    ensures CanHand(table, procs, p, x)
  {
    assert Queue(procs, x.key, table[x.key]) && table[x.key][0] in table[x.key];
  }

  lemma HandOver(table: Table, procs: map<Pid, Proc>, p: Pid, x: Proc)
    requires CanHand(table, procs, p, x)
    ensures Mutex(table[x.key := table[x.key][1..]], HandedProcs(table, procs, p, x))
  {
    var left, after := table[x.key := table[x.key][1..]], HandedProcs(table, procs, p, x);
    HandedHolders(table, procs, p, x);
    forall j | j in left
      ensures Held(after, j) && Queue(after, j, left[j])
    {
      HandedQueues(table, procs, p, x, j);
      HandedHeld(table, procs, p, x, j);
    }
    forall w | w in after && after[w].pc.Waiting?
      ensures after[w].key in left && w in left[after[w].key]
    {
      HandedWaiters(table, procs, p, x, w);
    }
  }

  // -------------------------------------------- every step keeps the whole invariant

  lemma SetPcKeepsInv(l: Locking, p: Pid, pc: Pc)
    requires Inv(l) && p in l.procs
    requires (Holds(l.procs[p].pc) && Holds(pc)) || (Idle(l.procs[p].pc) && Idle(pc) && !l.procs[p].pc.Done?)
    ensures Inv(SetPc(l, p, pc))
  {
    var x := Proc(l.procs[p].key, l.procs[p].refresher, pc);
    MoveKeepsMutex(l.table, l.procs, p, x);
    BalancedMove(l.procs, l.taken, l.freed, p, x);
    FifoSame(l, p, x);
  }

  lemma BalancedMove(procs: map<Pid, Proc>, taken: map<Pid, nat>, freed: map<Pid, nat>, p: Pid, x: Proc)
    requires Balanced(procs, taken, freed)
    requires if p in procs then Holds(procs[p].pc) == Holds(x.pc) && !procs[p].pc.Done? else !Holds(x.pc)
    ensures Balanced(procs[p := x], taken, freed)
  {
  }

  lemma FifoSame(l: Locking, p: Pid, x: Proc)
    requires Fifo(l)
    ensures Fifo(Spawn(l, p, x))
  {
  }

  lemma SpawnKeepsInv(l: Locking, p: Pid, x: Proc)
    requires Inv(l) && p !in l.procs && Idle(x.pc) && !x.pc.Done?
    ensures Inv(Spawn(l, p, x))
  {
    MoveKeepsMutex(l.table, l.procs, p, x);
    BalancedMove(l.procs, l.taken, l.freed, p, x);
    FifoSame(l, p, x);
  }

  lemma TakeKeepsInv(l: Locking, p: Pid, x: Proc)
    requires Inv(l) && x.key !in l.table && x.pc == Granted
    requires p in l.procs ==> Idle(l.procs[p].pc) && !l.procs[p].pc.Done? && l.procs[p].key == x.key
    ensures Inv(TakeLock(l, p, x))
  {
    TakeFreeLock(l.table, l.procs, p, x);
    FifoTake(l, p, x);
    BalancedTake(l.procs, l.taken, l.freed, p, x);
  }

  lemma FifoTake(l: Locking, p: Pid, x: Proc)
    requires Fifo(l) && x.key !in l.table
    ensures Fifo(TakeLock(l, p, x))
  {
    var t := TakeLock(l, p, x);
    assert forall k :: At(t.table, k) == At(l.table, k);
  }

  lemma BalancedTake(procs: map<Pid, Proc>, taken: map<Pid, nat>, freed: map<Pid, nat>, p: Pid, x: Proc)
    requires Balanced(procs, taken, freed) && x.pc == Granted
    requires p in procs ==> !Holds(procs[p].pc) && !procs[p].pc.Done?
    ensures Balanced(procs[p := x], Bump(taken, p), freed)
  {
  }

  lemma BalancedFree(procs: map<Pid, Proc>, taken: map<Pid, nat>, freed: map<Pid, nat>, p: Pid, x: Proc)
    requires Balanced(procs, taken, freed) && p in procs && Holds(procs[p].pc) && x.pc.Done?
    ensures Balanced(procs[p := x], taken, Bump(freed, p))
  {
  }

  lemma LockKeepsInv(l: Locking, p: Pid)
    requires Inv(l) && p in l.procs && Idle(l.procs[p].pc) && !l.procs[p].pc.Done?
    ensures Inv(AskLock(l, p))
  {
    var x := l.procs[p];
    if x.key in l.table {
      JoinQueue(l.table, l.procs, p);
      FifoJoin(l, p);
      BalancedMove(l.procs, l.taken, l.freed, p, Proc(x.key, x.refresher, Waiting));
    } else {
      TakeKeepsInv(l, p, Proc(x.key, x.refresher, Granted));
    }
  }

  lemma FifoJoin(l: Locking, p: Pid)
    requires Fifo(l) && p in l.procs && l.procs[p].key in l.table
    ensures Fifo(AskLock(l, p))
  {
    var t, k := AskLock(l, p), l.procs[p].key;
    forall j
      ensures At(t.queued, j) == At(t.handed, j) + At(t.table, j)
    {
      assert At(l.queued, j) == At(l.handed, j) + At(l.table, j);
      if j == k {
        assert At(l.handed, k) + (l.table[k] + [p]) == At(l.handed, k) + l.table[k] + [p];
      }
    }
  }

  lemma UnlockKeepsInv(l: Locking, p: Pid, o: Outcome)
    requires Inv(l) && p in l.procs && Holds(l.procs[p].pc)
    ensures Inv(Unlock(l, p, o))
  {
    if l.table[l.procs[p].key] == [] {
      UnlockFreeKeepsInv(l, p, o);
    } else {
      UnlockHandKeepsInv(l, p, o);
    }
  }

  lemma UnlockFreeKeepsInv(l: Locking, p: Pid, o: Outcome)
    requires Inv(l) && p in l.procs && Holds(l.procs[p].pc) && l.table[l.procs[p].key] == []
    ensures Inv(Unlock(l, p, o))
  {
    var x := Proc(l.procs[p].key, l.procs[p].refresher, Done(o));
    FreeLock(l.table, l.procs, p, x);
    FifoFree(l, p, o);
    BalancedFree(l.procs, l.taken, l.freed, p, x);
  }

  lemma UnlockHandKeepsInv(l: Locking, p: Pid, o: Outcome)
    requires Inv(l) && p in l.procs && Holds(l.procs[p].pc) && l.table[l.procs[p].key] != []
    ensures Inv(Unlock(l, p, o))
  {
    var x := Proc(l.procs[p].key, l.procs[p].refresher, Done(o));
    HandIsPossible(l.table, l.procs, p, x);
    HandOver(l.table, l.procs, p, x);
    FifoHand(l, p, o);
    BalancedHand(l, p, o);
    var t := Unlock(l, p, o);
    assert t.table == l.table[x.key := l.table[x.key][1..]];
    assert t.procs == HandedProcs(l.table, l.procs, p, x);
  }

  lemma BalancedHand(l: Locking, p: Pid, o: Outcome)
    requires Balanced(l.procs, l.taken, l.freed) && p in l.procs && Holds(l.procs[p].pc)
    requires CanHand(l.table, l.procs, p, Proc(l.procs[p].key, l.procs[p].refresher, Done(o)))
    ensures var t := Unlock(l, p, o); Balanced(t.procs, t.taken, t.freed)
  {
    var x := Proc(l.procs[p].key, l.procs[p].refresher, Done(o));
    BalancedFree(l.procs, l.taken, l.freed, p, x);
    var q := l.table[x.key][0];
    BalancedTake(l.procs[p := x], l.taken, Bump(l.freed, p), q, Proc(x.key, l.procs[q].refresher, Granted));
  }

  lemma FifoFree(l: Locking, p: Pid, o: Outcome)
    requires Fifo(l) && p in l.procs && l.procs[p].key in l.table && l.table[l.procs[p].key] == []
    ensures Fifo(Unlock(l, p, o))
  {
    assert forall j :: At(Unlock(l, p, o).table, j) == At(l.table, j);
  }

  lemma FifoHand(l: Locking, p: Pid, o: Outcome)
    requires Fifo(l) && p in l.procs
    requires CanHand(l.table, l.procs, p, Proc(l.procs[p].key, l.procs[p].refresher, Done(o)))
    ensures Fifo(Unlock(l, p, o))
  {
    var t, k := Unlock(l, p, o), l.procs[p].key;
    var q := l.table[k];
    forall j
      ensures At(t.queued, j) == At(t.handed, j) + At(t.table, j)
    {
      assert At(l.queued, j) == At(l.handed, j) + At(l.table, j);
      if j == k {
        assert At(t.table, k) == q[1..] && At(t.handed, k) == At(l.handed, k) + [q[0]];
        assert At(l.handed, k) + q == At(l.handed, k) + [q[0]] + q[1..];
      }
    }
  }

  lemma LookKeepsInv(l: Locking, p: Pid, q: Pid)
    requires Inv(l) && p in l.procs && l.procs[p].pc.Looked? && q !in l.procs
    ensures Inv(AfterLook(l, p, q))
  {
    var x := l.procs[p];
    SetPcKeepsInv(l, p, Got(x.pc.data));
    if x.pc.refresh && x.key !in l.table {
      TakeKeepsInv(SetPc(l, p, Got(x.pc.data)), q, Proc(x.key, true, Granted));
    }
  }

  lemma GotKeepsInv(l: Locking, p: Pid, missing: Data)
    requires Inv(l) && p in l.procs && l.procs[p].pc.Got?
    ensures Inv(AfterGot(l, p, missing))
  {
    var d := l.procs[p].pc.data;
    if d != missing { SetPcKeepsInv(l, p, Done(Hit(d))); } else { LockKeepsInv(l, p); }
  }

  lemma CheckKeepsInv(l: Locking, p: Pid)
    requires Inv(l) && p in l.procs && l.procs[p].pc.Checked?
    ensures Inv(AfterCheck(l, p))
  {
    var d := l.procs[p].pc.content;
    if NonNull(d) { UnlockKeepsInv(l, p, Hit(d)); } else { SetPcKeepsInv(l, p, Running); }
  }

  lemma ContinueKeepsInv(s: State, p: Pid, q: Pid)
    requires Inv(s.l) && Enabled(s, Continue(p, q))
    ensures Inv(Next(s, p, q))
  {
    var l := s.l;
    match l.procs[p].pc
    case Looked(d, refresh) => LookKeepsInv(l, p, q);
    case Got(d) => GotKeepsInv(l, p, s.missing);
    case Granted =>
      SetPcKeepsInv(l, p, if l.procs[p].refresher then Running else Checked(ReadAnswer(s, l.procs[p].key)));
    case Checked(d) => CheckKeepsInv(l, p);
    case Unlocking(o) => UnlockKeepsInv(l, p, o);
  }

  lemma StepKeepsInv(s: State, e: Event)
    requires Inv(s.l) && Enabled(s, e)
    ensures Inv(Step(s, e).l)
  {
    match e
    case Arrive(p, k) => SpawnKeepsInv(s.l, p, Proc(k, false, Got(ReadAnswer(s, k))));
    case ArriveStale(p, k, stale, extend) =>
      var d := if k in s.cache then s.cache[k].data else s.missing;
      SpawnKeepsInv(s.l, p, Proc(k, false, Looked(d, stale && NonNull(d))));
    case Continue(p, q) => ContinueKeepsInv(s, p, q);
    case HandlerOk(p, result) => SetPcKeepsInv(s.l, p, Unlocking(if s.l.procs[p].refresher then Refreshed
        else Computed(result)));
    case HandlerErr(p) =>
      if s.l.procs[p].refresher { SetPcKeepsInv(s.l, p, Unlocking(Refreshed)); }
          else { UnlockKeepsInv(s.l, p, Failed); }
    case Expire(k) =>
    case Evict(k) =>
    case Put(k, d) =>
  }

  lemma {:induction false} RunKeepsInv(s: State, es: seq<Event>, t: State)
    requires Inv(s.l) && Run(s, es, t)
    ensures Inv(t.l)
    decreases |es|
  {
    if es != [] {
      StepKeepsInv(s, es[0]);
      RunKeepsInv(Step(s, es[0]), es[1..], t);
    }
  }

  // ------------------------------------------------------------------- the theorems

  /**
   Single flight: in every run, from any cache content, at most one handler execution per key is
   in progress, counting cache fills and stale refreshes; the queue of each key is served in
   arrival order; and nobody releases a lock it has not taken, or releases it twice.
   */
  lemma AtMostOneHandler(missing: Data, cache: map<Key, Entry>, es: seq<Event>, t: State)
    requires Run(Init(missing, cache), es, t)
    ensures forall p, q | p in t.l.procs && q in t.l.procs && t.l.procs[p].pc.Running? && t.l.procs[q].pc.Running? &&
          t.l.procs[p].key == t.l.procs[q].key :: p == q
    ensures forall k :: At(t.l.handed, k) <= At(t.l.queued, k)
    ensures forall p | p in t.l.procs && t.l.procs[p].pc.Done? :: Count(t.l.taken, p) == Count(t.l.freed, p) <= 1
    ensures forall p :: Count(t.l.freed, p) <= Count(t.l.taken, p) <= 1
  {
    var s := Init(missing, cache);
    assert Inv(s.l);
    RunKeepsInv(s, es, t);
  }

  /** The entry of k is present, unexpired and one of the given values. */
  predicate Cached(cache: map<Key, Entry>, k: Key, vs: set<int>) {
    Live(cache, k) && OneOf(cache[k].data, vs)
  }

  predicate OneOf(d: Data, vs: set<int>) { d.Val? && d.v in vs }

  /** It stays so in every state of the run. */
  ghost predicate StaysCached(s: State, es: seq<Event>, k: Key, vs: set<int>)
    decreases |es|
  {
    && Cached(s.cache, k, vs)
    && (es != [] ==> Enabled(s, es[0]) && StaysCached(Step(s, es[0]), es[1..], k, vs))
  }

  /** A request that has not called its handler and will end with one of the values. */
  ghost predicate Follows(procs: map<Pid, Proc>, p: Pid, k: Key, vs: set<int>) {
    && p in procs && procs[p].key == k && !procs[p].refresher
    && match procs[p].pc
       case Waiting => true
       case Granted => true
       case Checked(d) => OneOf(d, vs)
       case Done(o) => o.Hit? && OneOf(o.data, vs)
       case _ => false
  }

  /** Whoever is first in a queue is a waiting process. */
  ghost predicate HeadWaits(l: Locking, j: Key) {
    j in l.table && l.table[j] != [] ==>
        l.table[j][0] in l.procs && l.procs[l.table[j][0]].pc.Waiting? && l.procs[l.table[j][0]].key == j
  }

  lemma HeadsWait(l: Locking, j: Key)
    requires Inv(l)
    ensures HeadWaits(l, j)
  {
    if j in l.table && l.table[j] != [] {
      assert Queue(l.procs, j, l.table[j]) && l.table[j][0] in l.table[j];
    }
  }

  lemma UnlockOfAnother(l: Locking, r: Pid, o: Outcome, p: Pid, k: Key, vs: set<int>)
    requires r in l.procs && HeadWaits(l, l.procs[r].key) && Follows(l.procs, p, k, vs) && p != r
    ensures Follows(Unlock(l, r, o).procs, p, k, vs)
  {
  }

  lemma OwnUnlock(l: Locking, p: Pid, o: Outcome)
    requires p in l.procs && !l.procs[p].pc.Waiting? && HeadWaits(l, l.procs[p].key)
    ensures Unlock(l, p, o).procs[p] == Proc(l.procs[p].key, l.procs[p].refresher, Done(o))
  {
  }

  lemma CheckFollows(l: Locking, r: Pid, p: Pid, k: Key, vs: set<int>)
    requires r in l.procs && l.procs[r].pc.Checked? && HeadWaits(l, l.procs[r].key) && Follows(l.procs, p, k, vs)
    ensures Follows(AfterCheck(l, r).procs, p, k, vs)
  {
    var o := Hit(l.procs[r].pc.content);
    if r == p { OwnUnlock(l, p, o); } else { UnlockOfAnother(l, r, o, p, k, vs); }
  }

  lemma ContinueFollows(s: State, r: Pid, q: Pid, p: Pid, k: Key, vs: set<int>)
    requires Enabled(s, Continue(r, q)) && HeadWaits(s.l, s.l.procs[r].key) && Follows(s.l.procs, p, k, vs)
    requires Cached(s.cache, k, vs)
    ensures Follows(Next(s, r, q).procs, p, k, vs)
  {
    match s.l.procs[r].pc
    case Checked(d) => CheckFollows(s.l, r, p, k, vs);
    case Unlocking(o) => UnlockOfAnother(s.l, r, o, p, k, vs);
    case Looked(d, refresh) => LookOfAnother(s.l, r, q, p);
    case Got(d) => GotOfAnother(s.l, r, s.missing, p);
    case Granted => GrantFollows(s.l, r, ReadAnswer(s, s.l.procs[r].key), p, k, vs);
  }

  lemma LookOfAnother(l: Locking, r: Pid, q: Pid, p: Pid)
    requires r in l.procs && l.procs[r].pc.Looked? && p in l.procs && q !in l.procs && p != r
    ensures p in AfterLook(l, r, q).procs && AfterLook(l, r, q).procs[p] == l.procs[p]
  {
  }

  lemma GotOfAnother(l: Locking, r: Pid, missing: Data, p: Pid)
    requires r in l.procs && l.procs[r].pc.Got? && p in l.procs && p != r
    ensures p in AfterGot(l, r, missing).procs && AfterGot(l, r, missing).procs[p] == l.procs[p]
  {
  }

  lemma GrantFollows(l: Locking, r: Pid, content: Data, p: Pid, k: Key, vs: set<int>)
    requires r in l.procs && Follows(l.procs, p, k, vs) && (r == p ==> OneOf(content, vs))
    ensures Follows(AfterGrant(l, r, content).procs, p, k, vs)
  {
  }

  lemma StepFollows(s: State, e: Event, p: Pid, k: Key, vs: set<int>)
    requires Inv(s.l) && Enabled(s, e) && Follows(s.l.procs, p, k, vs)
    requires Cached(s.cache, k, vs)
    ensures Follows(Step(s, e).l.procs, p, k, vs)
  {
    match e
    case Continue(r, q) =>
      HeadsWait(s.l, s.l.procs[r].key);
      ContinueFollows(s, r, q, p, k, vs);
    case HandlerErr(r) =>
      HeadsWait(s.l, s.l.procs[r].key);
      if !s.l.procs[r].refresher { UnlockOfAnother(s.l, r, Failed, p, k, vs); }
    case _ =>
  }

  /**
   A request that waits for the lock while others fill the cache with values in vs never calls its
   handler and, if it ends, is a hit with such a value, as long as the entry is neither removed nor
   expired; with a single value in vs it returns that value.
   */
  lemma {:induction false} FollowersHitTheCache(s: State, es: seq<Event>, p: Pid, k: Key, vs: set<int>, t: State)
    requires Inv(s.l) && Follows(s.l.procs, p, k, vs) && StaysCached(s, es, k, vs) && Run(s, es, t)
    ensures Follows(t.l.procs, p, k, vs)
    decreases |es|
  {
    if es != [] {
      StepFollows(s, es[0], p, k, vs);
      StepKeepsInv(s, es[0]);
      FollowersHitTheCache(Step(s, es[0]), es[1..], p, k, vs, t);
    }
  }

  // ------------------------------------------------ the configured missing response

  /**
   The second read is compared with null, the first one with the configured missing response. A
   request that holds the lock and finds no live entry calls its handler if and only if the missing
   response is null or undefined; otherwise it returns the missing response as if it were cached.
   */
  lemma MissCallsHandlerIff(s: State, p: Pid, q: Pid)
    requires p in s.l.procs
    requires HeadWaits(s.l, s.l.procs[p].key) && q !in s.l.procs && s.l.procs[p].pc == Granted &&
          !s.l.procs[p].refresher
    requires !Live(s.cache, s.l.procs[p].key)
    ensures
      var t := Step(s, Continue(p, q));
      && Enabled(t, Continue(p, q))
      && var u := Step(t, Continue(p, q));
      && p in u.l.procs
      && (u.l.procs[p].pc == Running <==> !NonNull(s.missing))
      && (u.l.procs[p].pc == Done(Hit(s.missing)) <==> NonNull(s.missing))
  {
    var t := Step(s, Continue(p, q));
    assert t.l == SetPc(s.l, p, Checked(s.missing));
    assert HeadWaits(t.l, t.l.procs[p].key);
    if NonNull(s.missing) { OwnUnlock(t.l, p, Hit(s.missing)); }
  }

  predicate StoresValues(e: Event) {
    match e
    case Put(_, d) => NonNull(d)
    case HandlerOk(_, d) => NonNull(d)
    case _ => true
  }

  ghost predicate OnlyValues(cache: map<Key, Entry>) { forall k | k in cache :: NonNull(cache[k].data) }

  /** No request has called its handler or is about to. */
  ghost predicate NoFills(procs: map<Pid, Proc>) {
    forall p | p in procs && !procs[p].refresher ::
      !procs[p].pc.Running? && (procs[p].pc.Checked? ==> NonNull(procs[p].pc.content))
  }

  lemma UnlockKeepsNoFills(l: Locking, p: Pid, o: Outcome)
    requires p in l.procs && NoFills(l.procs)
    ensures NoFills(Unlock(l, p, o).procs)
  {
  }

  lemma SetKeepsNoFills(procs: map<Pid, Proc>, p: Pid, x: Proc)
    requires NoFills(procs) && (x.refresher || (!x.pc.Running? && (x.pc.Checked? ==> NonNull(x.pc.content))))
    ensures NoFills(procs[p := x])
  {
  }

  lemma LookKeepsNoFills(l: Locking, p: Pid, q: Pid)
    requires p in l.procs && l.procs[p].pc.Looked? && NoFills(l.procs)
    ensures NoFills(AfterLook(l, p, q).procs)
  {
    var x := Proc(l.procs[p].key, l.procs[p].refresher, Got(l.procs[p].pc.data));
    SetKeepsNoFills(l.procs, p, x);
    SetKeepsNoFills(l.procs[p := x], q, Proc(x.key, true, Granted));
  }

  lemma GotKeepsNoFills(l: Locking, p: Pid, missing: Data)
    requires p in l.procs && l.procs[p].pc.Got? && NoFills(l.procs)
    ensures NoFills(AfterGot(l, p, missing).procs)
  {
    SetKeepsNoFills(l.procs, p, AfterGot(l, p, missing).procs[p]);
  }

  lemma GrantKeepsNoFills(l: Locking, p: Pid, content: Data)
    requires p in l.procs && NoFills(l.procs) && NonNull(content)
    ensures NoFills(AfterGrant(l, p, content).procs)
  {
    SetKeepsNoFills(l.procs, p, AfterGrant(l, p, content).procs[p]);
  }

  lemma ContinueKeepsNoFills(s: State, p: Pid, q: Pid)
    requires NonNull(s.missing) && OnlyValues(s.cache) && NoFills(s.l.procs) && Enabled(s, Continue(p, q))
    ensures NoFills(Next(s, p, q).procs)
  {
    var l := s.l;
    match l.procs[p].pc
    case Looked(_, _) => LookKeepsNoFills(l, p, q);
    case Got(_) => GotKeepsNoFills(l, p, s.missing);
    case Granted => GrantKeepsNoFills(l, p, ReadAnswer(s, l.procs[p].key));
    case Checked(d) =>
      if NonNull(d) {
        UnlockKeepsNoFills(l, p, Hit(d));
      } else {
        SetKeepsNoFills(l.procs, p, Proc(l.procs[p].key, l.procs[p].refresher, Running));
      }
    case Unlocking(o) => UnlockKeepsNoFills(l, p, o);
  }

  lemma StepKeepsNoFills(s: State, e: Event)
    requires NonNull(s.missing) && OnlyValues(s.cache) && NoFills(s.l.procs) && Enabled(s, e) && StoresValues(e)
    ensures OnlyValues(Step(s, e).cache) && NoFills(Step(s, e).l.procs) && Step(s, e).missing == s.missing
  {
    match e
    case Continue(p, q) => ContinueKeepsNoFills(s, p, q);
    case HandlerErr(p) => if !s.l.procs[p].refresher { UnlockKeepsNoFills(s.l, p, Failed); }
    case _ =>
  }

  /**
   With a missing response other than null, and no null ever stored, no request calls its handler in
   any run: the cache is filled by nobody.
   */
  lemma {:induction false} NobodyFills(s: State, es: seq<Event>, t: State)
    requires NonNull(s.missing) && OnlyValues(s.cache) && NoFills(s.l.procs)
    requires Run(s, es, t) && forall e <- es :: StoresValues(e)
    ensures NoFills(t.l.procs)
    decreases |es|
  {
    if es != [] {
      assert es[0] in es && forall e | e in es[1..] :: e in es;
      StepKeepsNoFills(s, es[0]);
      NobodyFills(Step(s, es[0]), es[1..], t);
    }
  }
}
