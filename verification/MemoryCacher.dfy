/** The in-memory cacher: a map with expiry times, lazy removal on read and a periodic sweep. */
module MemoryCacher {
  import opened Prelude

  type Key = string
  type Pattern = string

  /** `expire` is None for entries without a time to live. Times are in milliseconds. */
  datatype Item<+D> = Item(data: D, expire: Option<real>)

  /** The test `item.expire && item.expire < now`. */
  predicate Dead<D>(item: Item<D>, now: real) {
    item.expire.Some? && item.expire.value != 0.0 && item.expire.value < now
  }

  /** `ttl` in seconds; a missing one falls back to the cacher's option, zero means no expiry. */
  function NewItem<D>(data: D, ttl: Option<real>, defaultTtl: Option<real>, now: real): Item<D> {
    var t := if ttl.Some? then ttl else defaultTtl;
    Item(data, if t.Some? && t.value != 0.0 then Some(now + t.value * 1000.0) else None)
  }

  datatype Op<+D> =
    | Get(key: Key)
    | Set(key: Key, data: D, ttl: Option<real>)
    | Del(keys: seq<Key>)
    | Clean(patterns: seq<Pattern>)
    | CheckTTL

  datatype Timed<+D> = Timed(op: Op<D>, now: real)

  predicate Matches(glob: (Key, Pattern) -> bool, patterns: seq<Pattern>, key: Key) {
    exists p <- patterns :: glob(key, p)
  }

  // ------------------------------------------------------------- the map, on values

  function Apply<D>(
      glob: (Key, Pattern) -> bool, defaultTtl: Option<real>, c: map<Key, Item<D>>, e: Timed<D>): map<Key, Item<D>> {
    match e.op
    case Get(key) => if key in c && Dead(c[key], e.now) then c - {key} else c
    case Set(key, data, ttl) => c[key := NewItem(data, ttl, defaultTtl, e.now)]
    case Del(keys) => map k | k in c && k !in keys :: c[k]
    case Clean(patterns) => map k | k in c && !Matches(glob, patterns, k) :: c[k]
    case CheckTTL => map k | k in c && !Dead(c[k], e.now) :: c[k]
  }

  /** The answer of a read; None is the missing response. */
  function Answer<D>(c: map<Key, Item<D>>, key: Key, now: real): Option<D> {
    if key in c && !Dead(c[key], now) then Some(c[key].data) else None
  }

  function RunAll<D>(glob: (Key, Pattern) -> bool, defaultTtl: Option<real>, log: seq<Timed<D>>): map<Key, Item<D>> {
    if log == [] then map[]
    else Apply(glob, defaultTtl, RunAll(glob, defaultTtl, log[..|log| - 1]), log[|log| - 1])
  }

  // ---------------------------------------------------------- the reference: a history

  /** What an operation makes of the last write to a key. */
  function Rewrite<D>(
      glob: (Key, Pattern) -> bool, defaultTtl: Option<real>, e: Timed<D>, key: Key,
      w: Option<Item<D>>): Option<Item<D>> {
    match e.op
    case Set(k, data, ttl) => if k == key then Some(NewItem(data, ttl, defaultTtl, e.now)) else w
    case Del(keys) => if key in keys then None else w
    case Clean(patterns) => if Matches(glob, patterns, key) then None else w
    case Get(_) => w
    case CheckTTL => w
  }

  /** What the history says is stored under a key: the last write that no removal followed. */
  function LastWrite<D>(
      glob: (Key, Pattern) -> bool, defaultTtl: Option<real>, log: seq<Timed<D>>, key: Key): Option<Item<D>> {
    if log == [] then None
    else Rewrite(glob, defaultTtl, log[|log| - 1], key, LastWrite(glob, defaultTtl, log[..|log| - 1], key))
  }

  /** A read answers with the last write that was neither removed nor has expired by now. */
  function Expected<D>(
      glob: (Key, Pattern) -> bool, defaultTtl: Option<real>, log: seq<Timed<D>>, key: Key, now: real): Option<D> {
    var w := LastWrite(glob, defaultTtl, log, key);
    if w.Some? && !Dead(w.value, now) then Some(w.value.data) else None
  }

  ghost predicate Monotone<D>(log: seq<Timed<D>>) {
    forall i, j | 0 <= i < j < |log| :: log[i].now <= log[j].now
  }

  /** The map agrees with the history, except that expired entries may be gone already. */
  ghost predicate Refines<D>(w: Option<Item<D>>, c: map<Key, Item<D>>, key: Key, now: real) {
    if key in c then w == Some(c[key]) else w.None? || Dead(w.value, now)
  }

  lemma StepRefines<D>(
      glob: (Key, Pattern) -> bool, defaultTtl: Option<real>, log: seq<Timed<D>>, c: map<Key, Item<D>>, e: Timed<D>,
      key: Key, before: real)
    requires Refines(LastWrite(glob, defaultTtl, log, key), c, key, before) && before <= e.now
    ensures Refines(LastWrite(glob, defaultTtl, log + [e], key), Apply(glob, defaultTtl, c, e), key, e.now)
  {
    assert (log + [e])[..|log|] == log;
  }

  lemma {:induction false} CacheRefinesHistory<D>(
      glob: (Key, Pattern) -> bool, defaultTtl: Option<real>, log: seq<Timed<D>>, key: Key, now: real)
    requires Monotone(log) && (log != [] ==> log[|log| - 1].now <= now)
    ensures Refines(LastWrite(glob, defaultTtl, log, key), RunAll(glob, defaultTtl, log), key, now)
  {
    if log != [] {
      var rest, e := log[..|log| - 1], log[|log| - 1];
      var before := if rest == [] then e.now else rest[|rest| - 1].now;
      CacheRefinesHistory(glob, defaultTtl, rest, key, before);
      StepRefines(glob, defaultTtl, rest, RunAll(glob, defaultTtl, rest), e, key, before);
      assert rest + [e] == log;
    }
  }

  /** Under a clock that never goes back, every read after every run answers what the history says. */
  lemma ReadsAreCorrect<D>(
      glob: (Key, Pattern) -> bool, defaultTtl: Option<real>, log: seq<Timed<D>>, key: Key, now: real)
    requires Monotone(log) && (log != [] ==> log[|log| - 1].now <= now)
    ensures Answer(RunAll(glob, defaultTtl, log), key, now) == Expected(glob, defaultTtl, log, key, now)
  {
    CacheRefinesHistory(glob, defaultTtl, log, key, now);
  }

  // ------------------------------------------------ the same, in terms of the log alone

  /** The operation writes or removes the key. */
  predicate Touches<D>(glob: (Key, Pattern) -> bool, op: Op<D>, key: Key) {
    match op
    case Get(_) => false
    case Set(k, _, _) => k == key
    case Del(keys) => key in keys
    case Clean(patterns) => exists p <- patterns :: glob(key, p)
    case CheckTTL => false
  }

  /** The entry at position i of the log writes the key, and nothing after it writes or removes it. */
  ghost predicate LastSet<D>(glob: (Key, Pattern) -> bool, log: seq<Timed<D>>, key: Key, i: nat) {
    && i < |log| && log[i].op.Set? && log[i].op.key == key
    && forall j | i < j < |log| :: !Touches(glob, log[j].op, key)
  }

  /**
   More than its time to live has passed since it was written: the given one, else the default one, in
   seconds; none and zero mean for ever. A sum of exactly zero also means for ever.
   */
  ghost predicate Outlived<D>(defaultTtl: Option<real>, e: Timed<D>, now: real)
    requires e.op.Set?
  {
    var seconds := match e.op.ttl
                   case Some(t) => t
                   case None => if defaultTtl.Some? then defaultTtl.value else 0.0;
    seconds != 0.0 && now - e.now > 1000.0 * seconds && e.now != -1000.0 * seconds
  }

  lemma OneLastSet<D>(glob: (Key, Pattern) -> bool, log: seq<Timed<D>>, key: Key, i: nat, j: nat)
    requires LastSet(glob, log, key, i) && LastSet(glob, log, key, j)
    ensures i == j
  {
    assert Touches(glob, log[i].op, key) && Touches(glob, log[j].op, key);
  }

  lemma LastSetSnoc<D>(glob: (Key, Pattern) -> bool, log: seq<Timed<D>>, e: Timed<D>, key: Key, i: nat)
    ensures LastSet(glob, log + [e], key, i) <==>
              if i == |log| then e.op.Set? && e.op.key == key
              else LastSet(glob, log, key, i) && !Touches(glob, e.op, key)
  {
    var all := log + [e];
    assert all[|log|] == e && forall j | 0 <= j < |log| :: all[j] == log[j];
    if i < |log| && LastSet(glob, all, key, i) { assert !Touches(glob, all[|log|].op, key); }
  }

  lemma {:induction false} LastWriteIsLastSet<D>(
      glob: (Key, Pattern) -> bool, defaultTtl: Option<real>, log: seq<Timed<D>>, key: Key)
    ensures var w := LastWrite(glob, defaultTtl, log, key);
            && (w.None? ==> forall i: nat :: !LastSet(glob, log, key, i))
            && (w.Some? ==> exists i: nat :: LastSet(glob, log, key, i) && w.value.data == log[i].op.data
                                       && forall now: real :: Dead(w.value, now) <==> Outlived(defaultTtl, log[i], now))
  {
    if log != [] {
      var rest, e := log[..|log| - 1], log[|log| - 1];
      assert log == rest + [e];
      LastWriteIsLastSet(glob, defaultTtl, rest, key);
      forall i: nat { LastSetSnoc(glob, rest, e, key, i); }
      if e.op.Set? && e.op.key == key {
        assert LastSet(glob, log, key, |rest|);
        DeadIsOutlived(defaultTtl, e);
      } else if !Touches(glob, e.op, key) && LastWrite(glob, defaultTtl, rest, key).Some? {
        var i: nat :| LastSet(glob, rest, key, i)
          && LastWrite(glob, defaultTtl, rest, key).value.data == rest[i].op.data
          && forall now: real :: Dead(LastWrite(glob, defaultTtl, rest, key).value, now)
                                 <==> Outlived(defaultTtl, rest[i], now);
        assert LastSet(glob, log, key, i) && log[i] == rest[i];
      }
    }
  }

  lemma DeadIsOutlived<D>(defaultTtl: Option<real>, e: Timed<D>)
    requires e.op.Set?
    ensures forall now: real ::
              Dead(NewItem(e.op.data, e.op.ttl, defaultTtl, e.now), now) <==> Outlived(defaultTtl, e, now)
  {
  }

  /**
   Under a clock that never goes back, a read answers with some data if and only if the last operation
   of the log that touches the key wrote that data and its time to live has not passed.
   */
  lemma ReadAnswersLastSet<D>(
      glob: (Key, Pattern) -> bool, defaultTtl: Option<real>, log: seq<Timed<D>>, key: Key, now: real, data: D)
    requires Monotone(log) && (log != [] ==> log[|log| - 1].now <= now)
    ensures Answer(RunAll(glob, defaultTtl, log), key, now) == Some(data) <==>
              exists i: nat ::
                LastSet(glob, log, key, i) && log[i].op.data == data && !Outlived(defaultTtl, log[i], now)
  {
    ReadsAreCorrect(glob, defaultTtl, log, key, now);
    LastWriteIsLastSet(glob, defaultTtl, log, key);
    var w := LastWrite(glob, defaultTtl, log, key);
    if w.Some? {
      var i: nat :| LastSet(glob, log, key, i) && w.value.data == log[i].op.data
        && (Dead(w.value, now) <==> Outlived(defaultTtl, log[i], now));
      forall j: nat | LastSet(glob, log, key, j) ensures j == i { OneLastSet(glob, log, key, i, j); }
    }
  }

  /** A read removes the entry it finds expired, a sweep all of them; nothing else goes. */
  lemma ExpiredIsRemoved<D>(
      glob: (Key, Pattern) -> bool, defaultTtl: Option<real>, c: map<Key, Item<D>>, key: Key, now: real)
    ensures var after := Apply(glob, defaultTtl, c, Timed(Get(key), now));
            forall k :: (k in after <==> k in c && !(k == key && Dead(c[k], now))) && (k in after ==> after[k] == c[k])
    ensures var after := Apply(glob, defaultTtl, c, Timed(CheckTTL, now));
            forall k :: (k in after <==> k in c && !Dead(c[k], now)) && (k in after ==> after[k] == c[k])
  {
  }

  /** The run without its sweeps. */
  function NoSweeps<D>(log: seq<Timed<D>>): seq<Timed<D>> {
    if log == [] then []
    else NoSweeps(log[..|log| - 1]) + (if log[|log| - 1].op.CheckTTL? then [] else [log[|log| - 1]])
  }

  lemma {:induction false} SweepsLeaveHistory<D>(
      glob: (Key, Pattern) -> bool, defaultTtl: Option<real>, log: seq<Timed<D>>, key: Key)
    ensures LastWrite(glob, defaultTtl, NoSweeps(log), key) == LastWrite(glob, defaultTtl, log, key)
  {
    if log != [] {
      var rest, e := log[..|log| - 1], log[|log| - 1];
      SweepsLeaveHistory(glob, defaultTtl, rest, key);
      if e.op.CheckTTL? {
        assert NoSweeps(log) == NoSweeps(rest);
      } else {
        assert NoSweeps(log) == NoSweeps(rest) + [e];
        assert (NoSweeps(rest) + [e])[..|NoSweeps(rest)|] == NoSweeps(rest);
      }
    }
  }

  lemma {:induction false} NoSweepsMonotone<D>(log: seq<Timed<D>>, now: real)
    requires Monotone(log) && (log != [] ==> log[|log| - 1].now <= now)
    ensures Monotone(NoSweeps(log)) && forall e <- NoSweeps(log) :: e.now <= now
  {
    if log != [] {
      NoSweepsMonotone(log[..|log| - 1], log[|log| - 1].now);
    }
  }

  /** Inserting or leaving out sweeps anywhere changes no answer. */
  lemma SweepsAreInvisible<D>(
      glob: (Key, Pattern) -> bool, defaultTtl: Option<real>, log: seq<Timed<D>>, key: Key, now: real)
    requires Monotone(log) && (log != [] ==> log[|log| - 1].now <= now)
    ensures Answer(RunAll(glob, defaultTtl, NoSweeps(log)), key, now) == Answer(RunAll(glob, defaultTtl, log), key, now)
  {
    NoSweepsMonotone(log, now);
    var short := NoSweeps(log);
    assert short != [] ==> short[|short| - 1] in short;
    ReadsAreCorrect(glob, defaultTtl, log, key, now);
    ReadsAreCorrect(glob, defaultTtl, short, key, now);
    SweepsLeaveHistory(glob, defaultTtl, log, key);
  }

  /** A clock that goes back can tell: the expired entry was removed and does not reappear. */
  lemma ClockGoingBackLosesEntry<D>(glob: (Key, Pattern) -> bool, key: Key, data: D)
    ensures
      var log := [Timed(Set(key, data, Some(1.0)), 1.0), Timed(CheckTTL, 2000.0)];
      && Answer(RunAll(glob, None, log), key, 500.0) == None
      && Expected(glob, None, log, key, 500.0) == Some(data)
  {
    var log := [Timed(Set(key, data, Some(1.0)), 1.0), Timed(CheckTTL, 2000.0)];
    var first := log[..1];
    assert first == [log[0]] && first[..0] == [];
    assert RunAll(glob, None, first) == map[key := Item(data, Some(1001.0))];
    assert LastWrite(glob, None, first, key) == Some(Item(data, Some(1001.0)));
  }

  // ------------------------------------------------------------------------ the class

  class Cacher<D> {
    const defaultTtl: Option<real>
    const glob: (Key, Pattern) -> bool
    var cache: map<Key, Item<D>>

    constructor (glob: (Key, Pattern) -> bool, defaultTtl: Option<real>)
      ensures cache == map[] && this.defaultTtl == defaultTtl && this.glob == glob
    {
      this.glob := glob;
      this.defaultTtl := defaultTtl;
      cache := map[];
    }

    method GetItem(key: Key, now: real) returns (r: Option<D>)
      modifies this
      ensures r == Answer(old(cache), key, now)
      ensures cache == Apply(glob, defaultTtl, old(cache), Timed(Get(key), now))
    {
      if key in cache {
        var item := cache[key];
        if item.expire.Some? && item.expire.value != 0.0 && item.expire.value < now {
          cache := cache - {key};
          return None;
        }
        return Some(item.data);
      }
      r := None;
    }

    method SetItem(key: Key, data: D, ttl: Option<real>, now: real)
      modifies this
      ensures cache == Apply(glob, defaultTtl, old(cache), Timed(Set(key, data, ttl), now))
    {
      var t := ttl;
      if t.None? {
        t := defaultTtl;
      }
      var expire := None;
      if t.Some? && t.value != 0.0 {
        expire := Some(now + t.value * 1000.0);
      }
      cache := cache[key := Item(data, expire)];
    }

    method DelItems(keys: seq<Key>, now: real)
      modifies this
      ensures cache == Apply(glob, defaultTtl, old(cache), Timed(Del(keys), now))
    {
      ghost var before := cache;
      for i := 0 to |keys|
        invariant cache == map k | k in before && k !in keys[..i] :: before[k]
      {
        cache := cache - {keys[i]};
        assert keys[..i + 1] == keys[..i] + [keys[i]];
      }
      assert keys[..|keys|] == keys;
    }

    method CleanItems(patterns: seq<Pattern>, now: real)
      modifies this
      ensures cache == Apply(glob, defaultTtl, old(cache), Timed(Clean(patterns), now))
    {
      ghost var before := cache;
      var todo := cache.Keys;
      while todo != {}
        invariant todo <= cache.Keys
        invariant cache == map k | k in before && (k in todo || !Matches(glob, patterns, k)) :: before[k]
        decreases todo
      {
        var key :| key in todo;
        if exists p <- patterns :: glob(key, p) {
          cache := cache - {key};
        }
        todo := todo - {key};
      }
    }

    method Sweep(now: real)
      modifies this
      ensures cache == Apply(glob, defaultTtl, old(cache), Timed(CheckTTL, now))
    {
      ghost var before := cache;
      var todo := cache.Keys;
      while todo != {}
        invariant todo <= cache.Keys
        invariant cache == map k | k in before && (k in todo || !Dead(before[k], now)) :: before[k]
        decreases todo
      {
        var key :| key in todo;
        var item := cache[key];
        if item.expire.Some? && item.expire.value != 0.0 && item.expire.value < now {
          cache := cache - {key};
        }
        todo := todo - {key};
      }
    }
  }
}
