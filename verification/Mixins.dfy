/**
 Mixins: a service schema with mixins, which may have mixins of their own, is flattened into one
 schema. Handlers are concatenated, so their order is what the merge decides.
 */
module Mixins {
  import opened Prelude

  type Handler = nat

  datatype Phase = Before | After | Error

  /** A place in a schema that holds a list of handlers; an absent entry is an empty list. */
  datatype Slot =
    | Merged | Created | Started | Stopped          // lifecycle handlers
    | EventHandlers(event: string)
    | Hooks(phase: Phase, action: string)

  type Schema = map<Slot, seq<Handler>>

  datatype Tree = Tree(own: Schema, mixins: seq<Tree>)

  /** After and error hooks put the service's own handlers first, everything else puts them last. */
  predicate OwnFirst(k: Slot) { k.Hooks? && k.phase != Before }

  function MergeAt(mixin: Schema, own: Schema, k: Slot): seq<Handler> {
    if OwnFirst(k) then At(own, k) + At(mixin, k) else At(mixin, k) + At(own, k)
  }

  function Merge(mixin: Schema, own: Schema): Schema {
    map k | k in mixin.Keys + own.Keys :: MergeAt(mixin, own, k)
  }

  lemma MergeIsMergeAt(mixin: Schema, own: Schema, k: Slot)
    ensures At(Merge(mixin, own), k) == MergeAt(mixin, own, k)
  {
  }

  function Apply(t: Tree): Schema
    decreases t
  {
    if t.mixins == [] then t.own else Merge(Mixed(t.mixins), t.own)
  }

  /** The reduction over the reversed list of mixins. */
  function Mixed(ms: seq<Tree>): Schema
    requires ms != []
    decreases ms
  {
    if |ms| == 1 then Apply(ms[0]) else Merge(Mixed(ms[1..]), Apply(ms[0]))
  }

  // --------------------------------------------------------------- reference orders

  /** The schemas of a tree: mixins from right to left, each with its own mixins first, and the schema itself last. */
  function PostOrder(t: Tree): seq<Schema>
    decreases t
  {
    PostOrderAll(t.mixins) + [t.own]
  }

  function PostOrderAll(ms: seq<Tree>): seq<Schema>
    decreases ms
  {
    if ms == [] then [] else PostOrderAll(ms[1..]) + PostOrder(ms[0])
  }

  /** The results of f over a sequence, one after the other. */
  function Concat<T, U>(xs: seq<T>, f: T -> seq<U>): seq<U> {
    if xs == [] then [] else f(xs[0]) + Concat(xs[1..], f)
  }

  lemma {:induction false} ConcatAppend<T, U>(a: seq<T>, b: seq<T>, f: T -> seq<U>)
    ensures Concat(a + b, f) == Concat(a, f) + Concat(b, f)
  {
    if a == [] {
      assert a + b == b;
    } else {
      ConcatAppend(a[1..], b, f);
      assert (a + b)[0] == a[0] && (a + b)[1..] == a[1..] + b;
    }
  }

  function Forwards(k: Slot): Schema -> seq<Handler> { (s: Schema) => At(s, k) }

  /** The handlers of a slot, schema by schema. */
  function Handlers(ss: seq<Schema>, k: Slot): seq<Handler> { Concat(ss, Forwards(k)) }

  lemma {:induction false} ReverseAppend<T>(a: seq<T>, b: seq<T>)
    ensures Reversed(a + b) == Reversed(b) + Reversed(a)
  {
    if a == [] {
      assert a + b == b;
    } else {
      ReverseAppend(a[1..], b);
      assert (a + b)[0] == a[0] && (a + b)[1..] == a[1..] + b;
    }
  }

  /** The handlers that a list of schemas stands for in a slot. */
  function Ordered(ss: seq<Schema>, k: Slot): seq<Handler> {
    Handlers(if OwnFirst(k) then Reversed(ss) else ss, k)
  }

  lemma OrderedAppend(a: seq<Schema>, b: seq<Schema>, k: Slot)
    ensures Ordered(a + b, k) == if OwnFirst(k) then Ordered(b, k) + Ordered(a, k) else Ordered(a, k) + Ordered(b, k)
  {
    ReverseAppend(a, b);
    ConcatAppend(a, b, Forwards(k));
    ConcatAppend(Reversed(b), Reversed(a), Forwards(k));
  }

  lemma OrderedOne(s: Schema, k: Slot)
    ensures Ordered([s], k) == At(s, k)
  {
    assert [s][1..] == [] && Reversed<Schema>([]) == [];
    assert Reversed([s]) == [s];
    assert Handlers([s], k) == At(s, k) + Handlers([], k);
  }

  /**
   For every tree of mixins and every slot, the merged handlers are those of the schemas in
   post-order, or in exactly the reverse schema order for after and error hooks.
   */
  lemma {:induction false} MergedOrder(t: Tree, k: Slot)
    ensures At(Apply(t), k) == Ordered(PostOrder(t), k)
    decreases t
  {
    OrderedOne(t.own, k);
    if t.mixins == [] {
      assert PostOrder(t) == [t.own];
    } else {
      MixedOrder(t.mixins, k);
      MergeIsMergeAt(Mixed(t.mixins), t.own, k);
      OrderedAppend(PostOrderAll(t.mixins), [t.own], k);
    }
  }

  lemma {:induction false} MixedOrder(ms: seq<Tree>, k: Slot)
    requires ms != []
    ensures At(Mixed(ms), k) == Ordered(PostOrderAll(ms), k)
    decreases ms
  {
    MergedOrder(ms[0], k);
    if |ms| == 1 {
      assert PostOrderAll(ms[1..]) == [];
      assert PostOrderAll(ms) == PostOrder(ms[0]);
    } else {
      MixedOrder(ms[1..], k);
      MergeIsMergeAt(Mixed(ms[1..]), Apply(ms[0]), k);
      OrderedAppend(PostOrderAll(ms[1..]), PostOrder(ms[0]), k);
    }
  }

  /**
   By phase: before hooks, event handlers and lifecycle handlers run mixins first and the service last;
   after and error hooks run the service first and the mixins after it, the whole tree in reverse.
   */
  lemma OrderByPhase(t: Tree, action: string, event: string)
    ensures At(Apply(t), Hooks(Before, action)) == Handlers(PostOrder(t), Hooks(Before, action))
    ensures At(Apply(t), Hooks(After, action)) == Handlers(Reversed(PostOrder(t)), Hooks(After, action))
    ensures At(Apply(t), Hooks(Error, action)) == Handlers(Reversed(PostOrder(t)), Hooks(Error, action))
    ensures At(Apply(t), EventHandlers(event)) == Handlers(PostOrder(t), EventHandlers(event))
    ensures forall k | k in {Merged, Created, Started, Stopped} :: At(Apply(t), k) == Handlers(PostOrder(t), k)
  {
    MergedOrder(t, Hooks(Before, action));
    MergedOrder(t, Hooks(After, action));
    MergedOrder(t, Hooks(Error, action));
    MergedOrder(t, EventHandlers(event));
    MergedOrder(t, Merged);
    MergedOrder(t, Created);
    MergedOrder(t, Started);
    MergedOrder(t, Stopped);
  }

  // ------------------------------------------------------- nothing lost, nothing doubled

  /** The handlers of a slot in the whole tree, counted with multiplicity. */
  function InTree(t: Tree, k: Slot): multiset<Handler>
    decreases t
  {
    multiset(At(t.own, k)) + InTrees(t.mixins, k)
  }

  function InTrees(ms: seq<Tree>, k: Slot): multiset<Handler>
    decreases ms
  {
    if ms == [] then multiset{} else InTree(ms[0], k) + InTrees(ms[1..], k)
  }

  lemma {:induction false} NoHandlerLost(t: Tree, k: Slot)
    ensures multiset(At(Apply(t), k)) == InTree(t, k)
    decreases t
  {
    if t.mixins != [] {
      NoHandlerLostInMixins(t.mixins, k);
      MergeIsMergeAt(Mixed(t.mixins), t.own, k);
    }
  }

  lemma {:induction false} NoHandlerLostInMixins(ms: seq<Tree>, k: Slot)
    requires ms != []
    ensures multiset(At(Mixed(ms), k)) == InTrees(ms, k)
    decreases ms
  {
    NoHandlerLost(ms[0], k);
    if |ms| == 1 {
      assert InTrees(ms[1..], k) == multiset{};
    } else {
      NoHandlerLostInMixins(ms[1..], k);
      MergeIsMergeAt(Mixed(ms[1..]), Apply(ms[0]), k);
    }
  }

  // --------------------------------------------------------------- starting and stopping

  /** Start handlers run in merged order, stop handlers in reverse. */
  function StartRun(t: Tree): seq<Handler> { At(Apply(t), Started) }

  function StopRun(t: Tree): seq<Handler> { Reversed(At(Apply(t), Stopped)) }

  function Mirrored(k: Slot): Schema -> seq<Handler> { (s: Schema) => Reversed(At(s, k)) }

  /** The handlers of a slot, each schema's own list backwards. */
  function Backwards(ss: seq<Schema>, k: Slot): seq<Handler> { Concat(ss, Mirrored(k)) }

  lemma {:induction false} ReverseConcat<T, U>(xs: seq<T>, f: T -> seq<U>, g: T -> seq<U>)
    requires forall x | x in xs :: g(x) == Reversed(f(x))
    ensures Reversed(Concat(xs, f)) == Concat(Reversed(xs), g)
  {
    if xs != [] {
      assert xs[0] in xs && forall x | x in xs[1..] :: x in xs;
      ReverseConcat(xs[1..], f, g);
      ReverseAppend(f(xs[0]), Concat(xs[1..], f));
      ConcatAppend(Reversed(xs[1..]), [xs[0]], g);
      assert Concat([xs[0]], g) == g(xs[0]) + Concat([], g) == g(xs[0]);
    }
  }

  /** A service stops in the mirror image of the order in which it started: schemas and handlers both reversed. */
  lemma StopMirrorsStart(t: Tree)
    ensures StartRun(t) == Handlers(PostOrder(t), Started)
    ensures StopRun(t) == Backwards(Reversed(PostOrder(t)), Stopped)
  {
    MergedOrder(t, Started);
    MergedOrder(t, Stopped);
    ReverseConcat(PostOrder(t), Forwards(Stopped), Mirrored(Stopped));
  }

  // ------------------------------------------------------------------ as the code runs

  /** The merge with only some keys of the service schema done. */
  function Half(mixin: Schema, own: Schema, done: set<Slot>): Schema {
    map k | k in mixin.Keys + done :: if k in done then MergeAt(mixin, own, k) else mixin[k]
  }

  /** What the source stores for one key. */
  function Joined(res: Schema, own: Schema, k: Slot): seq<Handler> {
    if OwnFirst(k) then At(own, k) + At(res, k) else At(res, k) + At(own, k)
  }

  lemma OneMoreKey(mixin: Schema, own: Schema, done: set<Slot>, k: Slot)
    requires k in own && k !in done
    ensures var h := Half(mixin, own, done); h[k := Joined(h, own, k)] == Half(mixin, own, done + {k})
  {
    var h := Half(mixin, own, done);
    assert At(h, k) == At(mixin, k);
    assert Joined(h, own, k) == MergeAt(mixin, own, k);
  }

  lemma NoKeysDone(mixin: Schema, own: Schema)
    ensures Half(mixin, own, {}) == mixin
  {
  }

  lemma NothingToMerge(mixin: Schema, own: Schema, k: Slot)
    requires k in mixin && k !in own
    ensures MergeAt(mixin, own, k) == mixin[k]
  {
  }

  lemma AllKeysDone(mixin: Schema, own: Schema)
    ensures Half(mixin, own, own.Keys) == Merge(mixin, own)
  {
    forall k | k in mixin.Keys + own.Keys
      ensures Half(mixin, own, own.Keys)[k] == Merge(mixin, own)[k]
    {
      if k !in own { NothingToMerge(mixin, own, k); }
    }
  }

  method MergeKey(res: Schema, mixin: Schema, own: Schema, ghost done: set<Slot>, k: Slot) returns (r: Schema)
    requires k in own && k !in done && res == Half(mixin, own, done)
    ensures r == Half(mixin, own, done + {k})
  {
    OneMoreKey(mixin, own, done, k);
    r := res[k := if OwnFirst(k) then own[k] + At(res, k) else At(res, k) + own[k]];
  }

  /** Merging assigns into the copy of the mixin schema, key by key of the service schema. */
  method MergeSchemas(mixin: Schema, own: Schema) returns (res: Schema)
    ensures res == Merge(mixin, own)
  {
    NoKeysDone(mixin, own);
    res := mixin;
    ghost var done: set<Slot> := {};
    var left := own.Keys;
    while left != {}
      invariant done + left == own.Keys && done * left == {}
      invariant res == Half(mixin, own, done)
      decreases left
    {
      var k :| k in left;
      res := MergeKey(res, mixin, own, done, k);
      done, left := done + {k}, left - {k};
    }
    AllKeysDone(mixin, own);
  }

  /** The reduction from right to left. */
  method ApplyMixins(t: Tree) returns (res: Schema)
    ensures res == Apply(t)
    decreases t
  {
    if t.mixins == [] { return t.own; }
    var i := |t.mixins| - 1;
    assert t.mixins[i..] == [t.mixins[i]];
    res := ApplyMixins(t.mixins[i]);
    while i > 0
      invariant 0 <= i < |t.mixins| && res == Mixed(t.mixins[i..])
    {
      i := i - 1;
      assert t.mixins[i..][1..] == t.mixins[i + 1..];
      var m := ApplyMixins(t.mixins[i]);
      res := MergeSchemas(res, m);
    }
    assert t.mixins[0..] == t.mixins;
    res := MergeSchemas(res, t.own);
  }
}
