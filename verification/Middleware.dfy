/**
 Middleware hooks around the transporter. A hook wraps a handler so that data passes through the
 hook's transform first; send hooks are applied in the order of registration, receive hooks in reverse.
 */
module Middleware {
  import opened Prelude

  type Hook<!T> = T -> T

  /** The hooks of a middleware by name. */
  type Hooks<!T> = map<string, Hook<T>>

  /** A handler wrapped by a hook. */
  function Through<T, R>(hook: Hook<T>, next: T -> R): T -> R { (x: T) => next(hook(x)) }

  /** Wraps a handler by one hook after the other. */
  function Wrapped<T, R>(hooks: seq<Hook<T>>, handler: T -> R): T -> R
    decreases |hooks|
  {
    if hooks == [] then handler else Wrapped(hooks[1..], Through(hooks[0], handler))
  }

  /** The hooks that a list of middlewares registers under a name, in order. */
  function Registered<T>(mws: seq<Hooks<T>>, name: string): seq<Hook<T>> {
    if mws == [] then []
    else if name in mws[0] then [mws[0][name]] + Registered(mws[1..], name)
    else Registered(mws[1..], name)
  }

  /** The transform of a middleware under a name; without a hook data passes unchanged. */
  function Effect<T>(mw: Hooks<T>, name: string, x: T): T { if name in mw then mw[name](x) else x }

  /** Sending passes through the last registered middleware first. */
  function Sent<T>(mws: seq<Hooks<T>>, name: string, x: T): T {
    if mws == [] then x else Effect(mws[0], name, Sent(mws[1..], name, x))
  }

  /** Receiving passes through the first registered middleware first. */
  function Received<T>(mws: seq<Hooks<T>>, name: string, x: T): T
    decreases |mws|
  {
    if mws == [] then x else Received(mws[1..], name, Effect(mws[0], name, x))
  }

  lemma {:induction false} WrappedAppend<T, R>(a: seq<Hook<T>>, b: seq<Hook<T>>, handler: T -> R)
    ensures Wrapped(a + b, handler) == Wrapped(b, Wrapped(a, handler))
    decreases |a|
  {
    if a == [] {
      assert a + b == b;
    } else {
      assert (a + b)[0] == a[0] && (a + b)[1..] == a[1..] + b;
      WrappedAppend(a[1..], b, Through(a[0], handler));
    }
  }

  /** The wrapped send handler sees the data as all middlewares, last one first, have transformed it. */
  lemma {:induction false} SendOrder<T, R>(mws: seq<Hooks<T>>, name: string, handler: T -> R, x: T)
    ensures Wrapped(Registered(mws, name), handler)(x) == handler(Sent(mws, name, x))
    decreases |mws|
  {
    if mws != [] {
      var rest := Registered(mws[1..], name);
      if name in mws[0] {
        var f := mws[0][name];
        assert ([f] + rest)[0] == f && ([f] + rest)[1..] == rest;
        SendOrder(mws[1..], name, Through(f, handler), x);
      } else {
        SendOrder(mws[1..], name, handler, x);
      }
    }
  }

  /** The wrapped receive handler sees the data as all middlewares, first one first, have transformed it. */
  lemma {:induction false} ReceiveOrder<T, R>(mws: seq<Hooks<T>>, name: string, handler: T -> R, x: T)
    ensures Wrapped(Reversed(Registered(mws, name)), handler)(x) == handler(Received(mws, name, x))
    decreases |mws|
  {
    if mws != [] {
      var rest := Registered(mws[1..], name);
      if name in mws[0] {
        var f := mws[0][name];
        var inner := Wrapped(Reversed(rest), handler);
        assert ([f] + rest)[0] == f && ([f] + rest)[1..] == rest;
        WrappedAppend(Reversed(rest), [f], handler);
        assert Wrapped([f], inner) == Wrapped([f][1..], Through(f, inner)) == Through(f, inner);
        ReceiveOrder(mws[1..], name, handler, f(x));
      } else {
        ReceiveOrder(mws[1..], name, handler, x);
      }
    }
  }

  const SEND := "transporterSend"
  const RECEIVE := "transporterReceive"

  /** The receive transform of a middleware undoes its send transform. */
  ghost predicate Undoes<T(!new)>(mw: Hooks<T>) {
    forall x :: Effect(mw, RECEIVE, Effect(mw, SEND, x)) == x
  }

  lemma {:induction false} ReceivedUndoesSent<T(!new)>(mws: seq<Hooks<T>>, x: T)
    requires forall mw <- mws :: Undoes(mw)
    ensures Received(mws, RECEIVE, Sent(mws, SEND, x)) == x
    decreases |mws|
  {
    if mws != [] {
      assert mws[0] in mws && forall mw | mw in mws[1..] :: mw in mws;
      ReceivedUndoesSent(mws[1..], x);
    }
  }

  /**
   For every list of middlewares, if each undoes itself then whatever is sent through the wrapped
   send reaches the receiving handler unchanged through the wrapped receive.
   */
  lemma WireIsTransparent<T(!new), R>(mws: seq<Hooks<T>>, wire: T -> T, handler: T -> R, x: T)
    requires (forall mw <- mws :: Undoes(mw)) && forall y :: wire(y) == y
    ensures Wrapped(Reversed(Registered(mws, RECEIVE)), handler)(Wrapped(Registered(mws, SEND), wire)(x)) == handler(x)
  {
    SendOrder(mws, SEND, wire, x);
    ReceiveOrder(mws, RECEIVE, handler, Sent(mws, SEND, x));
    ReceivedUndoesSent(mws, x);
  }

  class MiddlewareHandler<T(!new)> {
    var registered: map<string, seq<Hook<T>>>
    ghost var list: seq<Hooks<T>>

    /** The hooks under every name are those of the added middlewares, in order. */
    ghost predicate Valid()
      reads this
    {
      forall name :: At(registered, name) == Registered(list, name)
    }

    constructor ()
      ensures Valid() && list == []
    {
      registered, list := map[], [];
    }

    method Add(mw: Hooks<T>)
      requires Valid()
      modifies this
      ensures Valid() && list == old(list) + [mw]
    {
      var left := mw.Keys;
      while left != {}
        invariant left <= mw.Keys && list == old(list)
        invariant forall name :: At(registered, name)
                                 == At(old(registered), name) + if name in mw && name !in left then [mw[name]] else []
        decreases left
      {
        var key :| key in left;
        registered := registered[key := At(registered, key) + [mw[key]]];
        left := left - {key};
      }
      list := list + [mw];
      forall name: string
        ensures At(registered, name) == Registered(list, name)
      {
        RegisteredSnoc(old(list), mw, name);
      }
    }

    /** Wraps a handler by the hooks registered under a name. */
    method WrapMethod<R>(name: string, handler: T -> R, reverse: bool) returns (wrapped: T -> R)
      requires Valid()
      ensures wrapped == Wrapped(if reverse then Reversed(Registered(list, name)) else Registered(list, name), handler)
    {
      var hooks := At(registered, name);
      if reverse { hooks := Reversed(hooks); }
      wrapped := handler;
      var i := 0;
      while i < |hooks|
        invariant i <= |hooks|
        invariant Wrapped(hooks[i..], wrapped) == Wrapped(hooks, handler)
      {
        assert hooks[i..][1..] == hooks[i + 1..];
        wrapped := Through(hooks[i], wrapped);
        i := i + 1;
      }
    }
  }

  lemma {:induction false} RegisteredSnoc<T>(mws: seq<Hooks<T>>, mw: Hooks<T>, name: string)
    ensures Registered(mws + [mw], name) == Registered(mws, name) + if name in mw then [mw[name]] else []
  {
    if mws == [] {
      assert mws + [mw] == [mw] && [mw][1..] == [];
    } else {
      assert (mws + [mw])[0] == mws[0] && (mws + [mw])[1..] == mws[1..] + [mw];
      RegisteredSnoc(mws[1..], mw, name);
    }
  }
}
