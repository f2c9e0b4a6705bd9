/**
 What registry events do to the endpoints and services of a node, and what they leave alone.
 */
module RegistryUpdates {
  import opened Prelude
  import opened Registry

  // ------------------------------------------------ what stays as it was on other nodes

  function Foreign(s: State, k: Key, node: NodeId): seq<Ep> {
    Where(ListAt(s.lists, k).endpoints, NotOn(node))
  }

  /** Services and endpoints of all nodes but one are the same, in the same order. */
  ghost predicate SameElsewhere(s: State, t: State, node: NodeId) {
    && OthersOf(s.services, node) == OthersOf(t.services, node)
    && forall k :: Foreign(s, k, node) == Foreign(t, k, node)
  }

  lemma {:induction false} WhereAppend(a: seq<Ep>, b: seq<Ep>, p: Ep -> bool)
    ensures Where(a + b, p) == Where(a, p) + Where(b, p)
  {
    AppendTail(a, b);
    if a != [] {
      WhereAppend(a[1..], b, p);
      if p(a[0]) { Assoc([a[0]], Where(a[1..], p), Where(b, p)); }
    }
  }

  /** Filtering by q first makes no difference to p when q only takes out what p takes out. */
  lemma {:induction false} WhereTwice(es: seq<Ep>, q: Ep -> bool, p: Ep -> bool)
    requires forall e | e in es && p(e) :: q(e)
    ensures Where(Where(es, q), p) == Where(es, p)
  {
    if es != [] {
      WhereTwice(es[1..], q, p);
      assert es[0] in es;
      if q(es[0]) { WhereAppend([es[0]], Where(es[1..], q), p); }
    }
  }

  lemma {:induction false} OthersOfAppend(a: seq<Item>, b: seq<Item>, node: NodeId)
    ensures OthersOf(a + b, node) == OthersOf(a, node) + OthersOf(b, node)
  {
    AppendTail(a, b);
    if a != [] {
      OthersOfAppend(a[1..], b, node);
      if a[0].node != node { Assoc([a[0]], OthersOf(a[1..], node), OthersOf(b, node)); }
    }
  }

  lemma OthersOfUpdate(services: seq<Item>, i: nat, x: Item, node: NodeId)
    requires i < |services| && services[i].node == node && x.node == node
    ensures OthersOf(services[i := x], node) == OthersOf(services, node)
    ensures OthersOf(services[..i] + services[i + 1..], node) == OthersOf(services, node)
  {
    var a, b := services[..i], services[i + 1..];
    assert services == a + ([services[i]] + b) && services[i := x] == a + ([x] + b);
    OthersOfAppend(a, [services[i]] + b, node);
    OthersOfAppend(a, [x] + b, node);
    OthersOfAppend(a, b, node);
  }

  lemma AddKeyElsewhere(s: State, i: nat, k: Key)
    requires i < |s.services|
    ensures SameElsewhere(s, AddKey(s, i, k), s.services[i].node)
  {
    var t, x := AddKey(s, i, k), s.services[i];
    OthersOfUpdate(s.services, i, t.services[i], x.node);
    var l, ep := ListAt(s.lists, k), Ep(x.node, x.sid, x.name);
    WhereAppend(l.endpoints, [ep], NotOn(x.node));
    assert Where([ep], NotOn(x.node)) == [];
  }

  lemma {:induction false} AddKeysElsewhere(s: State, i: nat, ks: seq<Key>)
    requires i < |s.services|
    ensures var t := AddKeys(s, i, ks);
            SameElsewhere(s, t, s.services[i].node) && t.services[i].node == s.services[i].node
    decreases |ks|
  {
    if ks != [] {
      AddKeyElsewhere(s, i, ks[0]);
      AddKeysElsewhere(AddKey(s, i, ks[0]), i, ks[1..]);
    }
  }

  lemma DropTopicsElsewhere(s: State, node: NodeId, topics: set<Topic>)
    ensures SameElsewhere(s, DropTopics(s, node, topics), node)
  {
    forall k
      ensures Foreign(s, k, node) == Foreign(DropTopics(s, node, topics), k, node)
    {
      WhereTwice(ListAt(s.lists, k).endpoints, NotOn(node), NotOn(node));
    }
  }

  lemma RefreshElsewhere(s: State, i: nat, svc: ServiceInfo, prev: set<Topic>)
    requires i < |s.services|
    ensures SameElsewhere(s, Refresh(s, i, svc, prev), s.services[i].node)
  {
    var x := s.services[i];
    var s1 := AddKeys(s, i, ActionKeys(svc.actions, x.node == s.self));
    AddKeysElsewhere(s, i, ActionKeys(svc.actions, x.node == s.self));
    var s2 := DropTopics(s1, x.node, OldActions(prev) - ActionTopics(svc.actions));
    DropTopicsElsewhere(s1, x.node, OldActions(prev) - ActionTopics(svc.actions));
    var s3 := AddKeys(s2, i, EventKeys(svc.events, x.name));
    AddKeysElsewhere(s2, i, EventKeys(svc.events, x.name));
    DropTopicsElsewhere(s3, x.node, OldEvents(prev) - EventTopics(svc.events));
  }

  lemma AddItemElsewhere(s: State, node: NodeId, svc: ServiceInfo, local: bool)
    ensures SameElsewhere(s, AddItem(s, node, svc, local), node)
  {
    var x := Item(s.next, node, svc.name, svc.fullName, local, {});
    OthersOfAppend(s.services, [x], node);
    assert OthersOf([x], node) == [];
  }

  lemma RegisterNewElsewhere(s: State, node: NodeId, svc: ServiceInfo, local: bool)
    ensures SameElsewhere(s, RegisterNew(s, node, svc, local), node)
  {
    AddItemElsewhere(s, node, svc, local);
    RefreshElsewhere(AddItem(s, node, svc, local), |s.services|, svc, {});
  }

  lemma RegisterOneElsewhere(s: State, node: NodeId, svc: ServiceInfo)
    ensures SameElsewhere(s, RegisterOne(s, node, svc), node)
  {
    var i := Find(s.services, svc.fullName, node);
    if i < |s.services| {
      RefreshElsewhere(s, i, svc, s.services[i].topics);
    } else {
      RegisterNewElsewhere(s, node, svc, false);
    }
  }

  lemma {:induction false} RegisterEachElsewhere(s: State, node: NodeId, svcs: seq<ServiceInfo>)
    ensures SameElsewhere(s, RegisterEach(s, node, svcs), node)
    decreases |svcs|
  {
    if svcs != [] {
      RegisterOneElsewhere(s, node, svcs[0]);
      RegisterEachElsewhere(RegisterOne(s, node, svcs[0]), node, svcs[1..]);
    }
  }

  lemma ItemsDiffer(services: seq<Item>, i: nat, j: nat)
    requires NoDuplicates(services) && i < |services| && j < |services| && i != j
    ensures Distinct(services[i], services[j])
  {
    assert if i < j then Distinct(services[i], services[j]) else Distinct(services[j], services[i]);
  }

  /** An endpoint known to the index and owned by a service has the node of that service. */
  lemma OwnerNode(s: State, k: Key, e: Ep, i: nat)
    requires Inv(s) && i < |s.services| && e in ListAt(s.lists, k).endpoints && e.sid == s.services[i].sid
    ensures e.node == s.services[i].node
  {
    assert ListOk(s.services, k, s.lists[k], s.self);
    var x :| x in s.services && x.sid == e.sid && x.node == e.node && x.name == e.service && TopicOf(k) in x.topics;
    var j :| 0 <= j < |s.services| && s.services[j] == x;
    if i != j { ItemsDiffer(s.services, i, j); }
  }

  lemma UnregisterElsewhere(s: State, fullName: string, node: NodeId)
    requires Inv(s)
    ensures SameElsewhere(s, Unregister(s, fullName, node), node)
  {
    var i, t := Find(s.services, fullName, node), Unregister(s, fullName, node);
    if i < |s.services| {
      OthersOfUpdate(s.services, i, s.services[i], node);
      forall k
        ensures Foreign(s, k, node) == Foreign(t, k, node)
      {
        var es := ListAt(s.lists, k).endpoints;
        forall e | e in es && NotOn(node)(e)
          ensures NotBy({s.services[i].sid})(e)
        {
          if e.sid == s.services[i].sid { OwnerNode(s, k, e, i); }
        }
        WhereTwice(es, NotBy({s.services[i].sid}), NotOn(node));
      }
    }
  }

  lemma {:induction false} DropMissingElsewhere(s: State, node: NodeId, names: set<string>, snapshot: seq<Item>)
    requires Inv(s)
    ensures SameElsewhere(s, DropMissing(s, node, names, snapshot), node)
    decreases |snapshot|
  {
    if snapshot != [] {
      var x := snapshot[0];
      if x.node == node && x.fullName !in names {
        UnregisterKeepsInv(s, x.fullName, node);
        UnregisterElsewhere(s, x.fullName, node);
        DropMissingElsewhere(Unregister(s, x.fullName, node), node, names, snapshot[1..]);
      } else {
        DropMissingElsewhere(s, node, names, snapshot[1..]);
      }
    }
  }

  lemma RegisterServicesElsewhere(s: State, node: NodeId, svcs: seq<ServiceInfo>)
    requires Inv(s) && node != s.self
    ensures SameElsewhere(s, RegisterServices(s, node, svcs), node)
  {
    RegisterEachElsewhere(s, node, svcs);
    RegisterEachKeepsInv(s, node, svcs);
    var t := RegisterEach(s, node, svcs);
    DropMissingElsewhere(t, node, FullNames(svcs), t.services);
  }

  // ---------------------------------------------------------------------- losing a node

  /** In a consistent index, taking out the services of a node takes out exactly the node's endpoints. */
  lemma SidsAreNodes(s: State, k: Key, node: NodeId)
    requires Inv(s)
    ensures Where(ListAt(s.lists, k).endpoints, NotBy(SidsOf(s.services, node))) == Foreign(s, k, node)
  {
    var es, sids := ListAt(s.lists, k).endpoints, SidsOf(s.services, node);
    forall e | e in es
      ensures NotBy(sids)(e) <==> NotOn(node)(e)
    {
      assert ListOk(s.services, k, s.lists[k], s.self);
      var x :| x in s.services && x.sid == e.sid && x.node == e.node && x.name == e.service && TopicOf(k) in x.topics;
      if e.sid in sids {
        var y :| y in s.services && y.node == node && y.sid == e.sid;
        var i :| 0 <= i < |s.services| && s.services[i] == y;
        OwnerNode(s, k, e, i);
      }
    }
    WhereSame(es, NotBy(sids), NotOn(node));
  }

  lemma {:induction false} WhereSame(es: seq<Ep>, p: Ep -> bool, q: Ep -> bool)
    requires forall e | e in es :: p(e) <==> q(e)
    ensures Where(es, p) == Where(es, q)
  {
    if es != [] {
      assert es[0] in es;
      WhereSame(es[1..], p, q);
    }
  }

  /**
   When a node is lost, every list keeps exactly the endpoints of the other nodes, in order, and
   the catalog keeps exactly their services.
   */
  lemma LossIsExact(s: State, node: NodeId)
    requires Inv(s) && node in s.nodes && s.nodes[node].available
    ensures var t := Disconnect(s, node);
            && t.services == OthersOf(s.services, node)
            && t.lists.Keys == s.lists.Keys
            && (forall k | k in t.lists :: t.lists[k].endpoints == Foreign(s, k, node))
            && t.nodes == s.nodes[node := Node(s.nodes[node].seqNo + 1, s.nodes[node].instance, false)]
  {
    var t := Disconnect(s, node);
    forall k | k in t.lists
      ensures t.lists[k].endpoints == Foreign(s, k, node)
    {
      SidsAreNodes(s, k, node);
    }
  }

  lemma {:induction false} OthersOfTwice(services: seq<Item>, node: NodeId)
    ensures OthersOf(OthersOf(services, node), node) == OthersOf(services, node)
  {
    if services != [] {
      OthersOfTwice(services[1..], node);
      if services[0].node != node { OthersOfAppend([services[0]], OthersOf(services[1..], node), node); }
    }
  }

  lemma LossElsewhere(s: State, node: NodeId)
    requires Inv(s)
    ensures SameElsewhere(s, Disconnect(s, node), node)
  {
    if node in s.nodes && s.nodes[node].available {
      var t := Disconnect(s, node);
      LossIsExact(s, node);
      OthersOfTwice(s.services, node);
      forall k
        ensures Foreign(s, k, node) == Foreign(t, k, node)
      {
        WhereTwice(ListAt(s.lists, k).endpoints, NotOn(node), NotOn(node));
      }
    }
  }

  /** The node that a step is about. */
  function About(s: State, e: Step): NodeId {
    match e
    case AddLocal(_) => s.self
    case RemoveLocal(_) => s.self
    case Receive(p) => p.sender
    case Lose(node) => node
  }

  /** No step touches the services, endpoints or record of a node it is not about. */
  lemma StepsStayHome(s: State, e: Step)
    requires Inv(s)
    ensures SameElsewhere(s, Next(s, e), About(s, e))
    ensures forall n | n != About(s, e) :: Get(Next(s, e).nodes, n) == Get(s.nodes, n)
  {
    match e
    case AddLocal(svc) =>
      RegisterNewElsewhere(s, s.self, svc, true);
      RefreshFrame(AddItem(s, s.self, svc, true), |s.services|, svc, {});
    case RemoveLocal(fullName) => UnregisterElsewhere(s, fullName, s.self);
    case Receive(p) =>
      if p.sender != s.self && p.services.Some? {
        var t := WithNode(s, p.sender, Node(NewSeq(p), Some(p.instance), true));
        RegisterServicesElsewhere(t, p.sender, p.services.value);
        RegisterServicesKeepsInv(t, p.sender, p.services.value);
        assert SameElsewhere(s, t, p.sender);
      }
    case Lose(node) => LossElsewhere(s, node);
  }
}
