/**
 The registry as the broker holds it: an object whose methods update the catalogs step by step.
 Every method is tied to the step function of the same name and keeps the index consistent.
 */
module ServiceRegistry {
  import opened Prelude
  import opened Registry
  import opened RegistryUpdates

  lemma DropOneMore(s: State, node: NodeId, done: set<Topic>, t: Topic)
    ensures DropTopics(DropTopics(s, node, done), node, {t}) == DropTopics(s, node, done + {t})
  {
    var a, b := DropTopics(DropTopics(s, node, done), node, {t}), DropTopics(s, node, done + {t});
    forall k | k in a.lists
      ensures a.lists[k] == b.lists[k]
    {
      if TopicOf(k) in done { WhereTwice(s.lists[k].endpoints, NotOn(node), NotOn(node)); }
    }
  }

  lemma {:induction false} NotByTwice(es: seq<Ep>, a: set<nat>, b: set<nat>)
    ensures Where(Where(es, NotBy(a)), NotBy(b)) == Where(es, NotBy(a + b))
  {
    if es != [] {
      NotByTwice(es[1..], a, b);
      var rest := Where(es[1..], NotBy(a));
      if es[0].sid !in a { assert ([es[0]] + rest)[1..] == rest; }
    }
  }

  lemma DropSidsTwice(lists: map<Key, EpList>, a: set<nat>, b: set<nat>, self: NodeId)
    ensures DropSids(DropSids(lists, a, self), b, self) == DropSids(lists, a + b, self)
  {
    forall k | k in lists
      ensures DropSids(DropSids(lists, a, self), b, self)[k] == DropSids(lists, a + b, self)[k]
    {
      NotByTwice(lists[k].endpoints, a, b);
    }
  }

  /** Taking out the services of a node one by one. */
  function Purge(lists: map<Key, EpList>, services: seq<Item>, node: NodeId, self: NodeId): map<Key, EpList>
    decreases |services|
  {
    if services == [] then lists
    else if services[0].node == node then Purge(DropSids(lists, {services[0].sid}, self), services[1..], node, self)
    else Purge(lists, services[1..], node, self)
  }

  lemma {:induction false} PurgeIsDrop(
      lists: map<Key, EpList>, gone: set<nat>, services: seq<Item>, node: NodeId, self: NodeId)
    ensures Purge(DropSids(lists, gone, self), services, node, self) ==
          DropSids(lists, gone + SidsOf(services, node), self)
    decreases |services|
  {
    if services == [] {
      assert gone + SidsOf([], node) == gone;
    } else {
      var x := services[0];
      assert services == [x] + services[1..];
      SidsOfCons(x, services[1..], node);
      if x.node == node {
        DropSidsTwice(lists, gone, {x.sid}, self);
        PurgeIsDrop(lists, gone + {x.sid}, services[1..], node, self);
        assert gone + {x.sid} + SidsOf(services[1..], node) == gone + SidsOf(services, node);
      } else {
        PurgeIsDrop(lists, gone, services[1..], node, self);
        assert SidsOf(services[1..], node) == SidsOf(services, node);
      }
    }
  }

  lemma {:induction false} DropNoSids(es: seq<Ep>)
    ensures Where(es, NotBy({})) == es
  {
    if es != [] { DropNoSids(es[1..]); }
  }

  class Catalog {
    const self: NodeId
    var services: seq<Item>
    var lists: map<Key, EpList>
    var nodes: map<NodeId, Node>
    var next: nat

    ghost function View(): State
      reads this
    {
      State(self, services, lists, nodes, next)
    }

    constructor (self: NodeId)
      ensures View() == Empty(self) && Inv(View())
    {
      this.self := self;
      services, lists, nodes, next := [], map[], map[], 0;
    }

    /** Position of a service in the catalog. */
    method Lookup(fullName: string, node: NodeId) returns (i: nat)
      ensures i == Find(services, fullName, node)
    {
      i := 0;
      while i < |services| && !(services[i].fullName == fullName && services[i].node == node)
        invariant i <= |services|
        invariant forall j | 0 <= j < i :: !(services[j].fullName == fullName && services[j].node == node)
      {
        i := i + 1;
      }
    }

    method AddTo(i: nat, k: Key)
      requires i < |services|
      modifies this
      ensures View() == AddKey(old(View()), i, k)
    {
      var x := services[i];
      var l := if k in lists then lists[k] else EpList([], []);
      lists := lists[k := AddEp(l, Ep(x.node, x.sid, x.name), self)];
      services := services[i := Item(x.sid, x.node, x.name, x.fullName, x.local, x.topics + {TopicOf(k)})];
    }

    method RegisterActions(i: nat, actions: seq<ActionDef>, local: bool)
      requires i < |services|
      modifies this
      ensures View() == AddKeys(old(View()), i, ActionKeys(actions, local))
    {
      var j := 0;
      while j < |actions|
        invariant j <= |actions| && |services| == |old(services)|
        invariant AddKeys(View(), i, ActionKeys(actions[j..], local)) ==
              AddKeys(old(View()), i, ActionKeys(actions, local))
      {
        ghost var ks := ActionKeys(actions[j + 1..], local);
        assert actions[j..][1..] == actions[j + 1..];
        if Visible(actions[j].visibility, local) {
          assert ([Action(actions[j].name)] + ks)[1..] == ks;
          AddTo(i, Action(actions[j].name));
        }
        j := j + 1;
      }
    }

    method RegisterEvents(i: nat, events: seq<EventDef>, service: string)
      requires i < |services|
      modifies this
      ensures View() == AddKeys(old(View()), i, EventKeys(events, service))
    {
      var j := 0;
      while j < |events|
        invariant j <= |events| && |services| == |old(services)|
        invariant AddKeys(View(), i, EventKeys(events[j..], service)) ==
              AddKeys(old(View()), i, EventKeys(events, service))
      {
        assert events[j..][1..] == events[j + 1..];
        var g := events[j].group;
        var k := Event(events[j].name, if g.Some? && g.value != "" then g.value else service);
        assert ([k] + EventKeys(events[j + 1..], service))[1..] == EventKeys(events[j + 1..], service);
        AddTo(i, k);
        j := j + 1;
      }
    }

    /** Takes the endpoints of a node out of the lists of one topic after the other. */
    method UnregisterTopics(node: NodeId, topics: set<Topic>)
      modifies this
      ensures View() == DropTopics(old(View()), node, topics)
    {
      var left := topics;
      assert DropTopics(View(), node, {}) == View();
      while left != {}
        invariant left <= topics
        invariant View() == DropTopics(old(View()), node, topics - left)
        decreases |left|
      {
        var t :| t in left;
        DropOneMore(old(View()), node, topics - left, t);
        assert topics - left + {t} == topics - (left - {t});
        lists := map k | k in lists :: if TopicOf(k) == t then Relist(Where(lists[k].endpoints, NotOn(node)),
            self) else lists[k];
        left := left - {t};
      }
      assert topics - {} == topics;
    }

    method RefreshService(i: nat, svc: ServiceInfo, prev: set<Topic>)
      requires i < |services|
      modifies this
      ensures View() == Refresh(old(View()), i, svc, prev)
    {
      var x := services[i];
      RegisterActions(i, svc.actions, x.node == self);
      UnregisterTopics(x.node, OldActions(prev) - ActionTopics(svc.actions));
      RegisterEvents(i, svc.events, x.name);
      UnregisterTopics(x.node, OldEvents(prev) - EventTopics(svc.events));
    }

    method AddService(node: NodeId, svc: ServiceInfo, local: bool) returns (i: nat)
      modifies this
      ensures View() == AddItem(old(View()), node, svc, local)
      ensures i == |old(services)| && i < |services|
    {
      i := |services|;
      services := services + [Item(next, node, svc.name, svc.fullName, local, {})];
      next := next + 1;
    }

    method RegisterLocalService(svc: ServiceInfo)
      requires Inv(View())
      modifies this
      ensures View() == RegisterLocal(old(View()), svc)
      ensures Inv(View())
    {
      RegisterLocalKeepsInv(View(), svc);
      var i := Lookup(svc.fullName, self);
      if i == |services| {
        i := AddService(self, svc, true);
        RefreshService(i, svc, {});
      }
    }

    method RegisterService(node: NodeId, svc: ServiceInfo)
      modifies this
      ensures View() == RegisterOne(old(View()), node, svc)
    {
      var i := Lookup(svc.fullName, node);
      if i < |services| {
        RefreshService(i, svc, services[i].topics);
      } else {
        i := AddService(node, svc, false);
        RefreshService(i, svc, {});
      }
    }

    method UnregisterService(fullName: string, node: NodeId)
      modifies this
      ensures View() == Unregister(old(View()), fullName, node)
    {
      var i := Lookup(fullName, node);
      if i < |services| {
        var sid := services[i].sid;
        lists := DropSids(lists, {sid}, self);
        services := services[..i] + services[i + 1..];
      }
    }

    method RegisterAll(node: NodeId, svcs: seq<ServiceInfo>)
      modifies this
      ensures View() == RegisterEach(old(View()), node, svcs)
    {
      var j := 0;
      while j < |svcs|
        invariant j <= |svcs|
        invariant RegisterEach(View(), node, svcs[j..]) == RegisterEach(old(View()), node, svcs)
      {
        assert svcs[j..][1..] == svcs[j + 1..];
        RegisterService(node, svcs[j]);
        j := j + 1;
      }
    }

    method RemoveMissing(node: NodeId, names: set<string>)
      modifies this
      ensures View() == DropMissing(old(View()), node, names, old(services))
    {
      var snapshot, j := services, 0;
      while j < |snapshot|
        invariant j <= |snapshot|
        invariant DropMissing(View(), node, names, snapshot[j..]) == DropMissing(old(View()), node, names, snapshot)
      {
        assert snapshot[j..][1..] == snapshot[j + 1..];
        var x := snapshot[j];
        if x.node == node && x.fullName !in names {
          UnregisterService(x.fullName, node);
        }
        j := j + 1;
      }
    }

    method RegisterRemoteServices(node: NodeId, svcs: seq<ServiceInfo>)
      requires Inv(View()) && node != self
      modifies this
      ensures View() == RegisterServices(old(View()), node, svcs)
      ensures Inv(View())
    {
      RegisterServicesKeepsInv(View(), node, svcs);
      RegisterAll(node, svcs);
      RemoveMissing(node, FullNames(svcs));
    }

    /** Keeps the services of other nodes and takes the endpoints of every removed one out of all lists. */
    method RemoveServicesOf(node: NodeId)
      modifies `services, `lists
      ensures services == OthersOf(old(services), node)
      ensures lists == Purge(old(lists), old(services), node, self)
    {
      var kept: seq<Item>, j := [], 0;
      while j < |services|
        invariant j <= |services| && services == old(services)
        invariant OthersOf(services, node) == kept + OthersOf(services[j..], node)
        invariant Purge(lists, services[j..], node, self) == Purge(old(lists), services, node, self)
      {
        var x := services[j];
        assert services[j..][1..] == services[j + 1..];
        if x.node == node {
          lists := DropSids(lists, {x.sid}, self);
        } else {
          kept := kept + [x];
        }
        j := j + 1;
      }
      services := kept;
    }

    method UnregisterServicesByNode(node: NodeId)
      requires Inv(View())
      modifies this
      ensures View() == UnregisterNode(old(View()), node)
      ensures Inv(View())
    {
      UnregisterNodeKeepsInv(View(), node);
      AllKeptAtFirst();
      PurgeIsDrop(lists, {}, services, node, self);
      assert {} + SidsOf(services, node) == SidsOf(services, node);
      RemoveServicesOf(node);
    }

    lemma AllKeptAtFirst()
      requires Inv(View())
      ensures lists == DropSids(lists, {}, self)
    {
      forall k | k in lists
        ensures lists[k] == Relist(Where(lists[k].endpoints, NotBy({})), self)
      {
        DropNoSids(lists[k].endpoints);
        assert ListOk(services, k, lists[k], self);
      }
    }

    method ProcessNodeInfo(p: Info)
      requires Inv(View()) && p.sender != self
      modifies this
      ensures View() == ProcessInfo(old(View()), p)
      ensures Inv(View())
    {
      ProcessInfoKeepsInv(View(), p);
      var known := p.sender in nodes;
      var n := if known then nodes[p.sender] else Node(0, None, true);
      var reconnected := known && !n.available;
      if Accepts(n, p, reconnected) {
        nodes := nodes[p.sender := Node(NewSeq(p), Some(p.instance), true)];
        if p.services.Some? {
          RegisterRemoteServices(p.sender, p.services.value);
        }
      } else {
        nodes := nodes[p.sender := n];
      }
    }

    method Disconnected(node: NodeId)
      requires Inv(View()) && node != self
      modifies this
      ensures View() == Disconnect(old(View()), node)
      ensures Inv(View())
    {
      if node in nodes && nodes[node].available {
        var n := nodes[node];
        nodes := nodes[node := Node(n.seqNo + 1, n.instance, false)];
        UnregisterServicesByNode(node);
      }
    }
  }

  lemma SidsOfCons(x: Item, rest: seq<Item>, node: NodeId)
    ensures SidsOf([x] + rest, node) == (if x.node == node then {x.sid} else {}) + SidsOf(rest, node)
  {
    assert forall y :: y in [x] + rest <==> y == x || y in rest;
  }
}
