/**
 Runs of INFO packets and what they leave on a node: upgrades, packets that arrive out of order, and
 actions and events that nobody announces any more.
 */
module RegistryDeliveries {
  import opened Prelude
  import opened Registry
  import opened RegistryUpdates
  import opened RegistryConvergence
  import opened RegistryPresence

  // ----------------------------------------------------------- upgrading a service

  function WithEvent(name: string, fullName: string, event: string): ServiceInfo {
    ServiceInfo(name, fullName, [], [EventDef(event, None)])
  }

  lemma OneScript(s: State, node: NodeId, svc: ServiceInfo, k: Key)
    requires node != s.self
    ensures Script(s, node, [svc], k) == [Says(svc, Recall(s.services, svc.fullName, node), false, k)]
  {
    NotMentioned(s, node, [svc], 0, svc.fullName);
  }

  /** A listing that only a dropped service owns is lost, although its successor offers the key. */
  lemma UpgradeLosesKey(s: State, node: NodeId, svc: ServiceInfo, k: Key)
    requires Inv(s) && node != s.self && svc.fullName !in NamesOn(s.services, node)
    requires Offers(svc, svc.name, false, k) && svc.name in Names(s, k, node)
    ensures !Present(RegisterServices(s, node, [svc]), k, node)
    ensures NamesOn(RegisterServices(s, node, [svc]).services, node) == {svc.fullName}
  {
    var ws := Script(s, node, [svc], k);
    FoundMeansNamed(s.services, svc.fullName, node);
    OneScript(s, node, svc, k);
    UpdateLeavesKeyIff(s, node, [svc], k);
    UpdateSetsServices(s, node, [svc]);
    assert FullNames([svc]) == {svc.fullName} by { assert svc in [svc]; }
    if Backed(s, k, node, {svc.fullName}) { BackedIsNamed(s, node, k, svc.fullName); }
  }

  lemma BackedIsNamed(s: State, node: NodeId, k: Key, fullName: string)
    requires Inv(s) && Backed(s, k, node, {fullName})
    ensures fullName in NamesOn(s.services, node)
  {
    var e :| e in ListAt(s.lists, k).endpoints && e.node == node && OwnedIn(s.services, e.sid, {fullName});
    var x :| x in s.services && x.sid == e.sid && x.fullName in {fullName};
    var i :| 0 <= i < |s.services| && s.services[i] == x;
    OwnerNode(s, k, e, i);
  }

  /** The only service of a node: its keys, and no others, are on the node, and it owns them. */
  lemma OnlyService(s: State, node: NodeId, svc: ServiceInfo, k: Key)
    requires Inv(s) && node != s.self && NamesOn(s.services, node) == {}
    ensures var t := RegisterServices(s, node, [svc]);
            && NamesOn(t.services, node) == {svc.fullName}
            && Names(t, k, node) == (if Offers(svc, svc.name, false, k) then {svc.name} else {})
            && (Backed(t, k, node, {svc.fullName}) <==> Offers(svc, svc.name, false, k))
  {
    var t := RegisterOne(s, node, svc);
    FoundMeansNamed(s.services, svc.fullName, node);
    AbsentWithoutServices(s, node, k);
    RegisterOneTally(s, node, svc, k, {svc.fullName});
    RegisterOneNames(s, node, svc);
    JustOne(s, node, svc);
  }

  lemma JustOne(s: State, node: NodeId, svc: ServiceInfo)
    requires NamesOn(RegisterOne(s, node, svc).services, node) == {svc.fullName}
    ensures RegisterServices(s, node, [svc]) == RegisterOne(s, node, svc)
  {
    var t := RegisterOne(s, node, svc);
    assert [svc][1..] == [] && RegisterEach(s, node, [svc]) == RegisterEach(t, node, []) == t;
    assert FullNames([svc]) == {svc.fullName} by { assert svc in [svc]; }
    NothingMissing(t, node, {svc.fullName}, t.services);
  }

  lemma {:induction false} NothingMissing(s: State, node: NodeId, names: set<string>, snapshot: seq<Item>)
    requires NamesOn(snapshot, node) <= names
    ensures DropMissing(s, node, names, snapshot) == s
    decreases |snapshot|
  {
    if snapshot != [] {
      assert snapshot[0] in snapshot;
      assert snapshot[0].node == node ==> snapshot[0].fullName in NamesOn(snapshot, node);
      assert forall x | x in snapshot[1..] :: x in snapshot;
      NothingMissing(s, node, names, snapshot[1..]);
    }
  }

  function Announce(node: NodeId, instance: string, n: nat, svc: ServiceInfo): Step {
    Receive(Info(node, instance, n, Some([svc])))
  }

  lemma TwoSteps(s: State, a: Step, b: Step)
    ensures RunAll(s, [a, b]) == Next(Next(s, a), b)
  {
    assert [a, b][1..] == [b] && [b][1..] == [];
    assert RunAll(s, [a, b]) == RunAll(Next(s, a), [b]) == RunAll(Next(Next(s, a), b), []);
  }

  lemma AcceptFirst(s: State, node: NodeId, instance: string, n: nat, svc: ServiceInfo)
    requires Inv(s) && node != s.self && node !in s.nodes && n > 0
    ensures var u := WithNode(s, node, Node(n, Some(instance), true));
            var t := Next(s, Announce(node, instance, n, svc));
            && Inv(u) && t == RegisterServices(u, node, [svc]) && Inv(t) && t.self == s.self
            && Get(t.nodes, node) == Some(Node(n, Some(instance), true))
  {
    RegisterServicesKeepsInv(WithNode(s, node, Node(n, Some(instance), true)), node, [svc]);
  }

  lemma AcceptNext(s: State, node: NodeId, instance: string, svc: ServiceInfo)
    requires Inv(s) && node != s.self && Get(s.nodes, node) == Some(Node(1, Some(instance), true))
    ensures var u := WithNode(s, node, Node(2, Some(instance), true));
            Inv(u) && Next(s, Announce(node, instance, 2, svc)) == RegisterServices(u, node, [svc])
  {
  }

  /** A node announces one service to an empty registry, then another packet with a higher number. */
  lemma TwoAnnouncements(self: NodeId, node: NodeId, instance: string, a: ServiceInfo, b: ServiceInfo, k: Key)
    returns (u: State)
    requires node != self
    ensures Inv(u) && u.self == self && NamesOn(u.services, node) == {a.fullName}
    ensures Names(u, k, node) == if Offers(a, a.name, false, k) then {a.name} else {}
    ensures Backed(u, k, node, {a.fullName}) <==> Offers(a, a.name, false, k)
    ensures RunAll(Empty(self), [Announce(node, instance, 1, a), Announce(node, instance, 2, b)])
            == RegisterServices(u, node, [b])
    ensures u == WithNode(Next(Empty(self), Announce(node, instance, 1, a)), node, Node(2, Some(instance), true))
  {
    var s := Next(Empty(self), Announce(node, instance, 1, a));
    AcceptFirst(Empty(self), node, instance, 1, a);
    OnlyService(WithNode(Empty(self), node, Node(1, Some(instance), true)), node, a, k);
    AcceptNext(s, node, instance, b);
    u := WithNode(s, node, Node(2, Some(instance), true));
    TwoSteps(Empty(self), Announce(node, instance, 1, a), Announce(node, instance, 2, b));
  }

  /**
   An upgrade: a node announces version v1 of a service with an event, then version v2 in its place.
   The node is left with v2 and without an endpoint for the event.
   */
  lemma UpgradeLosesTheEvent(
      self: NodeId, node: NodeId, instance: string, name: string, v1: string, v2: string, event: string)
    requires node != self && v1 != v2
    ensures var run := [Announce(node, instance, 1, WithEvent(name, v1, event)),
                        Announce(node, instance, 2, WithEvent(name, v2, event))];
            var t := RunAll(Empty(self), run);
            NamesOn(t.services, node) == {v2} && !Present(t, Event(event, name), node)
  {
    var a, b, k := WithEvent(name, v1, event), WithEvent(name, v2, event), Event(event, name);
    OffersOwn(name, v1, event);
    OffersOwn(name, v2, event);
    var u := TwoAnnouncements(self, node, instance, a, b, k);
    UpgradeLosesKey(u, node, b, k);
  }

  lemma OffersOwn(name: string, fullName: string, event: string)
    ensures forall local: bool :: Offers(WithEvent(name, fullName, event), name, local, Event(event, name))
  {
    assert EventKeys([EventDef(event, None)], name) == [Event(event, name)];
  }

  // ------------------------------------------------- keys and the order of delivery

  /** The same two packets the other way round: the older one is not taken and the event stays. */
  lemma LateUpgradeKeepsTheEvent(
      self: NodeId, node: NodeId, instance: string, name: string, v1: string, v2: string, event: string)
    requires node != self && v1 != v2
    ensures var run := [Announce(node, instance, 2, WithEvent(name, v2, event)),
                        Announce(node, instance, 1, WithEvent(name, v1, event))];
            var t := RunAll(Empty(self), run);
            NamesOn(t.services, node) == {v2} && Present(t, Event(event, name), node)
  {
    var a, b, k := WithEvent(name, v1, event), WithEvent(name, v2, event), Event(event, name);
    var s, t := Empty(self), Next(Empty(self), Announce(node, instance, 2, b));
    AcceptFirst(s, node, instance, 2, b);
    OffersOwn(name, v2, event);
    OnlyService(WithNode(s, node, Node(2, Some(instance), true)), node, b, k);
    TwoSteps(s, Announce(node, instance, 2, b), Announce(node, instance, 1, a));
    assert Next(t, Announce(node, instance, 1, a)) == WithNode(t, node, Node(2, Some(instance), true));
  }

  lemma ElsewherePresent(s: State, t: State, home: NodeId, node: NodeId, k: Key)
    requires SameElsewhere(s, t, home) && home != node
    ensures Present(s, k, node) <==> Present(t, k, node)
  {
    assert Foreign(s, k, home) == Foreign(t, k, home);
    assert forall e: Ep | e.node == node ::
        e in ListAt(s.lists, k).endpoints <==> e in Foreign(s, k, home);
    assert forall e: Ep | e.node == node ::
        e in ListAt(t.lists, k).endpoints <==> e in Foreign(t, k, home);
  }

  /** A step that brings no newer packet of a connected node leaves its keys and its record. */
  lemma StaleStep(s: State, e: Step, node: NodeId, instance: string, n: nat, k: Key)
    requires Inv(s) && node != s.self && Get(s.nodes, node) == Some(Node(n, Some(instance), true))
    requires About(s, e) == node ==> e.Receive? && e.info.instance == instance && NewSeq(e.info) <= n
    ensures Get(Next(s, e).nodes, node) == Some(Node(n, Some(instance), true))
    ensures Present(Next(s, e), k, node) <==> Present(s, k, node)
  {
    if About(s, e) != node {
      StepsStayHome(s, e);
      ElsewherePresent(s, Next(s, e), About(s, e), node, k);
    }
  }

  lemma {:induction false} StaleRun(s: State, es: seq<Step>, node: NodeId, instance: string, n: nat, k: Key)
    requires Inv(s) && node != s.self && Get(s.nodes, node) == Some(Node(n, Some(instance), true))
    requires Undisturbed(es, node, instance) && forall p <- PacketsOf(es, node) :: NewSeq(p) <= n
    ensures Present(RunAll(s, es), k, node) <==> Present(s, k, node)
    decreases |es|
  {
    if es != [] {
      var e, ps := es[0], PacketsOf(es[1..], node);
      UndisturbedTail(es, node, instance);
      NextKeepsInv(s, e);
      assert PacketsOf(es, node) == if e.Receive? && e.info.sender == node then [e.info] + ps else ps;
      assert e.Receive? && e.info.sender == node ==> ([e.info] + ps)[0] == e.info;
      StaleStep(s, e, node, instance, n, k);
      StaleRun(Next(s, e), es[1..], node, instance, n, k);
    }
  }

  /**
   Which keys a delivery ends with is decided when its newest packet is taken: whatever came before
   and comes after, a key is on the node in the end if and only if the script of that packet lasts
   in the state it is taken in. Two deliveries of the same packets agree on a key exactly when they
   agree on this.
   */
  lemma DeliveryLeavesKeyIff(s: State, p: Info, es: seq<Step>, k: Key)
    requires Inv(s) && p.sender != s.self && p.services.Some?
    requires var known := p.sender in s.nodes;
             var n := if known then s.nodes[p.sender] else Node(0, None, true);
             Accepts(n, p, known && !n.available)
    requires Undisturbed(es, p.sender, p.instance) && forall q <- PacketsOf(es, p.sender) :: NewSeq(q) <= NewSeq(p)
    ensures var node, svcs := p.sender, p.services.value;
            Present(RunAll(s, [Receive(p)] + es), k, node)
            <==> Lasts(Backed(s, k, node, FullNames(svcs)), Names(s, k, node), Script(s, node, svcs, k))
  {
    var node, svcs := p.sender, p.services.value;
    var u := WithNode(s, node, Node(NewSeq(p), Some(p.instance), true));
    var t := RegisterServices(u, node, svcs);
    UpdateLeavesKeyIff(u, node, svcs, k);
    SameScript(s, u, node, svcs, k);
    AcceptedPacket(s, p);
    RegisterServicesKeepsInv(u, node, svcs);
    StaleRun(t, es, node, p.instance, NewSeq(p), k);
    assert ([Receive(p)] + es)[1..] == es;
  }

  lemma SameScript(s: State, u: State, node: NodeId, svcs: seq<ServiceInfo>, k: Key)
    requires u.services == s.services && u.self == s.self && u.lists == s.lists
    ensures Script(u, node, svcs, k) == Script(s, node, svcs, k)
    ensures Names(u, k, node) == Names(s, k, node)
  {
    forall j: nat | j < |svcs|
      ensures Script(u, node, svcs, k)[j] == Script(s, node, svcs, k)[j]
    {
      SameRecall(s, u, node, svcs, j, svcs[j].fullName);
    }
  }

  lemma {:induction false} SameRecall(s: State, u: State, node: NodeId, svcs: seq<ServiceInfo>, n: nat, name: string)
    requires u.services == s.services && u.self == s.self && n <= |svcs|
    ensures RecallAfter(u, node, svcs, n, name) == RecallAfter(s, node, svcs, n, name)
  {
    if n > 0 { SameRecall(s, u, node, svcs, n - 1, name); }
  }

  // --------------------------------------------------------- keys nobody announces

  /**
   A key that no service of the packet offers is on the node afterwards if and only if one of the
   listed services owned an endpoint for it and none of them retracts it: a service that goes on
   to name the event or action, in another group say, does not retract it.
   */
  lemma UnannouncedStaysIff(s: State, node: NodeId, svcs: seq<ServiceInfo>, k: Key)
    requires Inv(s) && node != s.self && forall w <- Script(s, node, svcs, k) :: !w.Offer?
    ensures Present(RegisterServices(s, node, svcs), k, node)
            <==> Backed(s, k, node, FullNames(svcs)) && !SomeRetract(Script(s, node, svcs, k))
  {
    UpdateLeavesKeyIff(s, node, svcs, k);
  }

  function InGroup(name: string, fullName: string, event: string, group: string): ServiceInfo {
    ServiceInfo(name, fullName, [], [EventDef(event, Some(group))])
  }

  lemma OffersGroup(name: string, fullName: string, event: string, group: string, other: string, shortName: string)
    requires group != ""
    ensures var svc := InGroup(name, fullName, event, group);
            && (Offers(svc, shortName, false, Event(event, other)) <==> other == group)
            && EventTopic(event) in EventTopics(svc.events)
  {
    var events := [EventDef(event, Some(group))];
    assert EventKeys(events, shortName) == [Event(event, group)] + EventKeys([], shortName);
    assert events[0] in events && EventTopic(events[0].name) in EventTopics(events);
  }

  /**
   A service moves its event to another group: the node is left with an endpoint for the old group,
   which no service announces.
   */
  lemma OldGroupStays(self: NodeId, node: NodeId, instance: string, name: string, fullName: string, event: string,
                      before: string, after: string)
    requires node != self && before != "" && after != "" && before != after
    ensures var run := [Announce(node, instance, 1, InGroup(name, fullName, event, before)),
                        Announce(node, instance, 2, InGroup(name, fullName, event, after))];
            var t := RunAll(Empty(self), run);
            && NamesOn(t.services, node) == {fullName} && Present(t, Event(event, before), node)
            && !Offers(InGroup(name, fullName, event, after), name, false, Event(event, before))
  {
    var a, b := InGroup(name, fullName, event, before), InGroup(name, fullName, event, after);
    var k := Event(event, before);
    OffersGroup(name, fullName, event, before, before, name);
    OffersGroup(name, fullName, event, after, before, name);
    var u := TwoAnnouncements(self, node, instance, a, b, k);
    forall n ensures !Offers(b, n, false, k) { OffersGroup(name, fullName, event, after, before, n); }
    StillNamed(u, node, b, k);
  }

  /** The owner of an endpoint that still names the topic keeps it, also if it no longer offers the key. */
  lemma StillNamed(s: State, node: NodeId, svc: ServiceInfo, k: Key)
    requires Inv(s) && node != s.self && Backed(s, k, node, {svc.fullName})
    requires TopicOf(k) in ActionTopics(svc.actions) + EventTopics(svc.events) && forall n :: !Offers(svc, n, false, k)
    ensures Present(RegisterServices(s, node, [svc]), k, node)
    ensures NamesOn(RegisterServices(s, node, [svc]).services, node) == {svc.fullName}
  {
    SilentScript(s, node, svc, k);
    assert FullNames([svc]) == {svc.fullName} by { assert svc in [svc]; }
    UnannouncedStaysIff(s, node, [svc], k);
    UpdateSetsServices(s, node, [svc]);
  }

  lemma SilentScript(s: State, node: NodeId, svc: ServiceInfo, k: Key)
    requires node != s.self && forall n :: !Offers(svc, n, false, k)
    requires TopicOf(k) in ActionTopics(svc.actions) + EventTopics(svc.events)
    ensures Script(s, node, [svc], k) == [Silence]
  {
    OneScript(s, node, svc, k);
  }
}
