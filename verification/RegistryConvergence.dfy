/** INFO packets: the record and the services of a node follow its newest packet. */
module RegistryConvergence {
  import opened Prelude
  import opened Registry
  import opened RegistryUpdates

  // ------------------------------------------------------------------- service names

  function NamesOn(services: seq<Item>, node: NodeId): set<string> {
    set x | x in services && x.node == node :: x.fullName
  }

  lemma GrownNames(a: seq<Item>, b: seq<Item>, node: NodeId)
    requires Grown(a, b) && |a| == |b|
    ensures NamesOn(a, node) == NamesOn(b, node)
  {
    forall x | x in a && x.node == node
      ensures x.fullName in NamesOn(b, node)
    {
      var i :| 0 <= i < |a| && a[i] == x;
      assert b[i] in b;
    }
    forall x | x in b && x.node == node
      ensures x.fullName in NamesOn(a, node)
    {
      var i :| 0 <= i < |b| && b[i] == x;
      assert a[i] in a;
    }
  }

  lemma ElsewhereNames(s: State, t: State, home: NodeId, node: NodeId)
    requires SameElsewhere(s, t, home) && home != node
    ensures NamesOn(s.services, node) == NamesOn(t.services, node)
  {
    OthersOfMembers(s.services, home);
    OthersOfMembers(t.services, home);
    assert forall x: Item | x.node == node :: x in s.services <==> x in OthersOf(s.services, home);
    assert forall x: Item | x.node == node :: x in t.services <==> x in OthersOf(t.services, home);
  }

  lemma AddItemNames(s: State, node: NodeId, svc: ServiceInfo, local: bool)
    ensures NamesOn(AddItem(s, node, svc, local).services, node) == NamesOn(s.services, node) + {svc.fullName}
  {
    var x := Item(s.next, node, svc.name, svc.fullName, local, {});
    assert forall y :: y in s.services + [x] <==> y in s.services || y == x;
    assert x in s.services + [x] && x.fullName == svc.fullName;
  }

  lemma RegisterNewNames(s: State, node: NodeId, svc: ServiceInfo)
    requires Inv(s) && node != s.self && Find(s.services, svc.fullName, node) == |s.services|
    ensures NamesOn(RegisterNew(s, node, svc, false).services, node) == NamesOn(s.services, node) + {svc.fullName}
  {
    AddItemNames(s, node, svc, false);
    AddItemKeepsInv(s, node, svc, false);
    RefreshKeepsInv(AddItem(s, node, svc, false), |s.services|, svc, {});
    GrownNames(AddItem(s, node, svc, false).services, RegisterNew(s, node, svc, false).services, node);
  }

  lemma RegisterOneNames(s: State, node: NodeId, svc: ServiceInfo)
    requires Inv(s) && node != s.self
    ensures NamesOn(RegisterOne(s, node, svc).services, node) == NamesOn(s.services, node) + {svc.fullName}
  {
    var i := Find(s.services, svc.fullName, node);
    if i < |s.services| {
      RefreshKeepsInv(s, i, svc, s.services[i].topics);
      GrownNames(s.services, RegisterOne(s, node, svc).services, node);
      assert s.services[i] in s.services;
    } else {
      RegisterNewNames(s, node, svc);
    }
  }

  lemma {:induction false} RegisterEachNames(s: State, node: NodeId, svcs: seq<ServiceInfo>)
    requires Inv(s) && node != s.self
    ensures NamesOn(RegisterEach(s, node, svcs).services, node) == NamesOn(s.services, node) + FullNames(svcs)
    decreases |svcs|
  {
    if svcs != [] {
      RegisterOneNames(s, node, svcs[0]);
      RegisterOneKeepsInv(s, node, svcs[0]);
      RegisterEachNames(RegisterOne(s, node, svcs[0]), node, svcs[1..]);
      FullNamesCons(svcs);
    }
  }

  lemma FullNamesCons(svcs: seq<ServiceInfo>)
    requires svcs != []
    ensures FullNames(svcs) == {svcs[0].fullName} + FullNames(svcs[1..])
  {
    assert svcs == [svcs[0]] + svcs[1..];
  }

  lemma RestItems(services: seq<Item>, i: nat, x: Item)
    requires i < |services| && NoDuplicates(services)
    ensures x in services[..i] + services[i + 1..] <==> x in services && x != services[i]
  {
    var rest := services[..i] + services[i + 1..];
    if x in rest {
      var j :| 0 <= j < |rest| && rest[j] == x;
      var m := if j < i then j else j + 1;
      assert services[m] == x;
      ItemsDiffer(services, m, i);
    }
    if x in services && x != services[i] {
      var j :| 0 <= j < |services| && services[j] == x;
      assert rest[if j < i then j else j - 1] == x;
    }
  }

  lemma UnregisterNames(s: State, fullName: string, node: NodeId)
    requires Inv(s)
    ensures NamesOn(Unregister(s, fullName, node).services, node) == NamesOn(s.services, node) - {fullName}
  {
    var i := Find(s.services, fullName, node);
    if i < |s.services| {
      forall x: Item
        ensures x in s.services[..i] + s.services[i + 1..] <==> x in s.services && x != s.services[i]
      {
        RestItems(s.services, i, x);
      }
      forall x | x in s.services && x != s.services[i] && x.node == node
        ensures x.fullName != fullName
      {
        var j :| 0 <= j < |s.services| && s.services[j] == x;
        ItemsDiffer(s.services, i, j);
      }
    } else {
      assert forall x | x in s.services && x.node == node :: x.fullName != fullName;
    }
  }

  lemma {:induction false} DropMissingNames(s: State, node: NodeId, names: set<string>, snapshot: seq<Item>)
    requires Inv(s)
    ensures NamesOn(DropMissing(s, node, names, snapshot).services, node)
            == NamesOn(s.services, node) - (NamesOn(snapshot, node) - names)
    decreases |snapshot|
  {
    if snapshot != [] {
      var x := snapshot[0];
      assert snapshot == [x] + snapshot[1..];
      assert NamesOn(snapshot, node) == (if x.node == node then {x.fullName} else {}) + NamesOn(snapshot[1..], node);
      if x.node == node && x.fullName !in names {
        UnregisterKeepsInv(s, x.fullName, node);
        UnregisterNames(s, x.fullName, node);
        DropMissingNames(Unregister(s, x.fullName, node), node, names, snapshot[1..]);
      } else {
        DropMissingNames(s, node, names, snapshot[1..]);
      }
    }
  }

  /** After an update the node has exactly the services of the list. */
  lemma UpdateSetsServices(s: State, node: NodeId, svcs: seq<ServiceInfo>)
    requires Inv(s) && node != s.self
    ensures NamesOn(RegisterServices(s, node, svcs).services, node) == FullNames(svcs)
  {
    RegisterEachKeepsInv(s, node, svcs);
    RegisterEachNames(s, node, svcs);
    var t := RegisterEach(s, node, svcs);
    DropMissingNames(t, node, FullNames(svcs), t.services);
  }

  // --------------------------------------------------------------------- convergence

  /** The packets of a node among the steps of a run. */
  function PacketsOf(es: seq<Step>, node: NodeId): seq<Info> {
    if es == [] then []
    else if es[0].Receive? && es[0].info.sender == node then [es[0].info] + PacketsOf(es[1..], node)
    else PacketsOf(es[1..], node)
  }

  /** The first packet with the highest sequence number. */
  function Newest(p: Info, ps: seq<Info>): (r: Info)
    ensures r == p || r in ps
    ensures NewSeq(p) <= NewSeq(r) && forall q <- ps :: NewSeq(q) <= NewSeq(r)
    decreases |ps|
  {
    if ps == [] then p else Newest(if NewSeq(ps[0]) > NewSeq(p) then ps[0] else p, ps[1..])
  }

  /** The packet r stands behind packets with lower numbers only. */
  ghost predicate FirstIn(ps: seq<Info>, earlier: seq<Info>, r: Info, later: seq<Info>) {
    ps == earlier + [r] + later && forall q <- earlier :: NewSeq(q) < NewSeq(r)
  }

  lemma FirstInCons(ps: seq<Info>, earlier: seq<Info>, r: Info, later: seq<Info>)
    requires ps != [] && FirstIn(ps[1..], earlier, r, later) && NewSeq(ps[0]) < NewSeq(r)
    ensures FirstIn(ps, [ps[0]] + earlier, r, later)
  {
    assert ps == [ps[0]] + ps[1..];
    assert [ps[0]] + (earlier + [r] + later) == [ps[0]] + earlier + [r] + later;
  }

  /** It is the first of its number: every packet before it has a lower one. */
  lemma {:induction false} NewestIsFirst(p: Info, ps: seq<Info>) returns (earlier: seq<Info>, later: seq<Info>)
    ensures FirstIn([p] + ps, earlier, Newest(p, ps), later)
  {
    var r, all := Newest(p, ps), [p] + ps;
    assert all[1..] == ps;
    if r == p {
      earlier, later := [], ps;
    } else {
      earlier, later := NewestBehind(p, ps);
      FirstInCons(all, earlier, r, later);
      earlier := [p] + earlier;
    }
  }

  lemma {:induction false} NewestBehind(p: Info, ps: seq<Info>) returns (earlier: seq<Info>, later: seq<Info>)
    requires Newest(p, ps) != p
    ensures FirstIn(ps, earlier, Newest(p, ps), later) && NewSeq(p) < NewSeq(Newest(p, ps))
    decreases |ps|
  {
    var r, q := Newest(p, ps), if NewSeq(ps[0]) > NewSeq(p) then ps[0] else p;
    if r == q {
      earlier, later := [], ps[1..];
      assert ps == [] + [r] + ps[1..];
    } else {
      earlier, later := NewestBehind(q, ps[1..]);
      FirstInCons(ps, earlier, r, later);
      earlier := [ps[0]] + earlier;
    }
  }

  /** What the packets of a node have told so far. */
  datatype Heard = Heard(seqNo: nat, names: set<string>)

  /** A packet without a service list leaves the services as they are. */
  function Tell(p: Info, names: set<string>): Heard {
    Heard(NewSeq(p), if p.services.Some? then FullNames(p.services.value) else names)
  }

  /** Only a higher number is news. */
  function Hear(h: Heard, ps: seq<Info>): Heard
    decreases |ps|
  {
    if ps == [] then h else Hear(if NewSeq(ps[0]) > h.seqNo then Tell(ps[0], h.names) else h, ps[1..])
  }

  /** What was heard has the number of the newest packet, and its services if it lists any. */
  ghost predicate Agrees(h: Heard, p: Info) {
    h.seqNo == NewSeq(p) && (p.services.Some? ==> h.names == FullNames(p.services.value))
  }

  lemma {:induction false} HeardIsNewest(h: Heard, p: Info, ps: seq<Info>)
    requires Agrees(h, p)
    ensures Agrees(Hear(h, ps), Newest(p, ps))
    decreases |ps|
  {
    if ps != [] {
      if NewSeq(ps[0]) > NewSeq(p) {
        HeardIsNewest(Tell(ps[0], h.names), ps[0], ps[1..]);
      } else {
        HeardIsNewest(h, p, ps[1..]);
      }
    }
  }

  /** The record of the node and its services are as heard. */
  ghost predicate Follows(s: State, node: NodeId, instance: string, h: Heard) {
    && Get(s.nodes, node) == Some(Node(h.seqNo, Some(instance), true))
    && NamesOn(s.services, node) == h.names
  }

  /** The node stays connected during the run and keeps its instance. */
  predicate Undisturbed(es: seq<Step>, node: NodeId, instance: string) {
    forall e | e in es ::
      match e
      case Receive(p) => p.sender == node ==> p.instance == instance
      case Lose(n) => n != node
      case _ => true
  }

  lemma UndisturbedTail(es: seq<Step>, node: NodeId, instance: string)
    requires es != [] && Undisturbed(es, node, instance)
    ensures Undisturbed(es[1..], node, instance)
    ensures es[0].Receive? && es[0].info.sender == node ==> es[0].info.instance == instance
    ensures es[0].Lose? ==> es[0].node != node
  {
    assert es[0] in es && forall x | x in es[1..] :: x in es;
  }

  /** An accepted packet. */
  lemma AcceptedPacket(s: State, p: Info)
    requires Inv(s) && p.sender != s.self
    requires var known := p.sender in s.nodes;
             var n := if known then s.nodes[p.sender] else Node(0, None, true);
             Accepts(n, p, known && !n.available)
    ensures Follows(ProcessInfo(s, p), p.sender, p.instance, Tell(p, NamesOn(s.services, p.sender)))
  {
    var t := WithNode(s, p.sender, Node(NewSeq(p), Some(p.instance), true));
    if p.services.Some? {
      UpdateSetsServices(t, p.sender, p.services.value);
      RegisterServicesKeepsInv(t, p.sender, p.services.value);
    }
  }

  /** A packet of a known node is news if and only if its number is higher. */
  lemma NextPacket(s: State, p: Info, h: Heard)
    requires Inv(s) && p.sender != s.self && Follows(s, p.sender, p.instance, h)
    ensures Follows(ProcessInfo(s, p), p.sender, p.instance, if NewSeq(p) > h.seqNo then Tell(p, h.names) else h)
  {
    if NewSeq(p) > h.seqNo { AcceptedPacket(s, p); }
  }

  /** The packet is taken: its node is new or was lost, it has started again, or the number is higher. */
  predicate Taken(s: State, p: Info) {
    || p.sender !in s.nodes
    || !s.nodes[p.sender].available
    || s.nodes[p.sender].instance != Some(p.instance)
    || p.seqNo > s.nodes[p.sender].seqNo
    || (p.seqNo == 0 && s.nodes[p.sender].seqNo == 0)
  }

  /**
   For every state and packet of another node: if the packet is taken, the record is that of the packet,
   with at least the number 1, and the services are those it lists; otherwise nothing changes.
   */
  lemma TakenIff(s: State, p: Info)
    requires Inv(s) && p.sender != s.self
    ensures var t := Next(s, Receive(p));
            && Get(t.nodes, p.sender) ==
               (if Taken(s, p) then Some(Node(if p.seqNo >= 1 then p.seqNo else 1, Some(p.instance), true))
                else Get(s.nodes, p.sender))
            && NamesOn(t.services, p.sender) ==
               (if Taken(s, p) && p.services.Some? then set v | v in p.services.value :: v.fullName
                else NamesOn(s.services, p.sender))
            && (!Taken(s, p) ==> t == s)
  {
    if Taken(s, p) { AcceptedPacket(s, p); } else { assert s.nodes[p.sender := s.nodes[p.sender]] == s.nodes; }
  }

  /** Packets that name the node itself as sender, and its own loss, are ignored. */
  lemma OwnEventsIgnored(s: State, p: Info)
    requires p.sender == s.self
    ensures Next(s, Receive(p)) == s && Next(s, Lose(s.self)) == s
  {
  }

  lemma OtherStep(s: State, node: NodeId, instance: string, h: Heard, e: Step)
    requires Inv(s) && Follows(s, node, instance, h) && About(s, e) != node
    ensures Follows(Next(s, e), node, instance, h)
  {
    StepsStayHome(s, e);
    ElsewhereNames(s, Next(s, e), About(s, e), node);
  }

  lemma {:induction false} KeepsFollowing(s: State, node: NodeId, instance: string, h: Heard, es: seq<Step>)
    requires Inv(s) && node != s.self && Follows(s, node, instance, h) && Undisturbed(es, node, instance)
    ensures Follows(RunAll(s, es), node, instance, Hear(h, PacketsOf(es, node)))
    decreases |es|
  {
    if es != [] {
      var e := es[0];
      UndisturbedTail(es, node, instance);
      NextKeepsInv(s, e);
      if e.Receive? && e.info.sender == node {
        var p := e.info;
        NextPacket(s, p, h);
        KeepsFollowing(Next(s, e), node, instance, if NewSeq(p) > h.seqNo then Tell(p, h.names) else h, es[1..]);
        assert PacketsOf(es, node) == [p] + PacketsOf(es[1..], node);
      } else {
        OtherStep(s, node, instance, h, e);
        KeepsFollowing(Next(s, e), node, instance, h, es[1..]);
        assert PacketsOf(es, node) == PacketsOf(es[1..], node);
      }
    }
  }

  /** What a connecting node is heard to say, given the services it still has. */
  function HeardFrom(names: set<string>, ps: seq<Info>): Heard
    requires ps != []
  {
    Hear(Tell(ps[0], names), ps[1..])
  }

  /** Whatever else happens, record and services of a connecting node are what its packets have told. */
  lemma {:induction false} RecordsWhatIsTold(s: State, es: seq<Step>, node: NodeId, instance: string)
    requires Inv(s) && node != s.self && Undisturbed(es, node, instance)
    requires node in s.nodes ==> !s.nodes[node].available
    requires PacketsOf(es, node) != []
    ensures Follows(RunAll(s, es), node, instance, HeardFrom(NamesOn(s.services, node), PacketsOf(es, node)))
    decreases |es|
  {
    var e, ps := es[0], PacketsOf(es, node);
    UndisturbedTail(es, node, instance);
    NextKeepsInv(s, e);
    if e.Receive? && e.info.sender == node {
      AcceptedPacket(s, e.info);
      KeepsFollowing(Next(s, e), node, instance, Tell(e.info, NamesOn(s.services, node)), es[1..]);
      assert ps == [e.info] + PacketsOf(es[1..], node);
    } else {
      StepsStayHome(s, e);
      assert About(s, e) != node;
      assert Get(Next(s, e).nodes, node) == Get(s.nodes, node);
      ElsewhereNames(s, Next(s, e), About(s, e), node);
      RecordsWhatIsTold(Next(s, e), es[1..], node, instance);
      assert ps == PacketsOf(es[1..], node);
    }
  }

  /**
   Convergence: whatever else happens in between, and in whatever order the packets of a connecting
   node arrive, its record has the number of its newest packet, and its services are those of that
   packet if it lists any.
   */
  lemma Converges(s: State, es: seq<Step>, node: NodeId, instance: string)
    requires Inv(s) && node != s.self && Undisturbed(es, node, instance)
    requires node in s.nodes ==> !s.nodes[node].available
    requires PacketsOf(es, node) != []
    ensures var ps := PacketsOf(es, node);
            var p, t := Newest(ps[0], ps[1..]), RunAll(s, es);
            && Get(t.nodes, node) == Some(Node(NewSeq(p), Some(instance), true))
            && (p.services.Some? ==> NamesOn(t.services, node) == FullNames(p.services.value))
  {
    var ps := PacketsOf(es, node);
    RecordsWhatIsTold(s, es, node, instance);
    HeardIsNewest(Tell(ps[0], NamesOn(s.services, node)), ps[0], ps[1..]);
  }

  // ------------------------------------------------------------ the order of delivery

  /** Packets of one instance of a node; no two different ones have the same number. */
  ghost predicate NumberedApart(ps: seq<Info>, node: NodeId, instance: string) {
    && ps != []
    && (forall p <- ps :: p.sender == node && p.instance == instance)
    && (forall p, q | p in ps && q in ps && NewSeq(p) == NewSeq(q) :: p == q)
  }

  /**
   A run that brings exactly these packets of the node, each as often as it is given or in any
   number of copies, in any order and amid any other events.
   */
  ghost predicate Delivers(es: seq<Step>, ps: seq<Info>, node: NodeId, instance: string, copies: bool) {
    && Undisturbed(es, node, instance)
    && if copies then forall p :: p in PacketsOf(es, node) <==> p in ps
       else multiset(PacketsOf(es, node)) == multiset(ps)
  }

  /** All deliveries end with the same services of the node. */
  ghost predicate OrderIrrelevant(s: State, ps: seq<Info>, node: NodeId, instance: string, copies: bool) {
    forall es, fs | Delivers(es, ps, node, instance, copies) && Delivers(fs, ps, node, instance, copies) ::
      NamesOn(RunAll(s, es).services, node) == NamesOn(RunAll(s, fs).services, node)
  }

  /** Every list among the packets is the one the node has already. */
  ghost predicate ListsOnly(ps: seq<Info>, names: set<string>) {
    forall p <- ps :: p.services.Some? ==> FullNames(p.services.value) == names
  }

  lemma {:induction false} HearNothingNew(h: Heard, ps: seq<Info>)
    requires forall p <- ps :: NewSeq(p) <= h.seqNo
    ensures Hear(h, ps) == h
    decreases |ps|
  {
    if ps != [] {
      assert ps[0] in ps;
      HearNothingNew(h, ps[1..]);
    }
  }

  lemma {:induction false} HearSame(h: Heard, ps: seq<Info>)
    requires ListsOnly(ps, h.names)
    ensures Hear(h, ps).names == h.names
    decreases |ps|
  {
    if ps != [] {
      assert ps[0] in ps;
      HearSame(if NewSeq(ps[0]) > h.seqNo then Tell(ps[0], h.names) else h, ps[1..]);
    }
  }

  /** The newest packet depends on the packets, not on their order. */
  lemma SameNewest(ps: seq<Info>, qs: seq<Info>)
    requires ps != [] && qs != [] && forall p :: p in ps <==> p in qs
    requires forall p, q | p in ps && q in ps && NewSeq(p) == NewSeq(q) :: p == q
    ensures Newest(qs[0], qs[1..]) == Newest(ps[0], ps[1..])
  {
    assert ps == [ps[0]] + ps[1..] && qs == [qs[0]] + qs[1..];
    var p, q := Newest(ps[0], ps[1..]), Newest(qs[0], qs[1..]);
    assert p in qs && q in ps;
  }

  lemma DeliveredSame(es: seq<Step>, ps: seq<Info>, node: NodeId, instance: string, copies: bool)
    requires Delivers(es, ps, node, instance, copies) && ps != []
    ensures PacketsOf(es, node) != [] && forall p :: p in PacketsOf(es, node) <==> p in ps
  {
    assert ps[0] in ps;
    if !copies {
      assert forall p :: p in PacketsOf(es, node) <==> p in multiset(PacketsOf(es, node));
      assert forall p :: p in ps <==> p in multiset(ps);
    }
  }

  /** What every delivery ends with, when the newest packet lists its services or nothing else is listed. */
  lemma DeliveryEnds(s: State, es: seq<Step>, ps: seq<Info>, node: NodeId, instance: string, copies: bool)
    requires Inv(s) && node != s.self && (node in s.nodes ==> !s.nodes[node].available)
    requires NumberedApart(ps, node, instance) && Delivers(es, ps, node, instance, copies)
    ensures var newest, names, t := Newest(ps[0], ps[1..]), NamesOn(s.services, node), RunAll(s, es);
            && Get(t.nodes, node) == Some(Node(NewSeq(newest), Some(instance), true))
            && (newest.services.Some? ==> NamesOn(t.services, node) == FullNames(newest.services.value))
            && (newest.services.None? && ListsOnly(ps, names) ==> NamesOn(t.services, node) == names)
  {
    var qs, names := PacketsOf(es, node), NamesOn(s.services, node);
    DeliveredSame(es, ps, node, instance, copies);
    SameNewest(ps, qs);
    Converges(s, es, node, instance);
    if ListsOnly(ps, names) {
      RecordsWhatIsTold(s, es, node, instance);
      assert qs[0] in qs && forall q | q in qs[1..] :: q in qs;
      HearSame(Tell(qs[0], names), qs[1..]);
    }
  }

  /** The run that delivers packets in a given order and nothing else. */
  function Deliveries(ps: seq<Info>): seq<Step> {
    if ps == [] then [] else [Receive(ps[0])] + Deliveries(ps[1..])
  }

  lemma {:induction false} DeliveriesDeliver(ps: seq<Info>, node: NodeId, instance: string)
    requires forall p <- ps :: p.sender == node && p.instance == instance
    ensures PacketsOf(Deliveries(ps), node) == ps && Undisturbed(Deliveries(ps), node, instance)
  {
    if ps != [] {
      var es := Deliveries(ps[1..]);
      assert ps[0] in ps && forall p | p in ps[1..] :: p in ps;
      DeliveriesDeliver(ps[1..], node, instance);
      assert ([Receive(ps[0])] + es)[1..] == es;
      assert ps == [ps[0]] + ps[1..];
      assert forall e | e in [Receive(ps[0])] + es :: e == Receive(ps[0]) || e in es;
    }
  }

  /** A packet with a list that comes before the newest, which has none, is what remains. */
  lemma ListRemains(names: set<string>, r: Info, q: Info, rest: seq<Info>)
    requires NewSeq(r) < NewSeq(q) && r.services.Some? && q.services.None?
    requires forall p <- rest :: NewSeq(p) <= NewSeq(q)
    ensures HeardFrom(names, [r, q] + rest).names == FullNames(r.services.value)
  {
    assert ([r, q] + rest)[1..] == [q] + rest && ([q] + rest)[1..] == rest;
    HearNothingNew(Heard(NewSeq(q), FullNames(r.services.value)), rest);
  }

  /** One that comes after it is not taken. */
  lemma ListIsMissed(names: set<string>, r: Info, q: Info, rest: seq<Info>)
    requires NewSeq(r) < NewSeq(q) && q.services.None?
    requires forall p <- rest :: NewSeq(p) <= NewSeq(q)
    ensures HeardFrom(names, [q, r] + rest).names == names
  {
    assert ([q, r] + rest)[1..] == [r] + rest;
    HearNothingNew(Heard(NewSeq(q), names), [r] + rest);
  }

  lemma TakeOut<T>(xs: seq<T>, x: T) returns (rest: seq<T>)
    requires x in xs
    ensures multiset(xs) == multiset{x} + multiset(rest)
  {
    var i :| 0 <= i < |xs| && xs[i] == x;
    rest := xs[..i] + xs[i + 1..];
    assert xs == xs[..i] + [x] + xs[i + 1..];
  }

  /** Two packets of a sequence come first, in either order. */
  lemma TwoFirst(ps: seq<Info>, r: Info, q: Info) returns (rest: seq<Info>)
    requires r in ps && q in ps && r != q
    ensures multiset([r, q] + rest) == multiset(ps) && multiset([q, r] + rest) == multiset(ps)
    ensures forall p | p in rest :: p in ps
  {
    var others := TakeOut(ps, r);
    assert q in multiset(ps);
    rest := TakeOut(others, q);
    assert forall p | p in rest :: p in multiset(rest) && p in multiset(ps);
  }

  lemma Delivered(
      s: State, qs: seq<Info>, ps: seq<Info>, node: NodeId, instance: string, copies: bool) returns (es: seq<Step>)
    requires Inv(s) && node != s.self && (node in s.nodes ==> !s.nodes[node].available)
    requires NumberedApart(ps, node, instance) && multiset(qs) == multiset(ps)
    ensures Delivers(es, ps, node, instance, copies) && qs != []
    ensures NamesOn(RunAll(s, es).services, node) == HeardFrom(NamesOn(s.services, node), qs).names
  {
    es := Deliveries(qs);
    assert forall p :: p in qs <==> p in multiset(qs);
    assert forall p :: p in ps <==> p in multiset(ps);
    assert ps[0] in qs;
    DeliveriesDeliver(qs, node, instance);
    RecordsWhatIsTold(s, es, node, instance);
  }

  /** Otherwise two deliveries end differently: another list before the newest packet, or after it. */
  lemma TwoDeliveriesDiffer(s: State, ps: seq<Info>, node: NodeId, instance: string, copies: bool)
    returns (es: seq<Step>, fs: seq<Step>)
    requires Inv(s) && node != s.self && (node in s.nodes ==> !s.nodes[node].available)
    requires NumberedApart(ps, node, instance)
    requires Newest(ps[0], ps[1..]).services.None? && !ListsOnly(ps, NamesOn(s.services, node))
    ensures Delivers(es, ps, node, instance, copies) && Delivers(fs, ps, node, instance, copies)
    ensures NamesOn(RunAll(s, es).services, node) != NamesOn(RunAll(s, fs).services, node)
  {
    var q, names := Newest(ps[0], ps[1..]), NamesOn(s.services, node);
    assert ps == [ps[0]] + ps[1..];
    var r :| r in ps && r.services.Some? && FullNames(r.services.value) != names;
    assert NewSeq(r) != NewSeq(q);
    var rest := TwoFirst(ps, r, q);
    ListRemains(names, r, q, rest);
    ListIsMissed(names, r, q, rest);
    es := Delivered(s, [r, q] + rest, ps, node, instance, copies);
    fs := Delivered(s, [q, r] + rest, ps, node, instance, copies);
  }

  /**
   Packets numbered apart, of a node that connects: whether each arrives once or in any number of
   copies, all deliveries end with the same services if and only if the newest packet lists its
   services, or every packet with a list lists the services that the node still has.
   */
  lemma OrderIrrelevantIff(s: State, ps: seq<Info>, node: NodeId, instance: string, copies: bool)
    requires Inv(s) && node != s.self && (node in s.nodes ==> !s.nodes[node].available)
    requires NumberedApart(ps, node, instance)
    ensures OrderIrrelevant(s, ps, node, instance, copies)
            <==> Newest(ps[0], ps[1..]).services.Some? || ListsOnly(ps, NamesOn(s.services, node))
  {
    if Newest(ps[0], ps[1..]).services.Some? || ListsOnly(ps, NamesOn(s.services, node)) {
      forall es, fs | Delivers(es, ps, node, instance, copies) && Delivers(fs, ps, node, instance, copies)
        ensures NamesOn(RunAll(s, es).services, node) == NamesOn(RunAll(s, fs).services, node)
      {
        DeliveryEnds(s, es, ps, node, instance, copies);
        DeliveryEnds(s, fs, ps, node, instance, copies);
      }
    } else {
      var es, fs := TwoDeliveriesDiffer(s, ps, node, instance, copies);
    }
  }

  /** Two runs from the empty registry: a list, then a newer packet without one; and the other way round. */
  lemma OrderMattersWithoutList(self: NodeId, node: NodeId, instance: string, svc: ServiceInfo)
    requires node != self
    ensures var p, q := Info(node, instance, 1, Some([svc])), Info(node, instance, 2, None);
            && NamesOn(RunAll(Empty(self), [Receive(p), Receive(q)]).services, node) == {svc.fullName}
            && NamesOn(RunAll(Empty(self), [Receive(q), Receive(p)]).services, node) == {}
  {
    var p, q := Info(node, instance, 1, Some([svc])), Info(node, instance, 2, None);
    assert FullNames([svc]) == {svc.fullName};
    TwoPackets(self, p, q);
    TwoPackets(self, q, p);
    ListRemains({}, p, q, []);
    ListIsMissed({}, p, q, []);
    assert [p, q] + [] == [p, q] && [q, p] + [] == [q, p];
  }

  lemma TwoPackets(self: NodeId, p: Info, q: Info)
    requires p.sender == q.sender != self && p.instance == q.instance
    ensures NamesOn(RunAll(Empty(self), [Receive(p), Receive(q)]).services, p.sender) == HeardFrom({}, [p, q]).names
  {
    var es := [Receive(p), Receive(q)];
    assert es[1..] == [Receive(q)] && [Receive(q)][1..] == [];
    assert PacketsOf([Receive(q)], p.sender) == [q] + PacketsOf([], p.sender) == [q];
    assert PacketsOf(es, p.sender) == [p] + [q];
    assert [p] + [q] == [p, q];
    RecordsWhatIsTold(Empty(self), es, p.sender, p.instance);
    assert NamesOn(Empty(self).services, p.sender) == {};
  }
}
