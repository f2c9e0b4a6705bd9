/**
 Why the catalogs of a cluster agree on events: every node registers its services and announces
 them, and a node that has heard from all others lists for each of them what it lists itself.
 */
module EventAgreement {
  import opened Prelude
  import opened Registry
  import opened RegistryUpdates
  import opened RegistryConvergence
  import opened RegistryPresence
  import opened RegistryDeliveries
  import opened RegistryOwners
  import Routing = EventRouting

  // --------------------------------------------------------- the catalog as a list

  function Subs(es: seq<Ep>): seq<Routing.Sub> {
    seq(|es|, i requires 0 <= i < |es| => Routing.Sub(es[i].node, es[i].service))
  }

  /** The event lists of a registry, one for each name and group, in any order. */
  ghost predicate Represents(ls: seq<Routing.EventList>, s: State) {
    && (forall l <- ls :: l.endpoints == Subs(ListAt(s.lists, Event(l.pattern, l.group)).endpoints))
    && (forall i, j | 0 <= i < j < |ls| :: !(ls[i].pattern == ls[j].pattern && ls[i].group == ls[j].group))
    && (forall p, g | Event(p, g) in s.lists :: exists l <- ls :: l.pattern == p && l.group == g)
  }

  /** The index invariant makes the lists tidy. */
  lemma CatalogIsTidy(ls: seq<Routing.EventList>, s: State)
    requires Inv(s) && Represents(ls, s)
    ensures Routing.Tidy(ls)
  {
    forall l | l in ls
      ensures Routing.NoRepeats(l.endpoints)
    {
      var k := Event(l.pattern, l.group);
      if k in s.lists { assert ListOk(s.services, k, s.lists[k], s.self); }
    }
  }

  lemma ListedIsNamed(ls: seq<Routing.EventList>, s: State, p: string, g: string, e: Routing.Sub)
    requires Represents(ls, s)
    ensures Routing.Listed(ls, p, g, e) <==> e.service in Names(s, Event(p, g), e.node)
  {
    var es := ListAt(s.lists, Event(p, g)).endpoints;
    if e.service in Names(s, Event(p, g), e.node) {
      var d :| d in es && d.node == e.node && d.service == e.service;
      var i :| 0 <= i < |es| && es[i] == d;
      assert Subs(es)[i] == e;
      var l :| l in ls && l.pattern == p && l.group == g;
    }
    if Routing.Listed(ls, p, g, e) {
      var l :| l in ls && l.pattern == p && l.group == g && e in l.endpoints;
      var i :| 0 <= i < |es| && Subs(es)[i] == e;
      assert es[i] in es;
    }
  }

  // ---------------------------------------------------------- what a node announces

  /** The short names under which services offer a key. */
  function Offered(svcs: seq<ServiceInfo>, k: Key): set<string> {
    set v | v in svcs && Offers(v, v.name, false, k) :: v.name
  }

  lemma OfferedCons(svcs: seq<ServiceInfo>, k: Key)
    requires svcs != []
    ensures Offered(svcs, k) ==
              (if Offers(svcs[0], svcs[0].name, false, k) then {svcs[0].name} else {}) + Offered(svcs[1..], k)
  {
    assert svcs == [svcs[0]] + svcs[1..];
  }

  lemma {:induction false} ActionsAreNoEvents(actions: seq<ActionDef>, local: bool, k: Key)
    requires k.Event?
    ensures k !in ActionKeys(actions, local)
  {
    if actions != [] { ActionsAreNoEvents(actions[1..], local, k); }
  }

  /** Events are offered at home and abroad alike. */
  lemma EventsAreOffered(svc: ServiceInfo, name: string, k: Key)
    requires k.Event?
    ensures Offers(svc, name, true, k) <==> Offers(svc, name, false, k)
  {
    ActionsAreNoEvents(svc.actions, true, k);
    ActionsAreNoEvents(svc.actions, false, k);
  }

  /** Services with new and distinct names: none is known yet, and the others are as new after the first. */
  ghost predicate AllNew(svcs: seq<ServiceInfo>, known: set<string>) {
    DistinctNames(svcs) && FullNames(svcs) !! known
  }

  lemma NextAreNew(svcs: seq<ServiceInfo>, known: set<string>)
    requires svcs != [] && AllNew(svcs, known)
    ensures svcs[0].fullName !in known && AllNew(svcs[1..], known + {svcs[0].fullName})
  {
    FullNamesCons(svcs);
    assert svcs[0].fullName in FullNames(svcs);
  }

  /** One new service of another node. */
  lemma OneOffers(s: State, node: NodeId, v: ServiceInfo, k: Key)
    requires Inv(s) && node != s.self && v.fullName !in NamesOn(s.services, node)
    ensures var t := RegisterOne(s, node, v);
            && Inv(t) && t.self == s.self
            && NamesOn(t.services, node) == NamesOn(s.services, node) + {v.fullName}
            && Names(t, k, node) == Names(s, k, node) + if Offers(v, v.name, false, k) then {v.name} else {}
  {
    FoundMeansNamed(s.services, v.fullName, node);
    RegisterOneTally(s, node, v, k, {v.fullName});
    RegisterOneNames(s, node, v);
    RegisterOneKeepsInv(s, node, v);
    SelfStays(s, node, v);
  }

  lemma {:induction false} EachOffers(s: State, node: NodeId, svcs: seq<ServiceInfo>, k: Key)
    requires Inv(s) && node != s.self && AllNew(svcs, NamesOn(s.services, node))
    ensures Names(RegisterEach(s, node, svcs), k, node) == Names(s, k, node) + Offered(svcs, k)
    decreases |svcs|
  {
    if svcs != [] {
      NextAreNew(svcs, NamesOn(s.services, node));
      OneOffers(s, node, svcs[0], k);
      EachOffers(RegisterOne(s, node, svcs[0]), node, svcs[1..], k);
      OfferedCons(svcs, k);
    }
  }

  /** A packet of a node that has no services yet: each key is listed under the names that offer it. */
  lemma FreshNodeLists(s: State, node: NodeId, svcs: seq<ServiceInfo>, k: Key)
    requires Inv(s) && node != s.self && NamesOn(s.services, node) == {} && DistinctNames(svcs)
    ensures Names(RegisterServices(s, node, svcs), k, node) == Offered(svcs, k)
  {
    var t := RegisterEach(s, node, svcs);
    AbsentWithoutServices(s, node, k);
    EachOffers(s, node, svcs, k);
    RegisterEachNames(s, node, svcs);
    NothingMissing(t, node, FullNames(svcs), t.services);
  }

  /** One new local service. */
  lemma OneLocalOffers(s: State, v: ServiceInfo, k: Key)
    requires Inv(s) && k.Event? && v.fullName !in NamesOn(s.services, s.self)
    ensures var t := RegisterLocal(s, v);
            && Inv(t) && t.self == s.self
            && NamesOn(t.services, s.self) == NamesOn(s.services, s.self) + {v.fullName}
            && Names(t, k, s.self) == Names(s, k, s.self) + if Offers(v, v.name, false, k) then {v.name} else {}
  {
    FoundMeansNamed(s.services, v.fullName, s.self);
    EventsAreOffered(v, v.name, k);
    LocalNames(s, v, k);
    LocalNamesOn(s, v);
    NextKeepsInv(s, AddLocal(v));
  }

  /** Local services: each event is listed under the names that offer it. */
  lemma {:induction false} LocalsOffer(s: State, svcs: seq<ServiceInfo>, k: Key)
    requires Inv(s) && k.Event? && AllNew(svcs, NamesOn(s.services, s.self))
    ensures var t := RegisterLocals(s, svcs); t.self == s.self && Inv(t)
    ensures Names(RegisterLocals(s, svcs), k, s.self) == Names(s, k, s.self) + Offered(svcs, k)
    decreases |svcs|
  {
    if svcs != [] {
      NextAreNew(svcs, NamesOn(s.services, s.self));
      OneLocalOffers(s, svcs[0], k);
      LocalsOffer(RegisterLocal(s, svcs[0]), svcs[1..], k);
      OfferedCons(svcs, k);
    }
  }

  /** Local services are nobody else's. */
  lemma {:induction false} LocalsStayHome(s: State, svcs: seq<ServiceInfo>, n: NodeId)
    requires Inv(s) && n != s.self
    ensures var t := RegisterLocals(s, svcs);
            NamesOn(t.services, n) == NamesOn(s.services, n) && Get(t.nodes, n) == Get(s.nodes, n) && Inv(t)
    decreases |svcs|
  {
    if svcs != [] {
      var e := AddLocal(svcs[0]);
      StepsStayHome(s, e);
      ElsewhereNames(s, Next(s, e), s.self, n);
      NextKeepsInv(s, e);
      LocalsStayHome(Next(s, e), svcs[1..], n);
    }
  }

  // ------------------------------------------------------------- who heard from whom

  function Senders(es: seq<Step>): set<NodeId> {
    set e | e in es && e.Receive? :: e.info.sender
  }

  /** A run in which a node hears from others, at most once from each, what services they have. */
  ghost predicate Hears(es: seq<Step>, plans: map<NodeId, seq<ServiceInfo>>, self: NodeId) {
    && (forall e <- es :: && e.Receive? && e.info.sender in plans && e.info.sender != self
                          && e.info.services == Some(plans[e.info.sender]))
    && (forall i, j | 0 <= i < j < |es| :: es[i].info.sender != es[j].info.sender)
  }

  lemma HearsTail(es: seq<Step>, plans: map<NodeId, seq<ServiceInfo>>, self: NodeId)
    requires es != [] && Hears(es, plans, self)
    ensures Hears(es[1..], plans, self) && es[0].info.sender !in Senders(es[1..])
    ensures Senders(es) == {es[0].info.sender} + Senders(es[1..])
  {
    assert es == [es[0]] + es[1..];
    assert es[0] in es && forall e | e in es[1..] :: e in es;
  }

  lemma ElsewhereListed(s: State, t: State, home: NodeId, n: NodeId, k: Key)
    requires SameElsewhere(s, t, home) && home != n
    ensures Names(t, k, n) == Names(s, k, n)
  {
    assert Foreign(s, k, home) == Foreign(t, k, home);
    assert forall e: Ep | e.node == n :: e in ListAt(s.lists, k).endpoints <==> e in Foreign(s, k, home);
    assert forall e: Ep | e.node == n :: e in ListAt(t.lists, k).endpoints <==> e in Foreign(t, k, home);
  }

  /** The first packet of a node. */
  lemma FirstPacketLists(s: State, p: Info, svcs: seq<ServiceInfo>, k: Key)
    requires Inv(s) && p.sender != s.self && p.sender !in s.nodes && NamesOn(s.services, p.sender) == {}
    requires p.services == Some(svcs) && DistinctNames(svcs)
    ensures Names(ProcessInfo(s, p), k, p.sender) == Offered(svcs, k)
  {
    FreshNodeLists(WithNode(s, p.sender, Node(NewSeq(p), Some(p.instance), true)), p.sender, svcs, k);
  }

  /** A node that was heard is listed as it announced itself; the others are listed as before. */
  lemma {:induction false} HeardIsListed(
      s: State, es: seq<Step>, plans: map<NodeId, seq<ServiceInfo>>, n: NodeId, k: Key)
    requires Inv(s) && Hears(es, plans, s.self) && forall m | m in plans :: DistinctNames(plans[m])
    requires n in Senders(es) ==> n !in s.nodes && NamesOn(s.services, n) == {}
    ensures n in Senders(es) ==> n in plans && Names(RunAll(s, es), k, n) == Offered(plans[n], k)
    ensures n !in Senders(es) ==> Names(RunAll(s, es), k, n) == Names(s, k, n)
    ensures Inv(RunAll(s, es))
    decreases |es|
  {
    if es != [] {
      var e := es[0];
      var m := e.info.sender;
      assert e in es;
      HearsTail(es, plans, s.self);
      NextKeepsInv(s, e);
      if m == n {
        FirstPacketLists(s, e.info, plans[n], k);
      } else {
        StepsStayHome(s, e);
        ElsewhereListed(s, Next(s, e), m, n, k);
        ElsewhereNames(s, Next(s, e), m, n);
        assert Get(Next(s, e).nodes, n) == Get(s.nodes, n);
      }
      HeardIsListed(Next(s, e), es[1..], plans, n, k);
    }
  }

  // ------------------------------------------------------------------- the cluster

  /** The registry of a node that has registered its services and then heard from others. */
  function RegistryOf(n: NodeId, plans: map<NodeId, seq<ServiceInfo>>, es: seq<Step>): State
    requires n in plans
  {
    RunAll(RegisterLocals(Empty(n), plans[n]), es)
  }

  lemma EmptyOffers(n: NodeId, svcs: seq<ServiceInfo>, k: Key)
    requires k.Event? && DistinctNames(svcs)
    ensures var t := RegisterLocals(Empty(n), svcs);
            t.self == n && Inv(t) && Names(t, k, n) == Offered(svcs, k)
  {
    assert NamesOn(Empty(n).services, n) == {};
    LocalsOffer(Empty(n), svcs, k);
  }

  /** What a registry lists for a node: its own services, and those of the nodes it has heard from. */
  lemma ListsWhatIsAnnounced(
      n: NodeId, plans: map<NodeId, seq<ServiceInfo>>, es: seq<Step>, m: NodeId, k: Key)
    requires n in plans && Hears(es, plans, n) && k.Event? && forall m | m in plans :: DistinctNames(plans[m])
    ensures Inv(RegistryOf(n, plans, es))
    ensures Names(RegistryOf(n, plans, es), k, m) ==
              if m in plans && (m == n || m in Senders(es)) then Offered(plans[m], k) else {}
  {
    var s := RegisterLocals(Empty(n), plans[n]);
    EmptyOffers(n, plans[n], k);
    if m != n {
      LocalsStayHome(Empty(n), plans[n], m);
      AbsentWithoutServices(s, m, k);
    }
    HeardIsListed(s, es, plans, m, k);
  }

  /** A cluster of nodes that have registered their services and heard of each other. */
  ghost predicate Announced(
      plans: map<NodeId, seq<ServiceInfo>>, runs: map<NodeId, seq<Step>>, c: Routing.Cluster) {
    && plans.Keys == runs.Keys == c.Keys
    && (forall n | n in plans :: DistinctNames(plans[n]))
    && (forall n | n in plans :: Hears(runs[n], plans, n) && Represents(c[n], RegistryOf(n, plans, runs[n])))
  }

  lemma CatalogIsAnnounced(
      plans: map<NodeId, seq<ServiceInfo>>, runs: map<NodeId, seq<Step>>, c: Routing.Cluster, n: NodeId,
      p: string, g: string, e: Routing.Sub)
    requires Announced(plans, runs, c) && n in c
    ensures Routing.Tidy(c[n])
    ensures Routing.Listed(c[n], p, g, e)
            <==> e.node in plans && (e.node == n || e.node in Senders(runs[n]))
                 && e.service in Offered(plans[e.node], Event(p, g))
  {
    ListsWhatIsAnnounced(n, plans, runs[n], e.node, Event(p, g));
    CatalogIsTidy(c[n], RegistryOf(n, plans, runs[n]));
    ListedIsNamed(c[n], RegistryOf(n, plans, runs[n]), p, g, e);
  }

  lemma AgreeOnOne(
      plans: map<NodeId, seq<ServiceInfo>>, runs: map<NodeId, seq<Step>>, c: Routing.Cluster, self: NodeId,
      p: string, g: string, e: Routing.Sub)
    requires Announced(plans, runs, c) && self in plans && Senders(runs[self]) == plans.Keys - {self}
    ensures Routing.Listed(At(c, self), p, g, e) <==> Routing.Listed(At(c, e.node), p, g, e)
  {
    CatalogIsAnnounced(plans, runs, c, self, p, g, e);
    if e.node in c { CatalogIsAnnounced(plans, runs, c, e.node, p, g, e); }
  }

  /**
   The catalogs of a cluster agree for a node that has heard from all others, whatever the others
   have heard and in whatever order.
   */
  lemma AnnouncedClusterAgrees(
      plans: map<NodeId, seq<ServiceInfo>>, runs: map<NodeId, seq<Step>>, c: Routing.Cluster, self: NodeId)
    requires Announced(plans, runs, c) && self in plans && Senders(runs[self]) == plans.Keys - {self}
    ensures Routing.Agree(c, self)
  {
    forall n | n in c
      ensures Routing.Tidy(c[n])
    {
      CatalogIsAnnounced(plans, runs, c, n, "", "", Routing.Sub("", ""));
    }
    forall p, g, e: Routing.Sub
      ensures Routing.Listed(At(c, self), p, g, e) <==> Routing.Listed(At(c, e.node), p, g, e)
    {
      AgreeOnOne(plans, runs, c, self, p, g, e);
    }
  }
}
