/**
 Which actions can be called on a node and which events reach it, said in terms of what its
 services declare: names, visibilities and groups.
 */
module RegistryVisibility {
  import opened Prelude
  import opened Registry
  import opened RegistryUpdates
  import opened RegistryConvergence
  import opened RegistryPresence
  import opened RegistryOwners

  /** An action of the service that other services may call: protected ones on the own node only. */
  predicate Callable(svc: ServiceInfo, name: string, local: bool) {
    exists a <- svc.actions ::
      a.name == name && a.visibility != Private && (a.visibility == Protected ==> local)
  }

  /** An event the service listens to in a group; without a group of its own it is in that of the service. */
  predicate Listens(svc: ServiceInfo, service: string, name: string, group: string) {
    exists e <- svc.events ::
      e.name == name &&
      match e.group
      case None => group == service
      case Some(g) => group == if g == "" then service else g
  }

  /** What a service declares under a key. */
  predicate Declares(svc: ServiceInfo, service: string, local: bool, k: Key) {
    match k
    case Action(n) => Callable(svc, n, local)
    case Event(n, g) => Listens(svc, service, n, g)
  }

  lemma {:induction false} ActionKeysAre(actions: seq<ActionDef>, local: bool, k: Key)
    ensures k in ActionKeys(actions, local) <==>
              k.Action? && exists a <- actions ::
                a.name == k.name && a.visibility != Private && (a.visibility == Protected ==> local)
  {
    if actions != [] {
      ActionKeysAre(actions[1..], local, k);
      assert actions == [actions[0]] + actions[1..];
    }
  }

  lemma {:induction false} EventKeysAre(events: seq<EventDef>, service: string, k: Key)
    ensures k in EventKeys(events, service) <==>
              k.Event? && exists e <- events ::
                e.name == k.name &&
                match e.group
                case None => k.group == service
                case Some(g) => k.group == if g == "" then service else g
  {
    if events != [] {
      EventKeysAre(events[1..], service, k);
      assert events == [events[0]] + events[1..];
    }
  }

  lemma OffersIsDeclared(svc: ServiceInfo, service: string, local: bool, k: Key)
    ensures Offers(svc, service, local, k) <==> Declares(svc, service, local, k)
  {
    ActionKeysAre(svc.actions, local, k);
    EventKeysAre(svc.events, service, k);
  }

  /** A service takes a name back when it recorded it before and declares nothing of that name, visible or not. */
  lemma RetractsMeansUnnamed(prev: set<Topic>, svc: ServiceInfo, k: Key)
    ensures Retracts(prev, svc, k) <==>
              && TopicOf(k) in prev
              && match k
                 case Action(n) => forall a <- svc.actions :: a.name != n
                 case Event(n, _) => forall e <- svc.events :: e.name != n
  {
    match k
    case Action(n) =>
      assert forall a <- svc.actions :: ActionTopic(a.name) in ActionTopics(svc.actions);
    case Event(n, _) =>
      assert forall e <- svc.events :: EventTopic(e.name) in EventTopics(svc.events);
  }

  /**
   A node that announces its services for the first time: afterwards an action can be called there if
   and only if one of them declares it published or public, and an event reaches it in a group if and
   only if one of them listens to it in that group.
   */
  lemma FreshNodeHasWhatIsDeclared(s: State, node: NodeId, svcs: seq<ServiceInfo>)
    requires Inv(s) && node != s.self && NamesOn(s.services, node) == {} && DistinctNames(svcs)
    ensures var t := RegisterServices(s, node, svcs);
            && (forall n :: Present(t, Action(n), node) <==>
                  exists v <- svcs, a <- v.actions ::
                    a.name == n && (a.visibility == Published || a.visibility == Public))
            && (forall n, g :: Present(t, Event(n, g), node) <==> exists v <- svcs :: Listens(v, v.name, n, g))
  {
    var t := RegisterServices(s, node, svcs);
    forall n
      ensures Present(t, Action(n), node) <==>
                exists v <- svcs, a <- v.actions ::
                  a.name == n && (a.visibility == Published || a.visibility == Public)
    {
      FreshNodeIsExact(s, node, svcs, Action(n));
      forall v: ServiceInfo { OffersIsDeclared(v, v.name, false, Action(n)); }
    }
    forall n, g
      ensures Present(t, Event(n, g), node) <==> exists v <- svcs :: Listens(v, v.name, n, g)
    {
      FreshNodeIsExact(s, node, svcs, Event(n, g));
      forall v: ServiceInfo { OffersIsDeclared(v, v.name, false, Event(n, g)); }
    }
  }

  /** The same for the packet that brings the announcement. */
  lemma FirstPacketBringsWhatIsDeclared(s: State, p: Info)
    requires Inv(s) && p.sender != s.self && p.sender !in s.nodes && NamesOn(s.services, p.sender) == {}
    requires p.services.Some? && DistinctNames(p.services.value)
    ensures var t := Next(s, Receive(p));
            && (forall n :: Present(t, Action(n), p.sender) <==>
                  exists v <- p.services.value, a <- v.actions ::
                    a.name == n && (a.visibility == Published || a.visibility == Public))
            && (forall n, g :: Present(t, Event(n, g), p.sender) <==>
                  exists v <- p.services.value :: Listens(v, v.name, n, g))
  {
    FreshNodeHasWhatIsDeclared(
      WithNode(s, p.sender, Node(NewSeq(p), Some(p.instance), true)), p.sender, p.services.value);
  }

  // ------------------------------------------------------------------ local services

  lemma NewServiceLists(s: State, svc: ServiceInfo, k: Key)
    requires Inv(s) && svc.fullName !in NamesOn(s.services, s.self)
    ensures Present(RegisterLocal(s, svc), k, s.self) <==>
              Present(s, k, s.self) || Declares(svc, svc.name, true, k)
  {
    FoundMeansNamed(s.services, svc.fullName, s.self);
    LocalNames(s, svc, k);
    OffersIsDeclared(svc, svc.name, true, k);
    PresentIsListed(s, k, s.self);
    PresentIsListed(RegisterLocal(s, svc), k, s.self);
  }

  lemma PresentIsListed(s: State, k: Key, node: NodeId)
    ensures Present(s, k, node) <==> Names(s, k, node) != {}
  {
    if Present(s, k, node) {
      var e :| e in ListAt(s.lists, k).endpoints && e.node == node;
      assert e.service in Names(s, k, node);
    }
  }

  /** Full names that are new to the node, each once. */
  ghost predicate NewNames(svcs: seq<ServiceInfo>, known: set<string>) {
    DistinctNames(svcs) && forall v <- svcs :: v.fullName !in known
  }

  lemma NewNamesTail(svcs: seq<ServiceInfo>, known: set<string>)
    requires svcs != [] && NewNames(svcs, known)
    ensures svcs[0].fullName !in known && NewNames(svcs[1..], known + {svcs[0].fullName})
  {
    assert svcs[0] in svcs && forall v | v in svcs[1..] :: v in svcs;
    assert forall j | 0 <= j < |svcs| - 1 :: svcs[1..][j] == svcs[j + 1];
  }

  ghost predicate SomeDeclares(svcs: seq<ServiceInfo>, k: Key) { exists v <- svcs :: Declares(v, v.name, true, k) }

  lemma DeclaredCons(svcs: seq<ServiceInfo>, k: Key)
    requires svcs != []
    ensures SomeDeclares(svcs, k) <==> Declares(svcs[0], svcs[0].name, true, k) || SomeDeclares(svcs[1..], k)
  {
    assert svcs == [svcs[0]] + svcs[1..];
  }

  lemma {:induction false} LocalsAreListed(s: State, svcs: seq<ServiceInfo>, k: Key)
    requires Inv(s) && NewNames(svcs, NamesOn(s.services, s.self))
    ensures Present(RegisterLocals(s, svcs), k, s.self) <==> Present(s, k, s.self) || SomeDeclares(svcs, k)
    decreases |svcs|
  {
    if svcs != [] {
      NewNamesTail(svcs, NamesOn(s.services, s.self));
      NewServiceLists(s, svcs[0], k);
      LocalNames(s, svcs[0], k);
      LocalNamesOn(s, svcs[0]);
      NextKeepsInv(s, AddLocal(svcs[0]));
      LocalsAreListed(RegisterLocal(s, svcs[0]), svcs[1..], k);
      DeclaredCons(svcs, k);
    }
  }

  /**
   Local services: an action can be called on the node if and only if a service declares it published,
   public or protected, never when all that declare it keep it private; events as for other nodes.
   */
  lemma LocalNodeHasWhatIsDeclared(self: NodeId, svcs: seq<ServiceInfo>)
    requires DistinctNames(svcs)
    ensures var t := RegisterLocals(Empty(self), svcs);
            && (forall n :: Present(t, Action(n), self) <==>
                  exists v <- svcs, a <- v.actions ::
                    a.name == n && (a.visibility == Published || a.visibility == Public || a.visibility == Protected))
            && (forall n, g :: Present(t, Event(n, g), self) <==> exists v <- svcs :: Listens(v, v.name, n, g))
  {
    var s := Empty(self);
    assert NamesOn(s.services, self) == {};
    forall k ensures Present(RegisterLocals(s, svcs), k, self) <==> exists v <- svcs :: Declares(v, v.name, true, k) {
      LocalsAreListed(s, svcs, k);
    }
  }
}
