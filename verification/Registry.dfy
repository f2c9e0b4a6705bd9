/**
 The service registry: services, the endpoint lists of actions and events, and the remote nodes
 whose INFO packets keep them up to date.
 */
module Registry {
  import opened Prelude

  type NodeId = string

  datatype Visibility = Published | Public | Protected | Private

  datatype ActionDef = ActionDef(name: string, visibility: Visibility)

  datatype EventDef = EventDef(name: string, group: Option<string>)

  /** A service as an INFO packet or a local service specification describes it. */
  datatype ServiceInfo = ServiceInfo(name: string, fullName: string, actions: seq<ActionDef>, events: seq<EventDef>)

  /** What an endpoint list is kept for. */
  datatype Key = Action(name: string) | Event(name: string, group: string)

  /** What a service records about itself: action names and event names. */
  datatype Topic = ActionTopic(name: string) | EventTopic(name: string)

  function TopicOf(k: Key): Topic {
    match k
    case Action(n) => ActionTopic(n)
    case Event(n, _) => EventTopic(n)
  }

  /** A service item; `sid` stands for the identity of the object. */
  datatype Item = Item(sid: nat, node: NodeId, name: string, fullName: string, local: bool, topics: set<Topic>)

  /** An endpoint of the service item `sid`; `service` is the short service name. */
  datatype Ep = Ep(node: NodeId, sid: nat, service: string)

  datatype EpList = EpList(endpoints: seq<Ep>, locals: seq<Ep>)

  datatype Node = Node(seqNo: nat, instance: Option<string>, available: bool)

  /** An INFO packet. */
  datatype Info = Info(sender: NodeId, instance: string, seqNo: nat, services: Option<seq<ServiceInfo>>)

  datatype State = State(self: NodeId, services: seq<Item>, lists: map<Key, EpList>, nodes: map<NodeId, Node>,
      next: nat)

  // ------------------------------------------------------------------ endpoint lists

  /** The endpoints that satisfy p, in order: the source's filter and remove. */
  function Where(es: seq<Ep>, p: Ep -> bool): (r: seq<Ep>)
    ensures forall e :: e in r <==> e in es && p(e)
  {
    if es == [] then [] else if p(es[0]) then [es[0]] + Where(es[1..], p) else Where(es[1..], p)
  }

  function On(node: NodeId): Ep -> bool { (e: Ep) => e.node == node }

  function NotOn(node: NodeId): Ep -> bool { (e: Ep) => e.node != node }

  function NotBy(sids: set<nat>): Ep -> bool { (e: Ep) => e.sid !in sids }

  function Relist(es: seq<Ep>, self: NodeId): EpList { EpList(es, Where(es, On(self))) }

  /** An endpoint of the same node and short service name counts as already there. */
  predicate Listed(es: seq<Ep>, node: NodeId, service: string) {
    exists e <- es :: e.node == node && e.service == service
  }

  function AddEp(l: EpList, ep: Ep, self: NodeId): EpList {
    if Listed(l.endpoints, ep.node, ep.service) then l else Relist(l.endpoints + [ep], self)
  }

  function ListAt(lists: map<Key, EpList>, k: Key): EpList {
    if k in lists then lists[k] else EpList([], [])
  }

  // ------------------------------------------------------------------------ services

  /** Position of the service with this full name on this node, or the number of services. */
  function Find(services: seq<Item>, fullName: string, node: NodeId): (i: nat)
    ensures i <= |services|
    ensures i < |services| ==> services[i].fullName == fullName && services[i].node == node
    ensures forall j | 0 <= j < i :: !(services[j].fullName == fullName && services[j].node == node)
  {
    if services == [] then 0
    else if services[0].fullName == fullName && services[0].node == node then 0
    else 1 + Find(services[1..], fullName, node)
  }

  function AddItem(s: State, node: NodeId, svc: ServiceInfo, local: bool): State {
    State(s.self, s.services + [Item(s.next, node, svc.name, svc.fullName, local, {})], s.lists, s.nodes, s.next + 1)
  }

  /** Adds the service at position i to the list of a key and records the topic. */
  function AddKey(s: State, i: nat, k: Key): State
    requires i < |s.services|
  {
    var x := s.services[i];
    State(s.self,
          s.services[i := Item(x.sid, x.node, x.name, x.fullName, x.local, x.topics + {TopicOf(k)})],
          s.lists[k := AddEp(ListAt(s.lists, k), Ep(x.node, x.sid, x.name), s.self)],
          s.nodes, s.next)
  }

  function AddKeys(s: State, i: nat, ks: seq<Key>): (t: State)
    requires i < |s.services|
    ensures |t.services| == |s.services|
    decreases |ks|
  {
    if ks == [] then s else AddKeys(AddKey(s, i, ks[0]), i, ks[1..])
  }

  /** The endpoints of a node leave every list of the given topics. */
  function DropTopics(s: State, node: NodeId, topics: set<Topic>): State {
    State(s.self, s.services,
          map k | k in s.lists :: if TopicOf(k) in topics then Relist(Where(s.lists[k].endpoints, NotOn(node)),
              s.self) else s.lists[k],
          s.nodes, s.next)
  }

  predicate Visible(v: Visibility, local: bool) {
    v == Published || v == Public || (v == Protected && local)
  }

  function ActionKeys(actions: seq<ActionDef>, local: bool): seq<Key> {
    if actions == [] then []
    else if Visible(actions[0].visibility, local) then [Action(actions[0].name)] + ActionKeys(actions[1..], local)
    else ActionKeys(actions[1..], local)
  }

  function EventKeys(events: seq<EventDef>, service: string): seq<Key> {
    if events == [] then []
    else
      var g := events[0].group;
      [Event(events[0].name, if g.Some? && g.value != "" then g.value else service)] + EventKeys(events[1..], service)
  }

  function ActionTopics(actions: seq<ActionDef>): set<Topic> { set a | a in actions :: ActionTopic(a.name) }

  function EventTopics(events: seq<EventDef>): set<Topic> { set e | e in events :: EventTopic(e.name) }

  function OldActions(topics: set<Topic>): set<Topic> { set t | t in topics && t.ActionTopic? }

  function OldEvents(topics: set<Topic>): set<Topic> { set t | t in topics && t.EventTopic? }

  /** Registers the actions and events of the service at position i, then drops what it no longer names. */
  function Refresh(s: State, i: nat, svc: ServiceInfo, prev: set<Topic>): State
    requires i < |s.services|
  {
    var x := s.services[i];
    var s1 := AddKeys(s, i, ActionKeys(svc.actions, x.node == s.self));
    var s2 := DropTopics(s1, x.node, OldActions(prev) - ActionTopics(svc.actions));
    var s3 := AddKeys(s2, i, EventKeys(svc.events, x.name));
    DropTopics(s3, x.node, OldEvents(prev) - EventTopics(svc.events))
  }

  function RegisterNew(s: State, node: NodeId, svc: ServiceInfo, local: bool): State {
    Refresh(AddItem(s, node, svc, local), |s.services|, svc, {})
  }

  function RegisterOne(s: State, node: NodeId, svc: ServiceInfo): State {
    var i := Find(s.services, svc.fullName, node);
    if i < |s.services| then Refresh(s, i, svc, s.services[i].topics)
    else RegisterNew(s, node, svc, false)
  }

  function RegisterEach(s: State, node: NodeId, svcs: seq<ServiceInfo>): State
    decreases |svcs|
  {
    if svcs == [] then s else RegisterEach(RegisterOne(s, node, svcs[0]), node, svcs[1..])
  }

  /** The endpoints of the given service items leave every list. */
  function DropSids(lists: map<Key, EpList>, sids: set<nat>, self: NodeId): map<Key, EpList> {
    map k | k in lists :: Relist(Where(lists[k].endpoints, NotBy(sids)), self)
  }

  function Unregister(s: State, fullName: string, node: NodeId): State {
    var i := Find(s.services, fullName, node);
    if i == |s.services| then s
    else State(s.self, s.services[..i] + s.services[i + 1..],
               DropSids(s.lists, {s.services[i].sid}, s.self), s.nodes, s.next)
  }

  function FullNames(svcs: seq<ServiceInfo>): set<string> { set v | v in svcs :: v.fullName }

  /** Unregisters the services of the node in `snapshot` whose names are not given. */
  function DropMissing(s: State, node: NodeId, names: set<string>, snapshot: seq<Item>): State
    decreases |snapshot|
  {
    if snapshot == [] then s
    else
      var x := snapshot[0];
      DropMissing(if x.node == node && x.fullName !in names then Unregister(s, x.fullName, node) else s,
                  node, names, snapshot[1..])
  }

  function RegisterServices(s: State, node: NodeId, svcs: seq<ServiceInfo>): State {
    var t := RegisterEach(s, node, svcs);
    DropMissing(t, node, FullNames(svcs), t.services)
  }

  function RegisterLocal(s: State, svc: ServiceInfo): State {
    if Find(s.services, svc.fullName, s.self) < |s.services| then s
    else RegisterNew(s, s.self, svc, true)
  }

  function OthersOf(services: seq<Item>, node: NodeId): seq<Item> {
    if services == [] then []
    else if services[0].node == node then OthersOf(services[1..], node)
    else [services[0]] + OthersOf(services[1..], node)
  }

  lemma {:induction false} OthersOfMembers(services: seq<Item>, node: NodeId)
    ensures forall x :: x in OthersOf(services, node) <==> x in services && x.node != node
  {
    if services != [] { OthersOfMembers(services[1..], node); }
  }

  function SidsOf(services: seq<Item>, node: NodeId): set<nat> {
    set x | x in services && x.node == node :: x.sid
  }

  function UnregisterNode(s: State, node: NodeId): State {
    State(s.self, OthersOf(s.services, node), DropSids(s.lists, SidsOf(s.services, node), s.self), s.nodes, s.next)
  }

  // --------------------------------------------------------------------- remote nodes

  function NewSeq(p: Info): nat { if p.seqNo == 0 then 1 else p.seqNo }

  /** The rule by which a node accepts a packet. */
  predicate Accepts(n: Node, p: Info, reconnected: bool) {
    NewSeq(p) > n.seqNo || reconnected || n.instance != Some(p.instance)
  }

  function WithNode(s: State, id: NodeId, n: Node): State {
    State(s.self, s.services, s.lists, s.nodes[id := n], s.next)
  }

  function ProcessInfo(s: State, p: Info): State {
    var known := p.sender in s.nodes;
    var n := if known then s.nodes[p.sender] else Node(0, None, true);
    if Accepts(n, p, known && !n.available) then
      var t := WithNode(s, p.sender, Node(NewSeq(p), Some(p.instance), true));
      if p.services.Some? then RegisterServices(t, p.sender, p.services.value) else t
    else WithNode(s, p.sender, n)
  }

  function Disconnect(s: State, node: NodeId): State {
    if node in s.nodes && s.nodes[node].available then
      var n := s.nodes[node];
      UnregisterNode(WithNode(s, node, Node(n.seqNo + 1, n.instance, false)), node)
    else s
  }

  datatype Step =
    | AddLocal(svc: ServiceInfo)
    | RemoveLocal(fullName: string)
    | Receive(info: Info)
    | Lose(node: NodeId)

  /** Packets of the node itself are skipped by the message handler. */
  function Next(s: State, e: Step): State {
    match e
    case AddLocal(svc) => RegisterLocal(s, svc)
    case RemoveLocal(fullName) => Unregister(s, fullName, s.self)
    case Receive(p) => if p.sender == s.self then s else ProcessInfo(s, p)
    case Lose(node) => if node == s.self then s else Disconnect(s, node)
  }

  function RunAll(s: State, es: seq<Step>): State
    decreases |es|
  {
    if es == [] then s else RunAll(Next(s, es[0]), es[1..])
  }

  // -------------------------------------------------------------------- the invariant

  /** The endpoint belongs to a registered service of its node that records the topic. */
  ghost predicate Known(services: seq<Item>, e: Ep, t: Topic) {
    exists x <- services :: x.sid == e.sid && x.node == e.node && x.name == e.service && t in x.topics
  }

  ghost predicate ItemsOk(services: seq<Item>, self: NodeId, next: nat) {
    && (forall x <- services :: x.sid < next && (x.local <==> x.node == self))
    && NoDuplicates(services)
  }

  ghost predicate Distinct(x: Item, y: Item) {
    x.sid != y.sid && !(x.fullName == y.fullName && x.node == y.node)
  }

  ghost predicate NoDuplicates(services: seq<Item>) {
    forall i, j | 0 <= i < j < |services| :: Distinct(services[i], services[j])
  }

  ghost predicate ListOk(services: seq<Item>, k: Key, l: EpList, self: NodeId) {
    && l.locals == Where(l.endpoints, On(self))
    && (forall e <- l.endpoints :: Known(services, e, TopicOf(k)))
    && NoTwins(l.endpoints)
  }

  ghost predicate NoTwins(es: seq<Ep>) {
    forall i, j | 0 <= i < j < |es| :: !(es[i].node == es[j].node && es[i].service == es[j].service)
  }

  ghost predicate Inv(s: State) {
    && ItemsOk(s.services, s.self, s.next)
    && forall k | k in s.lists :: ListOk(s.services, k, s.lists[k], s.self)
  }

  /** The same items, with at least the same topics. */
  ghost predicate Grown(a: seq<Item>, b: seq<Item>) {
    |a| <= |b| && forall i | 0 <= i < |a| ::
      && b[i].sid == a[i].sid && b[i].node == a[i].node && b[i].name == a[i].name
      && b[i].fullName == a[i].fullName && b[i].local == a[i].local && a[i].topics <= b[i].topics
  }

  lemma KnownGrows(a: seq<Item>, b: seq<Item>, e: Ep, t: Topic)
    requires Known(a, e, t) && Grown(a, b)
    ensures Known(b, e, t)
  {
    var x :| x in a && x.sid == e.sid && x.node == e.node && x.name == e.service && t in x.topics;
    var i :| 0 <= i < |a| && a[i] == x;
    assert b[i] in b;
  }

  lemma ListGrows(a: seq<Item>, b: seq<Item>, k: Key, l: EpList, self: NodeId)
    requires ListOk(a, k, l, self) && Grown(a, b)
    ensures ListOk(b, k, l, self)
  {
    forall e | e in l.endpoints
      ensures Known(b, e, TopicOf(k))
    {
      KnownGrows(a, b, e, TopicOf(k));
    }
  }

  lemma AddEpOk(services: seq<Item>, k: Key, l: EpList, ep: Ep, self: NodeId)
    requires ListOk(services, k, l, self) && Known(services, ep, TopicOf(k))
    ensures ListOk(services, k, AddEp(l, ep, self), self)
  {
    if !Listed(l.endpoints, ep.node, ep.service) {
      var es := l.endpoints + [ep];
      forall i, j | 0 <= i < j < |es|
        ensures !(es[i].node == es[j].node && es[i].service == es[j].service)
      {
        if j == |l.endpoints| { assert l.endpoints[i] in l.endpoints; }
      }
    }
  }

  lemma AddKeyKeepsInv(s: State, i: nat, k: Key)
    requires Inv(s) && i < |s.services|
    ensures Inv(AddKey(s, i, k)) && Grown(s.services, AddKey(s, i, k).services)
  {
    var t, x := AddKey(s, i, k), s.services[i];
    assert Grown(s.services, t.services);
    AddKeyItems(s, i, k);
    assert t.services[i] in t.services;
    var ep := Ep(x.node, x.sid, x.name);
    assert Known(t.services, ep, TopicOf(k));
    forall j | j in t.lists
      ensures ListOk(t.services, j, t.lists[j], s.self)
    {
      assert ListOk(s.services, j, ListAt(s.lists, j), s.self);
      ListGrows(s.services, t.services, j, ListAt(s.lists, j), s.self);
      if j == k { AddEpOk(t.services, k, ListAt(s.lists, k), ep, s.self); }
    }
  }

  lemma AddKeyItems(s: State, i: nat, k: Key)
    requires ItemsOk(s.services, s.self, s.next) && i < |s.services|
    ensures ItemsOk(AddKey(s, i, k).services, s.self, s.next)
  {
    var t := AddKey(s, i, k);
    forall y | y in t.services
      ensures y.sid < s.next && (y.local <==> y.node == s.self)
    {
      var j :| 0 <= j < |t.services| && t.services[j] == y;
      assert s.services[j] in s.services;
    }
  }

  lemma {:induction false} AddKeysKeepsInv(s: State, i: nat, ks: seq<Key>)
    requires Inv(s) && i < |s.services|
    ensures Inv(AddKeys(s, i, ks)) && Grown(s.services, AddKeys(s, i, ks).services)
    ensures |AddKeys(s, i, ks).services| == |s.services|
    decreases |ks|
  {
    if ks != [] {
      AddKeyKeepsInv(s, i, ks[0]);
      AddKeysKeepsInv(AddKey(s, i, ks[0]), i, ks[1..]);
    }
  }

  lemma {:induction false} WhereNoTwins(es: seq<Ep>, p: Ep -> bool)
    requires NoTwins(es)
    ensures NoTwins(Where(es, p))
  {
    if es != [] {
      WhereNoTwins(es[1..], p);
      var tail := Where(es[1..], p);
      forall j | 0 <= j < |tail|
        ensures !(es[0].node == tail[j].node && es[0].service == tail[j].service)
      {
        assert tail[j] in es[1..];
        var i :| 0 <= i < |es[1..]| && es[1..][i] == tail[j];
        assert es[i + 1] == tail[j];
      }
    }
  }

  lemma DropTopicsKeepsInv(s: State, node: NodeId, topics: set<Topic>)
    requires Inv(s)
    ensures Inv(DropTopics(s, node, topics))
  {
    var t := DropTopics(s, node, topics);
    forall k | k in t.lists
      ensures ListOk(t.services, k, t.lists[k], s.self)
    {
      assert ListOk(s.services, k, s.lists[k], s.self);
      WhereNoTwins(s.lists[k].endpoints, NotOn(node));
    }
  }

  lemma AddItemKeepsInv(s: State, node: NodeId, svc: ServiceInfo, local: bool)
    requires Inv(s) && Find(s.services, svc.fullName, node) == |s.services| && (local <==> node == s.self)
    ensures Inv(AddItem(s, node, svc, local))
  {
    var t := AddItem(s, node, svc, local);
    assert forall i | 0 <= i < |s.services| :: s.services[i] in s.services;
    forall k | k in t.lists
      ensures ListOk(t.services, k, t.lists[k], s.self)
    {
      ListGrows(s.services, t.services, k, s.lists[k], s.self);
    }
  }

  lemma RefreshKeepsInv(s: State, i: nat, svc: ServiceInfo, prev: set<Topic>)
    requires Inv(s) && i < |s.services|
    ensures Inv(Refresh(s, i, svc, prev)) && Grown(s.services, Refresh(s, i, svc, prev).services)
    ensures |Refresh(s, i, svc, prev).services| == |s.services|
  {
    var x := s.services[i];
    var s1 := AddKeys(s, i, ActionKeys(svc.actions, x.node == s.self));
    AddKeysKeepsInv(s, i, ActionKeys(svc.actions, x.node == s.self));
    var s2 := DropTopics(s1, x.node, OldActions(prev) - ActionTopics(svc.actions));
    DropTopicsKeepsInv(s1, x.node, OldActions(prev) - ActionTopics(svc.actions));
    var s3 := AddKeys(s2, i, EventKeys(svc.events, x.name));
    AddKeysKeepsInv(s2, i, EventKeys(svc.events, x.name));
    DropTopicsKeepsInv(s3, x.node, OldEvents(prev) - EventTopics(svc.events));
  }

  lemma RegisterOneKeepsInv(s: State, node: NodeId, svc: ServiceInfo)
    requires Inv(s) && node != s.self
    ensures Inv(RegisterOne(s, node, svc)) && RegisterOne(s, node, svc).self == s.self
  {
    var i := Find(s.services, svc.fullName, node);
    SelfStays(s, node, svc);
    if i < |s.services| {
      RefreshKeepsInv(s, i, svc, s.services[i].topics);
    } else {
      AddItemKeepsInv(s, node, svc, false);
      RefreshKeepsInv(AddItem(s, node, svc, false), i, svc, {});
    }
  }

  lemma {:induction false} AddKeysFrame(s: State, i: nat, ks: seq<Key>)
    requires i < |s.services|
    ensures var t := AddKeys(s, i, ks); t.self == s.self && t.nodes == s.nodes && t.next == s.next
    decreases |ks|
  {
    if ks != [] { AddKeysFrame(AddKey(s, i, ks[0]), i, ks[1..]); }
  }

  lemma RefreshFrame(s: State, i: nat, svc: ServiceInfo, prev: set<Topic>)
    requires i < |s.services|
    ensures var t := Refresh(s, i, svc, prev); t.self == s.self && t.nodes == s.nodes && t.next == s.next
  {
    var x := s.services[i];
    var s1 := AddKeys(s, i, ActionKeys(svc.actions, x.node == s.self));
    AddKeysFrame(s, i, ActionKeys(svc.actions, x.node == s.self));
    var s2 := DropTopics(s1, x.node, OldActions(prev) - ActionTopics(svc.actions));
    AddKeysFrame(s2, i, EventKeys(svc.events, x.name));
  }

  lemma SelfStays(s: State, node: NodeId, svc: ServiceInfo)
    ensures var t := RegisterOne(s, node, svc); t.self == s.self && t.nodes == s.nodes
  {
    var i := Find(s.services, svc.fullName, node);
    if i < |s.services| {
      RefreshFrame(s, i, svc, s.services[i].topics);
    } else {
      RefreshFrame(AddItem(s, node, svc, false), i, svc, {});
    }
  }

  /** Taking out the service at position i takes out every reason to know its endpoints. */
  lemma KnownAfterRemoval(services: seq<Item>, i: nat, e: Ep, t: Topic)
    requires i < |services| && Known(services, e, t) && e.sid != services[i].sid
    ensures Known(services[..i] + services[i + 1..], e, t)
  {
    var x :| x in services && x.sid == e.sid && x.node == e.node && x.name == e.service && t in x.topics;
    var j :| 0 <= j < |services| && services[j] == x;
    var rest := services[..i] + services[i + 1..];
    assert j < i ==> rest[j] == x;
    assert j > i ==> rest[j - 1] == x;
    assert x in rest;
  }

  lemma UnregisterKeepsInv(s: State, fullName: string, node: NodeId)
    requires Inv(s)
    ensures Inv(Unregister(s, fullName, node))
  {
    var i, t := Find(s.services, fullName, node), Unregister(s, fullName, node);
    if i < |s.services| {
      var rest := s.services[..i] + s.services[i + 1..];
      assert ItemsOk(rest, s.self, s.next) by {
        assert forall x | x in rest :: x in s.services;
      }
      forall k | k in t.lists
        ensures ListOk(rest, k, t.lists[k], s.self)
      {
        assert ListOk(s.services, k, s.lists[k], s.self);
        WhereNoTwins(s.lists[k].endpoints, NotBy({s.services[i].sid}));
        forall e | e in t.lists[k].endpoints
          ensures Known(rest, e, TopicOf(k))
        {
          KnownAfterRemoval(s.services, i, e, TopicOf(k));
        }
      }
    }
  }

  lemma {:induction false} RegisterEachKeepsInv(s: State, node: NodeId, svcs: seq<ServiceInfo>)
    requires Inv(s) && node != s.self
    ensures var t := RegisterEach(s, node, svcs); Inv(t) && t.self == s.self && t.nodes == s.nodes
    decreases |svcs|
  {
    if svcs != [] {
      RegisterOneKeepsInv(s, node, svcs[0]);
      SelfStays(s, node, svcs[0]);
      RegisterEachKeepsInv(RegisterOne(s, node, svcs[0]), node, svcs[1..]);
    }
  }

  lemma {:induction false} DropMissingKeepsInv(s: State, node: NodeId, names: set<string>, snapshot: seq<Item>)
    requires Inv(s)
    ensures var t := DropMissing(s, node, names, snapshot); Inv(t) && t.self == s.self && t.nodes == s.nodes
    decreases |snapshot|
  {
    if snapshot != [] {
      var x := snapshot[0];
      if x.node == node && x.fullName !in names {
        UnregisterKeepsInv(s, x.fullName, node);
        DropMissingKeepsInv(Unregister(s, x.fullName, node), node, names, snapshot[1..]);
      } else {
        DropMissingKeepsInv(s, node, names, snapshot[1..]);
      }
    }
  }

  lemma RegisterServicesKeepsInv(s: State, node: NodeId, svcs: seq<ServiceInfo>)
    requires Inv(s) && node != s.self
    ensures var t := RegisterServices(s, node, svcs); Inv(t) && t.self == s.self && t.nodes == s.nodes
  {
    RegisterEachKeepsInv(s, node, svcs);
    var t := RegisterEach(s, node, svcs);
    DropMissingKeepsInv(t, node, FullNames(svcs), t.services);
  }

  lemma RegisterLocalKeepsInv(s: State, svc: ServiceInfo)
    requires Inv(s)
    ensures Inv(RegisterLocal(s, svc))
  {
    var i := Find(s.services, svc.fullName, s.self);
    if i == |s.services| {
      AddItemKeepsInv(s, s.self, svc, true);
      RefreshKeepsInv(AddItem(s, s.self, svc, true), i, svc, {});
      RefreshFrame(AddItem(s, s.self, svc, true), i, svc, {});
    }
  }

  lemma {:induction false} OthersOfNoDuplicates(services: seq<Item>, node: NodeId)
    requires NoDuplicates(services)
    ensures NoDuplicates(OthersOf(services, node))
  {
    if services != [] {
      OthersOfNoDuplicates(services[1..], node);
      OthersOfMembers(services[1..], node);
      var tail := OthersOf(services[1..], node);
      forall j | 0 <= j < |tail|
        ensures Distinct(services[0], tail[j])
      {
        assert tail[j] in services[1..];
        var i :| 0 <= i < |services[1..]| && services[1..][i] == tail[j];
        assert services[i + 1] == tail[j];
      }
    }
  }

  lemma UnregisterNodeKeepsInv(s: State, node: NodeId)
    requires Inv(s)
    ensures Inv(UnregisterNode(s, node))
  {
    var t, sids := UnregisterNode(s, node), SidsOf(s.services, node);
    OthersOfNoDuplicates(s.services, node);
    OthersOfMembers(s.services, node);
    forall k | k in t.lists
      ensures ListOk(t.services, k, t.lists[k], s.self)
    {
      assert ListOk(s.services, k, s.lists[k], s.self);
      WhereNoTwins(s.lists[k].endpoints, NotBy(sids));
      forall e | e in t.lists[k].endpoints
        ensures Known(t.services, e, TopicOf(k))
      {
        var x :| x in s.services && x.sid == e.sid && x.node == e.node && x.name == e.service && TopicOf(k) in x.topics;
        assert NotBy(sids)(e);
        assert x in t.services;
      }
    }
  }

  lemma ProcessInfoKeepsInv(s: State, p: Info)
    requires Inv(s) && p.sender != s.self
    ensures Inv(ProcessInfo(s, p)) && ProcessInfo(s, p).self == s.self
  {
    var t := WithNode(s, p.sender, Node(NewSeq(p), Some(p.instance), true));
    if p.services.Some? { RegisterServicesKeepsInv(t, p.sender, p.services.value); }
  }

  lemma NextKeepsInv(s: State, e: Step)
    requires Inv(s)
    ensures Inv(Next(s, e)) && Next(s, e).self == s.self
  {
    match e
    case AddLocal(svc) =>
      RegisterLocalKeepsInv(s, svc);
      RefreshFrame(AddItem(s, s.self, svc, true), |s.services|, svc, {});
    case RemoveLocal(fullName) => UnregisterKeepsInv(s, fullName, s.self);
    case Receive(p) => if p.sender != s.self { ProcessInfoKeepsInv(s, p); }
    case Lose(node) =>
      if node in s.nodes && s.nodes[node].available {
        var n := s.nodes[node];
        UnregisterNodeKeepsInv(WithNode(s, node, Node(n.seqNo + 1, n.instance, false)), node);
      }
  }

  function Empty(self: NodeId): State { State(self, [], map[], map[], 0) }

  /** The index is consistent in every state that any run can reach. */
  lemma {:induction false} IndexAlwaysConsistent(s: State, es: seq<Step>)
    requires Inv(s)
    ensures Inv(RunAll(s, es)) && RunAll(s, es).self == s.self
    decreases |es|
  {
    if es != [] {
      NextKeepsInv(s, es[0]);
      IndexAlwaysConsistent(Next(s, es[0]), es[1..]);
    }
  }
}
