/**
 Which actions and events an update leaves on a node. An endpoint is found by its short service
 name but owned by the service that registered it first, and a service that no longer names a
 topic takes the whole node out of its lists.
 */
module RegistryPresence {
  import opened Prelude
  import opened Registry
  import opened RegistryUpdates
  import opened RegistryConvergence

  /** The node has an endpoint in the list of the key. */
  predicate Present(s: State, k: Key, node: NodeId) {
    exists e <- ListAt(s.lists, k).endpoints :: e.node == node
  }

  /** The service, known under a short name, announces the key. */
  predicate Offers(svc: ServiceInfo, name: string, local: bool, k: Key) {
    k in ActionKeys(svc.actions, local) || k in EventKeys(svc.events, name)
  }

  /** The service recorded the topic of the key before and no longer names it. */
  predicate Retracts(prev: set<Topic>, svc: ServiceInfo, k: Key) {
    TopicOf(k) in prev && TopicOf(k) !in ActionTopics(svc.actions) && TopicOf(k) !in EventTopics(svc.events)
  }

  lemma {:induction false} ActionKeysNamed(actions: seq<ActionDef>, local: bool, k: Key)
    requires k in ActionKeys(actions, local)
    ensures k.Action? && TopicOf(k) in ActionTopics(actions)
  {
    if k == Action(actions[0].name) {
      assert actions[0] in actions;
    } else {
      ActionKeysNamed(actions[1..], local, k);
      assert forall a | a in actions[1..] :: a in actions;
    }
  }

  lemma {:induction false} EventKeysNamed(events: seq<EventDef>, name: string, k: Key)
    requires k in EventKeys(events, name)
    ensures k.Event? && TopicOf(k) in EventTopics(events)
  {
    if k == EventKeys(events, name)[0] {
      assert events[0] in events;
    } else {
      EventKeysNamed(events[1..], name, k);
      assert forall a | a in events[1..] :: a in events;
    }
  }

  // ------------------------------------------------------------ listings and owners

  /** The short names under which the node is listed for the key. */
  function Names(s: State, k: Key, node: NodeId): set<string> {
    set e | e in ListAt(s.lists, k).endpoints && e.node == node :: e.service
  }

  ghost predicate OwnedIn(services: seq<Item>, sid: nat, names: set<string>) {
    exists x <- services :: x.sid == sid && x.fullName in names
  }

  /** Some endpoint of the node for the key belongs to a service with one of the full names. */
  ghost predicate Backed(s: State, k: Key, node: NodeId, names: set<string>) {
    exists e <- ListAt(s.lists, k).endpoints :: e.node == node && OwnedIn(s.services, e.sid, names)
  }

  lemma OwnersGrow(a: seq<Item>, b: seq<Item>, sid: nat, names: set<string>)
    requires Grown(a, b) && |a| == |b|
    ensures OwnedIn(a, sid, names) <==> OwnedIn(b, sid, names)
  {
    if OwnedIn(a, sid, names) {
      var x :| x in a && x.sid == sid && x.fullName in names;
      var i :| 0 <= i < |a| && a[i] == x;
      assert b[i] in b;
    }
    if OwnedIn(b, sid, names) {
      var x :| x in b && x.sid == sid && x.fullName in names;
      var i :| 0 <= i < |b| && b[i] == x;
      assert a[i] in a;
    }
  }

  /** The listings of one state are those of another, and so are their owners. */
  ghost predicate SameListings(s: State, t: State, k: Key) {
    && ListAt(t.lists, k).endpoints == ListAt(s.lists, k).endpoints
    && |s.services| == |t.services| && Grown(s.services, t.services)
  }

  lemma SameTally(s: State, t: State, k: Key, node: NodeId, names: set<string>)
    requires SameListings(s, t, k)
    ensures Names(t, k, node) == Names(s, k, node)
    ensures Backed(t, k, node, names) <==> Backed(s, k, node, names)
  {
    forall e | e in ListAt(s.lists, k).endpoints
      ensures OwnedIn(s.services, e.sid, names) <==> OwnedIn(t.services, e.sid, names)
    {
      OwnersGrow(s.services, t.services, e.sid, names);
    }
  }

  /** What adding the service at position i to the list of j does to the listings of k. */
  lemma AddKeyTally(s: State, i: nat, j: Key, k: Key, names: set<string>)
    requires i < |s.services| && s.services[i].fullName in names
    ensures var x, t := s.services[i], AddKey(s, i, j);
            && Names(t, k, x.node) == Names(s, k, x.node) + (if k == j then {x.name} else {})
            && (Backed(t, k, x.node, names)
                <==> Backed(s, k, x.node, names) || (k == j && x.name !in Names(s, k, x.node)))
  {
    var x, t := s.services[i], AddKey(s, i, j);
    assert Grown(s.services, t.services);
    if k != j || x.name in Names(s, k, x.node) {
      SameTally(s, t, k, x.node, names);
    } else {
      NewListing(s, i, k, names);
    }
  }

  lemma NewListing(s: State, i: nat, k: Key, names: set<string>)
    requires i < |s.services| && s.services[i].fullName in names
    requires s.services[i].name !in Names(s, k, s.services[i].node)
    ensures var x, t := s.services[i], AddKey(s, i, k);
            Names(t, k, x.node) == Names(s, k, x.node) + {x.name} && Backed(t, k, x.node, names)
  {
    var x, t := s.services[i], AddKey(s, i, k);
    var ep, es := Ep(x.node, x.sid, x.name), ListAt(s.lists, k).endpoints;
    assert ListAt(t.lists, k).endpoints == es + [ep];
    assert forall e :: e in es + [ep] <==> e in es || e == ep;
    assert ep in es + [ep] && ep.service == x.name;
    assert t.services[i] in t.services;
    assert OwnedIn(t.services, ep.sid, names);
  }

  lemma {:induction false} AddKeysTally(s: State, i: nat, ks: seq<Key>, k: Key, names: set<string>)
    requires i < |s.services| && s.services[i].fullName in names
    ensures var x, t := s.services[i], AddKeys(s, i, ks);
            && t.services[i].name == x.name && t.services[i].node == x.node && t.services[i].fullName == x.fullName
            && Names(t, k, x.node) == Names(s, k, x.node) + (if k in ks then {x.name} else {})
            && (Backed(t, k, x.node, names)
                <==> Backed(s, k, x.node, names) || (k in ks && x.name !in Names(s, k, x.node)))
    decreases |ks|
  {
    if ks != [] {
      AddKeyTally(s, i, ks[0], k, names);
      AddKeysTally(AddKey(s, i, ks[0]), i, ks[1..], k, names);
    }
  }

  lemma DropTopicsTally(s: State, node: NodeId, topics: set<Topic>, k: Key, names: set<string>)
    ensures var t := DropTopics(s, node, topics);
            if TopicOf(k) in topics then Names(t, k, node) == {} && !Backed(t, k, node, names)
            else Names(t, k, node) == Names(s, k, node) && (Backed(t, k, node, names) <==> Backed(s, k, node, names))
  {
    var t := DropTopics(s, node, topics);
    if TopicOf(k) !in topics {
      assert ListAt(t.lists, k).endpoints == ListAt(s.lists, k).endpoints;
    } else if k in s.lists {
      assert forall e | e in ListAt(t.lists, k).endpoints :: NotOn(node)(e);
    }
  }

  /** What a service has to say about a key. */
  datatype Saying = Offer(name: string) | Retract | Silence

  function SaysNow(svc: ServiceInfo, name: string, local: bool, prev: set<Topic>, k: Key): Saying {
    if Offers(svc, name, local, k) then Offer(name) else if Retracts(prev, svc, k) then Retract else Silence
  }

  /** The listings of a key after a service had its say, and whether one of them is backed. */
  function NamesAfter(names: set<string>, w: Saying): set<string> {
    match w
    case Offer(n) => names + {n}
    case Retract => {}
    case Silence => names
  }

  predicate BackedAfter(backed: bool, names: set<string>, w: Saying) {
    match w
    case Offer(n) => backed || n !in names
    case Retract => false
    case Silence => backed
  }

  /** One half of the processing of a service: register some keys, then drop some topics. */
  lemma HalfTally(s: State, i: nat, ks: seq<Key>, topics: set<Topic>, k: Key, names: set<string>)
    requires i < |s.services| && s.services[i].fullName in names
    ensures var x := s.services[i];
            var t := DropTopics(AddKeys(s, i, ks), x.node, topics);
            && t.services[i].name == x.name && t.services[i].node == x.node && t.services[i].fullName == x.fullName
            && (TopicOf(k) in topics ==> Names(t, k, x.node) == {} && !Backed(t, k, x.node, names))
            && (TopicOf(k) !in topics ==>
                  && Names(t, k, x.node) == Names(s, k, x.node) + (if k in ks then {x.name} else {})
                  && (Backed(t, k, x.node, names) <==>
                        Backed(s, k, x.node, names) || (k in ks && x.name !in Names(s, k, x.node))))
  {
    AddKeysTally(s, i, ks, k, names);
    DropTopicsTally(AddKeys(s, i, ks), s.services[i].node, topics, k, names);
  }

  lemma RefreshTally(s: State, i: nat, svc: ServiceInfo, prev: set<Topic>, k: Key, names: set<string>)
    requires i < |s.services| && s.services[i].fullName in names
    ensures var x, t := s.services[i], Refresh(s, i, svc, prev);
            var w := SaysNow(svc, x.name, x.node == s.self, prev, k);
            && Names(t, k, x.node) == NamesAfter(Names(s, k, x.node), w)
            && (Backed(t, k, x.node, names) <==> BackedAfter(Backed(s, k, x.node, names), Names(s, k, x.node), w))
  {
    var x := s.services[i];
    var aks, eks := ActionKeys(svc.actions, x.node == s.self), EventKeys(svc.events, x.name);
    var olda, olde := OldActions(prev) - ActionTopics(svc.actions), OldEvents(prev) - EventTopics(svc.events);
    var s2 := DropTopics(AddKeys(s, i, aks), x.node, olda);
    HalfTally(s, i, aks, olda, k, names);
    HalfTally(s2, i, eks, olde, k, names);
    SayingsApart(svc, x.name, x.node == s.self, prev, k);
  }

  /** Actions are settled in the first half, events in the second. */
  lemma SayingsApart(svc: ServiceInfo, name: string, local: bool, prev: set<Topic>, k: Key)
    ensures var aks, eks := ActionKeys(svc.actions, local), EventKeys(svc.events, name);
            var olda, olde := OldActions(prev) - ActionTopics(svc.actions), OldEvents(prev) - EventTopics(svc.events);
            && (k.Action? ==> k !in eks && TopicOf(k) !in olde && (TopicOf(k) in olda <==> Retracts(prev, svc, k)))
            && (k.Event? ==> k !in aks && TopicOf(k) !in olda && (TopicOf(k) in olde <==> Retracts(prev, svc, k)))
            && (Offers(svc, name, local, k) ==> !Retracts(prev, svc, k))
  {
    if k in ActionKeys(svc.actions, local) { ActionKeysNamed(svc.actions, local, k); }
    if k in EventKeys(svc.events, name) { EventKeysNamed(svc.events, name, k); }
  }

  // ------------------------------------------------------- what a service said before

  function TopicsOf(ks: seq<Key>): set<Topic> { set k | k in ks :: TopicOf(k) }

  /** The topics that registering a service records. */
  function Records(svc: ServiceInfo, local: bool): set<Topic> {
    TopicsOf(ActionKeys(svc.actions, local)) + EventTopics(svc.events)
  }

  lemma TopicsOfCons(k: Key, ks: seq<Key>)
    ensures TopicsOf([k] + ks) == {TopicOf(k)} + TopicsOf(ks)
  {
    assert forall j :: j in [k] + ks <==> j == k || j in ks;
  }

  lemma EventTopicsCons(e: EventDef, es: seq<EventDef>)
    ensures EventTopics([e] + es) == {EventTopic(e.name)} + EventTopics(es)
  {
    assert forall d :: d in [e] + es <==> d == e || d in es;
  }

  lemma {:induction false} EventKeysCover(events: seq<EventDef>, name: string)
    ensures TopicsOf(EventKeys(events, name)) == EventTopics(events)
  {
    if events != [] {
      EventKeysCover(events[1..], name);
      TopicsOfCons(EventKeys(events, name)[0], EventKeys(events[1..], name));
      EventTopicsCons(events[0], events[1..]);
      assert events == [events[0]] + events[1..];
    }
  }

  lemma {:induction false} AddKeysRecord(s: State, i: nat, ks: seq<Key>)
    requires i < |s.services|
    ensures AddKeys(s, i, ks).services[i].topics == s.services[i].topics + TopicsOf(ks)
    decreases |ks|
  {
    if ks != [] {
      AddKeysRecord(AddKey(s, i, ks[0]), i, ks[1..]);
      TopicsOfCons(ks[0], ks[1..]);
      assert ks == [ks[0]] + ks[1..];
    }
  }

  lemma RefreshRecords(s: State, i: nat, svc: ServiceInfo, prev: set<Topic>)
    requires i < |s.services|
    ensures Refresh(s, i, svc, prev).services[i].topics
            == s.services[i].topics + Records(svc, s.services[i].node == s.self)
  {
    var x := s.services[i];
    var aks, eks := ActionKeys(svc.actions, x.node == s.self), EventKeys(svc.events, x.name);
    var s1 := AddKeys(s, i, aks);
    AddKeysRecord(s, i, aks);
    var s2 := DropTopics(s1, x.node, OldActions(prev) - ActionTopics(svc.actions));
    AddKeysRecord(s2, i, eks);
    EventKeysCover(svc.events, x.name);
  }

  /** Every service but the one at i reads the same. */
  ghost predicate SameBut(a: seq<Item>, b: seq<Item>, i: nat) {
    |a| == |b| && forall j | 0 <= j < |a| && j != i :: a[j] == b[j]
  }

  lemma {:induction false} AddKeysTouchOne(s: State, i: nat, ks: seq<Key>)
    requires i < |s.services|
    ensures SameBut(s.services, AddKeys(s, i, ks).services, i)
    decreases |ks|
  {
    if ks != [] { AddKeysTouchOne(AddKey(s, i, ks[0]), i, ks[1..]); }
  }

  lemma RefreshTouchesOne(s: State, i: nat, svc: ServiceInfo, prev: set<Topic>)
    requires i < |s.services|
    ensures SameBut(s.services, Refresh(s, i, svc, prev).services, i)
  {
    var x := s.services[i];
    var s1 := AddKeys(s, i, ActionKeys(svc.actions, x.node == s.self));
    AddKeysTouchOne(s, i, ActionKeys(svc.actions, x.node == s.self));
    var s2 := DropTopics(s1, x.node, OldActions(prev) - ActionTopics(svc.actions));
    AddKeysTouchOne(s2, i, EventKeys(svc.events, x.name));
  }

  /** What is known about a full name on the node: whether it is registered, its short name, its topics. */
  datatype Memory = Unknown | Known(name: string, topics: set<Topic>)

  function Recall(services: seq<Item>, fullName: string, node: NodeId): Memory {
    var i := Find(services, fullName, node);
    if i < |services| then Memory.Known(services[i].name, services[i].topics) else Unknown
  }

  function Learn(m: Memory, svc: ServiceInfo, local: bool): Memory {
    Memory.Known(if m.Known? then m.name else svc.name, (if m.Known? then m.topics else {}) + Records(svc, local))
  }

  lemma FoundAgain(a: seq<Item>, b: seq<Item>, fullName: string, node: NodeId)
    requires Grown(a, b) && |a| == |b|
    ensures Find(b, fullName, node) == Find(a, fullName, node)
  {
    assert forall j | 0 <= j < |a| ::
        a[j].fullName == fullName && a[j].node == node <==> b[j].fullName == fullName && b[j].node == node;
  }

  lemma RefreshRecalls(s: State, i: nat, svc: ServiceInfo, prev: set<Topic>)
    requires Inv(s) && i < |s.services| && i == Find(s.services, svc.fullName, s.services[i].node)
    ensures var x := s.services[i];
            Recall(Refresh(s, i, svc, prev).services, svc.fullName, x.node)
            == Memory.Known(x.name, x.topics + Records(svc, x.node == s.self))
  {
    RefreshKeepsInv(s, i, svc, prev);
    RefreshRecords(s, i, svc, prev);
    FoundAgain(s.services, Refresh(s, i, svc, prev).services, svc.fullName, s.services[i].node);
  }

  lemma RegisterOneLearns(s: State, node: NodeId, svc: ServiceInfo)
    requires Inv(s) && node != s.self
    ensures Recall(RegisterOne(s, node, svc).services, svc.fullName, node)
            == Learn(Recall(s.services, svc.fullName, node), svc, false)
  {
    var i := Find(s.services, svc.fullName, node);
    if i < |s.services| {
      RefreshRecalls(s, i, svc, s.services[i].topics);
    } else {
      var s1 := AddItem(s, node, svc, false);
      AddItemKeepsInv(s, node, svc, false);
      assert s1.services[i].fullName == svc.fullName && s1.services[i].node == node;
      assert forall j | 0 <= j < i :: !(s1.services[j].fullName == svc.fullName && s1.services[j].node == node);
      RefreshRecalls(s1, i, svc, {});
    }
  }

  lemma RegisterOneKeepsOthers(s: State, node: NodeId, svc: ServiceInfo, other: string)
    requires Inv(s) && node != s.self && other != svc.fullName
    ensures Recall(RegisterOne(s, node, svc).services, other, node) == Recall(s.services, other, node)
  {
    var i, t := Find(s.services, svc.fullName, node), RegisterOne(s, node, svc);
    if i < |s.services| {
      RefreshTouchesOne(s, i, svc, s.services[i].topics);
      RefreshKeepsInv(s, i, svc, s.services[i].topics);
      RecallSame(s.services, t.services, i, other, node);
    } else {
      var s1 := AddItem(s, node, svc, false);
      RefreshTouchesOne(s1, i, svc, {});
      AddItemKeepsInv(s, node, svc, false);
      RefreshKeepsInv(s1, i, svc, {});
      RecallSame(s.services, t.services, i, other, node);
    }
  }

  /** The search for another service finds the same item. */
  lemma RecallSame(a: seq<Item>, b: seq<Item>, i: nat, fullName: string, node: NodeId)
    requires i < |b| && |a| <= |b| <= |a| + 1 && (|b| > |a| ==> i == |a|)
    requires forall j | 0 <= j < |a| && j != i :: a[j] == b[j]
    requires b[i].fullName != fullName
    requires i < |a| ==> a[i].fullName != fullName
    ensures Recall(a, fullName, node) == Recall(b, fullName, node)
  {
    assert forall j | 0 <= j < |a| ::
        a[j].fullName == fullName && a[j].node == node <==> b[j].fullName == fullName && b[j].node == node;
  }

  // -------------------------------------------------------- the script of a packet

  /** What is known about a full name after the first n services of the packet. */
  function RecallAfter(s: State, node: NodeId, svcs: seq<ServiceInfo>, n: nat, fullName: string): Memory
    requires n <= |svcs|
  {
    if n == 0 then Recall(s.services, fullName, node)
    else
      var m := RecallAfter(s, node, svcs, n - 1, fullName);
      if svcs[n - 1].fullName == fullName then Learn(m, svcs[n - 1], node == s.self) else m
  }

  function Says(svc: ServiceInfo, m: Memory, local: bool, k: Key): Saying {
    SaysNow(svc, if m.Known? then m.name else svc.name, local, if m.Known? then m.topics else {}, k)
  }

  /** What the service at position j of the packet has to say about the key. */
  function SaysAt(s: State, node: NodeId, svcs: seq<ServiceInfo>, j: nat, k: Key): Saying
    requires j < |svcs|
  {
    Says(svcs[j], RecallAfter(s, node, svcs, j, svcs[j].fullName), node == s.self, k)
  }

  function Script(s: State, node: NodeId, svcs: seq<ServiceInfo>, k: Key): seq<Saying> {
    seq(|svcs|, j requires 0 <= j < |svcs| => SaysAt(s, node, svcs, j, k))
  }

  /** Whether a backed listing is left when all have had their say. */
  predicate Play(backed: bool, names: set<string>, ws: seq<Saying>)
    decreases |ws|
  {
    if ws == [] then backed
    else Play(BackedAfter(backed, names, ws[0]), NamesAfter(names, ws[0]), ws[1..])
  }

  predicate SomeRetract(ws: seq<Saying>) { exists w <- ws :: w.Retract? }

  predicate SomeNewOffer(ws: seq<Saying>, names: set<string>) { exists w <- ws :: w.Offer? && w.name !in names }

  /** An offer after which nobody retracts. */
  predicate OfferAtLast(ws: seq<Saying>) {
    exists i | 0 <= i < |ws| :: ws[i].Offer? && !SomeRetract(ws[i + 1..])
  }

  /**
   If somebody retracts, an offer must follow the last one who does. Otherwise a listing was backed
   before, or somebody offers under a short name that was not listed.
   */
  predicate Lasts(backed: bool, names: set<string>, ws: seq<Saying>) {
    if SomeRetract(ws) then OfferAtLast(ws) else backed || SomeNewOffer(ws, names)
  }

  lemma ScriptCons(w: Saying, ws: seq<Saying>, names: set<string>)
    ensures SomeRetract([w] + ws) <==> w.Retract? || SomeRetract(ws)
    ensures SomeNewOffer([w] + ws, names) <==> (w.Offer? && w.name !in names) || SomeNewOffer(ws, names)
    ensures OfferAtLast([w] + ws) <==> (w.Offer? && !SomeRetract(ws)) || OfferAtLast(ws)
  {
    var all := [w] + ws;
    assert forall x :: x in all <==> x == w || x in ws;
    assert all[0] == w && all[1..] == ws;
    if OfferAtLast(all) {
      var i :| 0 <= i < |all| && all[i].Offer? && !SomeRetract(all[i + 1..]);
      if i > 0 { assert ws[i - 1] == all[i] && ws[i..] == all[i + 1..]; }
    }
    if OfferAtLast(ws) {
      var i :| 0 <= i < |ws| && ws[i].Offer? && !SomeRetract(ws[i + 1..]);
      assert all[i + 1] == ws[i] && all[i + 2..] == ws[i + 1..];
    }
  }

  lemma NewOffers(ws: seq<Saying>)
    requires !SomeRetract(ws)
    ensures SomeNewOffer(ws, {}) <==> OfferAtLast(ws)
  {
    if SomeNewOffer(ws, {}) {
      var w :| w in ws && w.Offer?;
      var i: nat :| i < |ws| && ws[i] == w;
      NoneLater(ws, i + 1);
    }
    if OfferAtLast(ws) {
      var i :| 0 <= i < |ws| && ws[i].Offer? && !SomeRetract(ws[i + 1..]);
      assert ws[i] in ws;
    }
  }

  lemma NoneLater(ws: seq<Saying>, i: nat)
    requires !SomeRetract(ws) && i <= |ws|
    ensures !SomeRetract(ws[i..])
  {
    forall w | w in ws[i..]
      ensures w in ws
    {
    }
  }

  lemma WiderNames(ws: seq<Saying>, names: set<string>, n: string)
    ensures SomeNewOffer(ws, names + {n}) || n !in names <==> SomeNewOffer(ws, names) || n !in names
  {
  }

  lemma {:induction false} PlayIsLasts(backed: bool, names: set<string>, ws: seq<Saying>)
    ensures Play(backed, names, ws) <==> Lasts(backed, names, ws)
    decreases |ws|
  {
    if ws != [] {
      var w, rest := ws[0], ws[1..];
      assert ws == [w] + rest;
      ScriptCons(w, rest, names);
      PlayIsLasts(BackedAfter(backed, names, w), NamesAfter(names, w), rest);
      if !SomeRetract(rest) { NewOffers(rest); }
      if w.Offer? { WiderNames(rest, names, w.name); }
    }
  }

  // ----------------------------------------------------------- the update as a whole

  lemma AddItemTally(s: State, node: NodeId, svc: ServiceInfo, k: Key, names: set<string>)
    requires Inv(s)
    ensures var t := AddItem(s, node, svc, false);
            && Names(t, k, node) == Names(s, k, node)
            && (Backed(t, k, node, names) <==> Backed(s, k, node, names))
  {
    var t := AddItem(s, node, svc, false);
    var x := t.services[|s.services|];
    assert forall y :: y in t.services <==> y in s.services || y == x;
    forall e | e in ListAt(s.lists, k).endpoints
      ensures e.sid < s.next
    {
      assert ListOk(s.services, k, s.lists[k], s.self);
    }
  }

  lemma RegisterOneTally(s: State, node: NodeId, svc: ServiceInfo, k: Key, names: set<string>)
    requires Inv(s) && node != s.self && svc.fullName in names
    ensures var t, w := RegisterOne(s, node, svc), Says(svc, Recall(s.services, svc.fullName, node), false, k);
            && Names(t, k, node) == NamesAfter(Names(s, k, node), w)
            && (Backed(t, k, node, names) <==> BackedAfter(Backed(s, k, node, names), Names(s, k, node), w))
  {
    var i := Find(s.services, svc.fullName, node);
    if i < |s.services| {
      RefreshTally(s, i, svc, s.services[i].topics, k, names);
    } else {
      RegisterNewTally(s, node, svc, k, names);
    }
  }

  lemma RegisterNewTally(s: State, node: NodeId, svc: ServiceInfo, k: Key, names: set<string>)
    requires Inv(s) && node != s.self && svc.fullName in names
    ensures var t, w := RegisterNew(s, node, svc, false), Says(svc, Unknown, false, k);
            && Names(t, k, node) == NamesAfter(Names(s, k, node), w)
            && (Backed(t, k, node, names) <==> BackedAfter(Backed(s, k, node, names), Names(s, k, node), w))
  {
    AddItemTally(s, node, svc, k, names);
    RefreshTally(AddItem(s, node, svc, false), |s.services|, svc, {}, k, names);
  }

  lemma {:induction false} RecallShift(s: State, node: NodeId, svcs: seq<ServiceInfo>, n: nat, fullName: string)
    requires Inv(s) && node != s.self && n < |svcs|
    ensures RecallAfter(RegisterOne(s, node, svcs[0]), node, svcs[1..], n, fullName)
            == RecallAfter(s, node, svcs, n + 1, fullName)
  {
    SelfStays(s, node, svcs[0]);
    if n == 0 {
      assert RecallAfter(s, node, svcs, 0, fullName) == Recall(s.services, fullName, node);
      if fullName == svcs[0].fullName {
        RegisterOneLearns(s, node, svcs[0]);
      } else {
        RegisterOneKeepsOthers(s, node, svcs[0], fullName);
      }
    } else {
      RecallShift(s, node, svcs, n - 1, fullName);
      assert svcs[1..][n - 1] == svcs[n];
    }
  }

  lemma ScriptShift(s: State, node: NodeId, svcs: seq<ServiceInfo>, k: Key)
    requires Inv(s) && node != s.self && svcs != []
    ensures Script(s, node, svcs, k)[0] == Says(svcs[0], Recall(s.services, svcs[0].fullName, node), false, k)
    ensures Script(s, node, svcs, k)[1..] == Script(RegisterOne(s, node, svcs[0]), node, svcs[1..], k)
  {
    var ws, vs := Script(s, node, svcs, k), Script(RegisterOne(s, node, svcs[0]), node, svcs[1..], k);
    forall j: nat | j < |vs|
      ensures vs[j] == ws[j + 1]
    {
      SaysShift(s, node, svcs, j, k);
    }
    TailIs(ws, vs);
  }

  /** One position of the script: the same saying, one place earlier. */
  lemma SaysShift(s: State, node: NodeId, svcs: seq<ServiceInfo>, j: nat, k: Key)
    requires Inv(s) && node != s.self && j + 1 < |svcs|
    ensures Script(RegisterOne(s, node, svcs[0]), node, svcs[1..], k)[j] == Script(s, node, svcs, k)[j + 1]
  {
    SelfStays(s, node, svcs[0]);
    RecallShift(s, node, svcs, j, svcs[j + 1].fullName);
  }

  /** The first loop of an update plays the script. */
  lemma {:induction false} RegisterEachTally(s: State, node: NodeId, svcs: seq<ServiceInfo>, k: Key, names: set<string>)
    requires Inv(s) && node != s.self && FullNames(svcs) <= names
    ensures Backed(RegisterEach(s, node, svcs), k, node, names)
            <==> Play(Backed(s, k, node, names), Names(s, k, node), Script(s, node, svcs, k))
    decreases |svcs|
  {
    if svcs != [] {
      var t := RegisterOne(s, node, svcs[0]);
      FullNamesCons(svcs);
      RegisterOneTally(s, node, svcs[0], k, names);
      RegisterOneKeepsInv(s, node, svcs[0]);
      RegisterEachTally(t, node, svcs[1..], k, names);
      ScriptShift(s, node, svcs, k);
    }
  }

  lemma OneItem(services: seq<Item>, i: nat, y: Item)
    requires NoDuplicates(services) && i < |services| && y in services && y.sid == services[i].sid
    ensures y == services[i]
  {
    var j: nat :| j < |services| && services[j] == y;
    if j != i { ItemsDiffer(services, i, j); }
  }

  /** Other services own what they owned when the one at position i is gone. */
  lemma OwnersStay(services: seq<Item>, i: nat, sid: nat, names: set<string>)
    requires NoDuplicates(services) && i < |services| && services[i].fullName !in names
    ensures OwnedIn(services[..i] + services[i + 1..], sid, names) <==> OwnedIn(services, sid, names)
  {
    forall y: Item
      ensures y in services[..i] + services[i + 1..] <==> y in services && y != services[i]
    {
      RestItems(services, i, y);
    }
  }

  lemma NotOwned(services: seq<Item>, i: nat, names: set<string>)
    requires NoDuplicates(services) && i < |services| && services[i].fullName !in names
    ensures !OwnedIn(services, services[i].sid, names)
  {
    forall y | y in services && y.sid == services[i].sid
      ensures y.fullName !in names
    {
      OneItem(services, i, y);
    }
  }

  /** Removing a service without a given name takes away no backed endpoint. */
  lemma UnregisterKeepsBacked(s: State, fullName: string, node: NodeId, k: Key, names: set<string>)
    requires Inv(s) && fullName !in names
    ensures Backed(Unregister(s, fullName, node), k, node, names) <==> Backed(s, k, node, names)
  {
    var i, t := Find(s.services, fullName, node), Unregister(s, fullName, node);
    if i < |s.services| {
      var es := ListAt(s.lists, k).endpoints;
      assert ListAt(t.lists, k).endpoints == Where(es, NotBy({s.services[i].sid}));
      NotOwned(s.services, i, names);
      forall e | e in es
        ensures OwnedIn(t.services, e.sid, names) <==> OwnedIn(s.services, e.sid, names)
      {
        OwnersStay(s.services, i, e.sid, names);
      }
    }
  }

  lemma {:induction false} DropMissingKeepsBacked(
      s: State, node: NodeId, names: set<string>, snapshot: seq<Item>, k: Key)
    requires Inv(s)
    ensures Backed(DropMissing(s, node, names, snapshot), k, node, names) <==> Backed(s, k, node, names)
    decreases |snapshot|
  {
    if snapshot != [] {
      var x := snapshot[0];
      if x.node == node && x.fullName !in names {
        UnregisterKeepsInv(s, x.fullName, node);
        UnregisterKeepsBacked(s, x.fullName, node, k, names);
        DropMissingKeepsBacked(Unregister(s, x.fullName, node), node, names, snapshot[1..], k);
      } else {
        DropMissingKeepsBacked(s, node, names, snapshot[1..], k);
      }
    }
  }

  /** When the node has only services with the given names, every endpoint is backed. */
  lemma PresentIsBacked(s: State, node: NodeId, k: Key, names: set<string>)
    requires Inv(s) && NamesOn(s.services, node) <= names
    ensures Present(s, k, node) <==> Backed(s, k, node, names)
  {
    if Present(s, k, node) {
      assert ListOk(s.services, k, s.lists[k], s.self);
      var e :| e in s.lists[k].endpoints && e.node == node;
      var x :| x in s.services && x.sid == e.sid && x.node == e.node && x.name == e.service && TopicOf(k) in x.topics;
      assert x.fullName in NamesOn(s.services, node);
      assert OwnedIn(s.services, e.sid, names);
    }
  }

  /**
   For every state and every packet, a key is on the node after the update if and only if the
   script of the packet lasts: when a service retracts the key, one after the last such service
   offers it; when none does, an endpoint of the node for the key belonged to a listed service
   before, or a service offers it under a short name that was not listed for it.
   */
  lemma UpdateLeavesKeyIff(s: State, node: NodeId, svcs: seq<ServiceInfo>, k: Key)
    requires Inv(s) && node != s.self
    ensures Present(RegisterServices(s, node, svcs), k, node)
            <==> Lasts(Backed(s, k, node, FullNames(svcs)), Names(s, k, node), Script(s, node, svcs, k))
  {
    var names, t := FullNames(svcs), RegisterEach(s, node, svcs);
    RegisterEachTally(s, node, svcs, k, names);
    RegisterEachKeepsInv(s, node, svcs);
    DropMissingKeepsBacked(t, node, names, t.services, k);
    DropMissingKeepsInv(t, node, names, t.services);
    UpdateSetsServices(s, node, svcs);
    PresentIsBacked(RegisterServices(s, node, svcs), node, k, names);
    PlayIsLasts(Backed(s, k, node, names), Names(s, k, node), Script(s, node, svcs, k));
  }

  /** Who says something about the key before position i, and after it. */
  lemma ScriptSplit(ws: seq<Saying>, i: nat)
    requires i < |ws|
    ensures SomeRetract(ws) <==> SomeRetract(ws[..i]) || ws[i].Retract? || SomeRetract(ws[i + 1..])
  {
    assert ws == ws[..i] + [ws[i]] + ws[i + 1..];
    assert forall w :: w in ws <==> w in ws[..i] || w == ws[i] || w in ws[i + 1..];
  }

  lemma LaterRetract(ws: seq<Saying>, i: nat, j: nat)
    requires j <= i < |ws| && SomeRetract(ws[i + 1..])
    ensures SomeRetract(ws[j + 1..])
  {
    var n :| 0 <= n < |ws[i + 1..]| && ws[i + 1..][n].Retract?;
    assert ws[j + 1..][n + i - j] == ws[i + 1..][n];
  }

  lemma LastOffer(ws: seq<Saying>, i: nat)
    requires i < |ws| && ws[i].Offer? && forall w <- ws[i + 1..] :: !w.Offer?
    ensures OfferAtLast(ws) <==> !SomeRetract(ws[i + 1..])
  {
    forall j | i < j < |ws|
      ensures !ws[j].Offer?
    {
      assert ws[i + 1..][j - i - 1] == ws[j];
    }
    if OfferAtLast(ws) && SomeRetract(ws[i + 1..]) {
      var j :| 0 <= j < |ws| && ws[j].Offer? && !SomeRetract(ws[j + 1..]);
      LaterRetract(ws, i, j);
    }
  }

  /**
   A key that the service at position i offers, and none after it, is on the node after the update
   if and only if no later service retracts it and one of these holds: an earlier service retracts
   it, a listed service owned an endpoint for it before, or it is offered under a new short name.
   */
  lemma AnnouncedIsPresentIff(s: State, node: NodeId, svcs: seq<ServiceInfo>, i: nat, k: Key)
    requires Inv(s) && node != s.self && i < |svcs|
    requires var ws := Script(s, node, svcs, k); ws[i].Offer? && forall w <- ws[i + 1..] :: !w.Offer?
    ensures var ws := Script(s, node, svcs, k);
            Present(RegisterServices(s, node, svcs), k, node) <==>
              && !SomeRetract(ws[i + 1..])
              && (|| SomeRetract(ws[..i])
                  || Backed(s, k, node, FullNames(svcs))
                  || SomeNewOffer(ws, Names(s, k, node)))
  {
    var ws := Script(s, node, svcs, k);
    UpdateLeavesKeyIff(s, node, svcs, k);
    ScriptSplit(ws, i);
    LastOffer(ws, i);
  }

  // --------------------------------------------------------------------- fresh nodes

  lemma AbsentWithoutServices(s: State, node: NodeId, k: Key)
    requires Inv(s) && NamesOn(s.services, node) == {}
    ensures Names(s, k, node) == {} && !Backed(s, k, node, {}) && !Present(s, k, node)
  {
    PresentIsBacked(s, node, k, {});
  }

  lemma FoundMeansNamed(services: seq<Item>, fullName: string, node: NodeId)
    ensures Recall(services, fullName, node).Known? <==> fullName in NamesOn(services, node)
  {
    var i := Find(services, fullName, node);
    assert i < |services| ==> services[i] in services;
    if fullName in NamesOn(services, node) {
      var x :| x in services && x.node == node && x.fullName == fullName;
      var j :| 0 <= j < |services| && services[j] == x;
    }
  }

  ghost predicate DistinctNames(svcs: seq<ServiceInfo>) {
    forall i, j | 0 <= i < j < |svcs| :: svcs[i].fullName != svcs[j].fullName
  }

  /** As long as a full name does not occur in the packet, nothing new is known about it. */
  lemma {:induction false} NotMentioned(s: State, node: NodeId, svcs: seq<ServiceInfo>, n: nat, fullName: string)
    requires n <= |svcs| && forall j | 0 <= j < n :: svcs[j].fullName != fullName
    ensures RecallAfter(s, node, svcs, n, fullName) == Recall(s.services, fullName, node)
  {
    if n > 0 { NotMentioned(s, node, svcs, n - 1, fullName); }
  }

  /** On a node without services a key is there afterwards if and only if nobody retracts it after its last offer. */
  lemma FreshNodeIsExact(s: State, node: NodeId, svcs: seq<ServiceInfo>, k: Key)
    requires Inv(s) && node != s.self && NamesOn(s.services, node) == {}
    ensures Present(RegisterServices(s, node, svcs), k, node) <==> OfferAtLast(Script(s, node, svcs, k))
    ensures DistinctNames(svcs) ==>
              (Present(RegisterServices(s, node, svcs), k, node) <==> exists v <- svcs :: Offers(v, v.name, false, k))
  {
    var ws, names := Script(s, node, svcs, k), FullNames(svcs);
    UpdateLeavesKeyIff(s, node, svcs, k);
    AbsentWithoutServices(s, node, k);
    assert !Backed(s, k, node, names);
    if !SomeRetract(ws) { NewOffers(ws); }
    if DistinctNames(svcs) { DistinctScript(s, node, svcs, k); }
  }

  lemma DistinctScript(s: State, node: NodeId, svcs: seq<ServiceInfo>, k: Key)
    requires NamesOn(s.services, node) == {} && node != s.self && DistinctNames(svcs)
    ensures OfferAtLast(Script(s, node, svcs, k)) <==> exists v <- svcs :: Offers(v, v.name, false, k)
  {
    var ws := Script(s, node, svcs, k);
    forall j | 0 <= j < |svcs|
      ensures ws[j] == if Offers(svcs[j], svcs[j].name, false, k) then Offer(svcs[j].name) else Silence
    {
      NotMentioned(s, node, svcs, j, svcs[j].fullName);
      FoundMeansNamed(s.services, svcs[j].fullName, node);
    }
    assert !SomeRetract(ws);
    NewOffers(ws);
    if exists v <- svcs :: Offers(v, v.name, false, k) {
      var v :| v in svcs && Offers(v, v.name, false, k);
      var j :| 0 <= j < |svcs| && svcs[j] == v;
      assert ws[j] in ws;
    }
  }

  // ------------------------------------------------------------ where this goes wrong

  lemma TwoScript(s: State, node: NodeId, a: ServiceInfo, b: ServiceInfo, k: Key)
    requires a.fullName != b.fullName && node != s.self
    ensures Script(s, node, [a, b], k) == [Says(a, Recall(s.services, a.fullName, node), false, k),
                                           Says(b, Recall(s.services, b.fullName, node), false, k)]
  {
    var svcs := [a, b];
    NotMentioned(s, node, svcs, 0, a.fullName);
    NotMentioned(s, node, svcs, 1, b.fullName);
  }

  /**
   A key that moves from service a to service b in one update is lost when b is listed before a,
   and kept when b is listed after a.
   */
  lemma MovedKeyDependsOnOrder(s: State, node: NodeId, a: ServiceInfo, b: ServiceInfo, k: Key)
    requires Inv(s) && node != s.self && a.fullName != b.fullName
    requires Says(b, Recall(s.services, b.fullName, node), false, k).Offer?
    requires Says(a, Recall(s.services, a.fullName, node), false, k).Retract?
    ensures !Present(RegisterServices(s, node, [b, a]), k, node)
    ensures Present(RegisterServices(s, node, [a, b]), k, node)
  {
    TwoScript(s, node, a, b, k);
    TwoScript(s, node, b, a, k);
    var ba, ab := Script(s, node, [b, a], k), Script(s, node, [a, b], k);
    assert ba[1] in ba && ba[1..] == [ba[1]] && ba[2..] == [];
    assert ab[0] in ab && ab[2..] == [];
    assert !OfferAtLast(ba) by { assert ba[1] in ba[1..]; }
    assert OfferAtLast(ab) by { assert ab[1].Offer? && !SomeRetract(ab[2..]); }
    UpdateLeavesKeyIff(s, node, [b, a], k);
    UpdateLeavesKeyIff(s, node, [a, b], k);
  }
}
