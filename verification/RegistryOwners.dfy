/**
 Local services that share a short name: the one registered first owns their common endpoint, and
 takes it along when it is removed.
 */
module RegistryOwners {
  import opened Prelude
  import opened Registry
  import opened RegistryUpdates
  import opened RegistryConvergence
  import opened RegistryPresence
  import opened RegistryDeliveries

  /** Local services registered one after the other. */
  function RegisterLocals(s: State, svcs: seq<ServiceInfo>): State
    decreases |svcs|
  {
    if svcs == [] then s else RegisterLocals(RegisterLocal(s, svcs[0]), svcs[1..])
  }

  /** The endpoint listed under a short name on the node itself belongs to the service with the full name. */
  ghost predicate Holder(s: State, k: Key, name: string, fullName: string) {
    exists e <- ListAt(s.lists, k).endpoints ::
      e.node == s.self && e.service == name && OwnedIn(s.services, e.sid, {fullName})
  }

  lemma {:induction false} AddKeysKeepEndpoints(s: State, i: nat, ks: seq<Key>, k: Key, e: Ep)
    requires i < |s.services| && e in ListAt(s.lists, k).endpoints
    ensures e in ListAt(AddKeys(s, i, ks).lists, k).endpoints
    decreases |ks|
  {
    if ks != [] { AddKeysKeepEndpoints(AddKey(s, i, ks[0]), i, ks[1..], k, e); }
  }

  lemma RefreshKeepsEndpoints(s: State, i: nat, svc: ServiceInfo, k: Key, e: Ep)
    requires i < |s.services| && e in ListAt(s.lists, k).endpoints
    ensures e in ListAt(Refresh(s, i, svc, {}).lists, k).endpoints
  {
    var x := s.services[i];
    var aks, eks := ActionKeys(svc.actions, x.node == s.self), EventKeys(svc.events, x.name);
    var s1 := AddKeys(s, i, aks);
    AddKeysKeepEndpoints(s, i, aks, k, e);
    var s2 := DropTopics(s1, x.node, OldActions({}) - ActionTopics(svc.actions));
    assert ListAt(s2.lists, k).endpoints == ListAt(s1.lists, k).endpoints;
    AddKeysKeepEndpoints(s2, i, eks, k, e);
  }

  lemma OwnerGrows(a: seq<Item>, b: seq<Item>, sid: nat, names: set<string>)
    requires Grown(a, b) && OwnedIn(a, sid, names)
    ensures OwnedIn(b, sid, names)
  {
    var x :| x in a && x.sid == sid && x.fullName in names;
    var i :| 0 <= i < |a| && a[i] == x;
    assert b[i] in b;
  }

  lemma AddItemKeepsHolder(s: State, svc: ServiceInfo, k: Key, name: string, fullName: string)
    requires Holder(s, k, name, fullName)
    ensures Holder(AddItem(s, s.self, svc, true), k, name, fullName)
  {
    var e :| e in ListAt(s.lists, k).endpoints
      && e.node == s.self && e.service == name && OwnedIn(s.services, e.sid, {fullName});
    OwnerGrows(s.services, AddItem(s, s.self, svc, true).services, e.sid, {fullName});
  }

  lemma RefreshKeepsHolder(s: State, i: nat, svc: ServiceInfo, k: Key, name: string, fullName: string)
    requires Inv(s) && i < |s.services| && Holder(s, k, name, fullName)
    ensures Holder(Refresh(s, i, svc, {}), k, name, fullName)
  {
    var e :| e in ListAt(s.lists, k).endpoints
      && e.node == s.self && e.service == name && OwnedIn(s.services, e.sid, {fullName});
    RefreshKeepsEndpoints(s, i, svc, k, e);
    RefreshKeepsInv(s, i, svc, {});
    RefreshFrame(s, i, svc, {});
    OwnerGrows(s.services, Refresh(s, i, svc, {}).services, e.sid, {fullName});
  }

  /** Whoever holds a listing keeps it while services are added. */
  lemma HolderStays(s: State, svc: ServiceInfo, k: Key, name: string, fullName: string)
    requires Inv(s) && Holder(s, k, name, fullName)
    ensures Holder(RegisterLocal(s, svc), k, name, fullName)
  {
    var i := Find(s.services, svc.fullName, s.self);
    if i == |s.services| {
      AddItemKeepsHolder(s, svc, k, name, fullName);
      AddItemKeepsInv(s, s.self, svc, true);
      RefreshKeepsHolder(AddItem(s, s.self, svc, true), i, svc, k, name, fullName);
    }
  }

  lemma {:induction false} HolderStaysForAll(s: State, svcs: seq<ServiceInfo>, k: Key, name: string, fullName: string)
    requires Inv(s) && Holder(s, k, name, fullName)
    ensures var t := RegisterLocals(s, svcs); Inv(t) && t.self == s.self && Holder(t, k, name, fullName)
    decreases |svcs|
  {
    if svcs != [] {
      HolderStays(s, svcs[0], k, name, fullName);
      NextKeepsInv(s, AddLocal(svcs[0]));
      HolderStaysForAll(RegisterLocal(s, svcs[0]), svcs[1..], k, name, fullName);
    }
  }

  /** The short names listed after a local service is added. */
  lemma LocalNames(s: State, svc: ServiceInfo, k: Key)
    requires Inv(s)
    ensures var t, isNew := RegisterLocal(s, svc), Find(s.services, svc.fullName, s.self) == |s.services|;
            && t.self == s.self
            && Names(t, k, s.self) ==
               Names(s, k, s.self) + (if isNew && Offers(svc, svc.name, true, k) then {svc.name} else {})
  {
    var i := Find(s.services, svc.fullName, s.self);
    if i == |s.services| {
      NewLocalNames(s, svc, k);
    }
  }

  lemma NewLocalNames(s: State, svc: ServiceInfo, k: Key)
    ensures var t := RegisterNew(s, s.self, svc, true);
            && t.self == s.self
            && Names(t, k, s.self) == Names(s, k, s.self) + (if Offers(svc, svc.name, true, k) then {svc.name} else {})
  {
    var i, s1 := |s.services|, AddItem(s, s.self, svc, true);
    assert Names(s1, k, s.self) == Names(s, k, s.self);
    RefreshFrame(s1, i, svc, {});
    RefreshTally(s1, i, svc, {}, k, {svc.fullName});
  }

  /** A new service that offers a key under a short name not yet listed becomes the holder. */
  lemma BecomesHolder(s: State, svc: ServiceInfo, k: Key)
    requires Inv(s) && Find(s.services, svc.fullName, s.self) == |s.services|
    requires Offers(svc, svc.name, true, k) && svc.name !in Names(s, k, s.self)
    ensures Holder(RegisterLocal(s, svc), k, svc.name, svc.fullName)
  {
    var i, t := |s.services|, RegisterLocal(s, svc);
    LocalNames(s, svc, k);
    NextKeepsInv(s, AddLocal(svc));
    assert svc.name in Names(t, k, s.self);
    var e :| e in ListAt(t.lists, k).endpoints && e.node == s.self && e.service == svc.name;
    NewEndpointIsOwn(s, svc, k, e);
  }

  /** An endpoint under a short name that was not listed before belongs to the service just added. */
  lemma NewEndpointIsOwn(s: State, svc: ServiceInfo, k: Key, e: Ep)
    requires Inv(s) && Find(s.services, svc.fullName, s.self) == |s.services|
    requires e in ListAt(RegisterLocal(s, svc).lists, k).endpoints
    requires e.node == s.self && e.service !in Names(s, k, s.self)
    ensures OwnedIn(RegisterLocal(s, svc).services, e.sid, {svc.fullName})
  {
    AddItemKeepsInv(s, s.self, svc, true);
    assert e !in ListAt(s.lists, k).endpoints;
    RefreshedIsOwn(AddItem(s, s.self, svc, true), |s.services|, svc, k, e);
  }

  lemma RefreshedIsOwn(s: State, i: nat, svc: ServiceInfo, k: Key, e: Ep)
    requires Inv(s) && i < |s.services| && s.services[i].fullName == svc.fullName
    requires e in ListAt(Refresh(s, i, svc, {}).lists, k).endpoints && e !in ListAt(s.lists, k).endpoints
    ensures OwnedIn(Refresh(s, i, svc, {}).services, e.sid, {svc.fullName})
  {
    RefreshKeepsInv(s, i, svc, {});
    RefreshFrom(s, i, svc, k, e);
    var services := Refresh(s, i, svc, {}).services;
    assert services[i] in services;
  }

  lemma {:induction false} AddKeysFrom(s: State, i: nat, ks: seq<Key>, k: Key, e: Ep)
    requires i < |s.services| && e in ListAt(AddKeys(s, i, ks).lists, k).endpoints
    ensures e in ListAt(s.lists, k).endpoints || e.sid == s.services[i].sid
    ensures AddKeys(s, i, ks).services[i].sid == s.services[i].sid
    decreases |ks|
  {
    if ks != [] { AddKeysFrom(AddKey(s, i, ks[0]), i, ks[1..], k, e); }
  }

  lemma {:induction false} AddKeysSid(s: State, i: nat, ks: seq<Key>)
    requires i < |s.services|
    ensures AddKeys(s, i, ks).services[i].sid == s.services[i].sid
    decreases |ks|
  {
    if ks != [] { AddKeysSid(AddKey(s, i, ks[0]), i, ks[1..]); }
  }

  lemma RefreshFrom(s: State, i: nat, svc: ServiceInfo, k: Key, e: Ep)
    requires i < |s.services| && e in ListAt(Refresh(s, i, svc, {}).lists, k).endpoints
    ensures e in ListAt(s.lists, k).endpoints || e.sid == s.services[i].sid
  {
    var x := s.services[i];
    var aks, eks := ActionKeys(svc.actions, x.node == s.self), EventKeys(svc.events, x.name);
    var s1 := AddKeys(s, i, aks);
    AddKeysSid(s, i, aks);
    var s2 := DropTopics(s1, x.node, OldActions({}) - ActionTopics(svc.actions));
    var s3 := AddKeys(s2, i, eks);
    assert e in ListAt(s3.lists, k).endpoints;
    AddKeysFrom(s2, i, eks, k, e);
    if e in ListAt(s2.lists, k).endpoints {
      assert e in ListAt(s1.lists, k).endpoints;
      AddKeysFrom(s, i, aks, k, e);
    }
  }

  /** The service offers the key under the short name. */
  predicate OffersAs(svc: ServiceInfo, name: string, k: Key) {
    svc.name == name && Offers(svc, name, true, k)
  }

  /** The service at position i is new and the first to offer the key under the short name. */
  ghost predicate FirstOffer(svcs: seq<ServiceInfo>, i: nat, k: Key, name: string, known: set<string>) {
    && i < |svcs| && OffersAs(svcs[i], name, k) && svcs[i].fullName !in known
    && forall j | 0 <= j < i :: !OffersAs(svcs[j], name, k) && svcs[j].fullName != svcs[i].fullName
  }

  lemma FirstOfferTail(svcs: seq<ServiceInfo>, i: nat, k: Key, name: string, known: set<string>)
    requires FirstOffer(svcs, i, k, name, known) && i > 0
    ensures FirstOffer(svcs[1..], i - 1, k, name, known + {svcs[0].fullName})
    ensures !OffersAs(svcs[0], name, k)
  {
    assert forall j | 0 <= j < i - 1 :: svcs[1..][j] == svcs[j + 1];
  }

  lemma NotFound(s: State, fullName: string)
    requires fullName !in NamesOn(s.services, s.self)
    ensures Find(s.services, fullName, s.self) == |s.services|
  {
    FoundMeansNamed(s.services, fullName, s.self);
  }

  lemma LocalNamesOn(s: State, svc: ServiceInfo)
    requires Inv(s)
    ensures NamesOn(RegisterLocal(s, svc).services, s.self) == NamesOn(s.services, s.self) + {svc.fullName}
  {
    var i := Find(s.services, svc.fullName, s.self);
    if i < |s.services| {
      assert s.services[i] in s.services;
    } else {
      AddItemNames(s, s.self, svc, true);
      AddItemKeepsInv(s, s.self, svc, true);
      RefreshKeepsInv(AddItem(s, s.self, svc, true), i, svc, {});
      GrownNames(AddItem(s, s.self, svc, true).services, RegisterLocal(s, svc).services, s.self);
    }
  }

  /** The first service to offer a key under a short name that is not listed holds the listing in the end. */
  lemma {:induction false} FirstHolds(s: State, svcs: seq<ServiceInfo>, i: nat, k: Key, name: string)
    requires Inv(s) && name !in Names(s, k, s.self)
    requires FirstOffer(svcs, i, k, name, NamesOn(s.services, s.self))
    ensures var t := RegisterLocals(s, svcs); Inv(t) && t.self == s.self && Holder(t, k, name, svcs[i].fullName)
    decreases |svcs|
  {
    var v, t := svcs[0], RegisterLocal(s, svcs[0]);
    NextKeepsInv(s, AddLocal(v));
    if i == 0 {
      NotFound(s, v.fullName);
      BecomesHolder(s, v, k);
      HolderStaysForAll(t, svcs[1..], k, name, v.fullName);
    } else {
      FirstOfferTail(svcs, i, k, name, NamesOn(s.services, s.self));
      LocalNames(s, v, k);
      LocalNamesOn(s, v);
      FirstHolds(t, svcs[1..], i - 1, k, name);
    }
  }

  /** Removing a service takes a listing away if and only if the service holds it. */
  lemma RemovalTakesOwnListing(s: State, k: Key, name: string, holder: string, fullName: string)
    requires Inv(s) && Holder(s, k, name, holder)
    ensures name in Names(Unregister(s, fullName, s.self), k, s.self) <==> fullName != holder
  {
    var e :| e in ListAt(s.lists, k).endpoints
      && e.node == s.self && e.service == name && OwnedIn(s.services, e.sid, {holder});
    OnlyListing(s, k, e);
    HolderIsRemoved(s, k, e, holder, fullName);
    var i := Find(s.services, fullName, s.self);
    if i < |s.services| {
      ListingGoes(s, Unregister(s, fullName, s.self), k, e, s.services[i].sid);
    }
  }

  /** The service that holds a listing is the one found by its own name, and by no other. */
  lemma HolderIsRemoved(s: State, k: Key, e: Ep, holder: string, fullName: string)
    requires Inv(s) && e in ListAt(s.lists, k).endpoints && e.node == s.self
    requires OwnedIn(s.services, e.sid, {holder})
    ensures var i := Find(s.services, fullName, s.self);
            fullName == holder <==> i < |s.services| && s.services[i].sid == e.sid
  {
    var x :| x in s.services && x.sid == e.sid && x.fullName in {holder};
    var j: nat :| j < |s.services| && s.services[j] == x;
    OwnerNode(s, k, e, j);
    var i := Find(s.services, fullName, s.self);
    if i < |s.services| && i != j { ItemsDiffer(s.services, i, j); }
  }

  /** A list loses the endpoints of one service: the only one under a name goes if it is of that service. */
  lemma ListingGoes(s: State, t: State, k: Key, e: Ep, sid: nat)
    requires e in ListAt(s.lists, k).endpoints && t.lists == DropSids(s.lists, {sid}, s.self)
    requires forall d <- ListAt(s.lists, k).endpoints :: d.node == e.node && d.service == e.service ==> d == e
    ensures e.service in Names(t, k, e.node) <==> sid != e.sid
  {
    assert ListAt(t.lists, k).endpoints == Where(ListAt(s.lists, k).endpoints, NotBy({sid}));
  }

  lemma OnlyListing(s: State, k: Key, e: Ep)
    requires Inv(s) && e in ListAt(s.lists, k).endpoints
    ensures forall d <- ListAt(s.lists, k).endpoints :: d.node == e.node && d.service == e.service ==> d == e
  {
    var es := ListAt(s.lists, k).endpoints;
    assert ListOk(s.services, k, s.lists[k], s.self);
    var m :| 0 <= m < |es| && es[m] == e;
    forall d | d in es && d.node == e.node && d.service == e.service
      ensures d == e
    {
      var n :| 0 <= n < |es| && es[n] == d;
      assert m == n;
    }
  }

  /**
   Services registered in order: afterwards, removing any service takes the listing of a key under
   a short name away if and only if it is the first one that offered the key under that name.
   */
  lemma RemovalTakesListingIffFirst(s: State, svcs: seq<ServiceInfo>, i: nat, k: Key, name: string, fullName: string)
    requires Inv(s) && name !in Names(s, k, s.self)
    requires FirstOffer(svcs, i, k, name, NamesOn(s.services, s.self))
    ensures var t := RegisterLocals(s, svcs);
            && t.self == s.self && name in Names(t, k, t.self)
            && (name !in Names(Unregister(t, fullName, t.self), k, t.self) <==> fullName == svcs[i].fullName)
  {
    var t := RegisterLocals(s, svcs);
    FirstHolds(s, svcs, i, k, name);
    RemovalTakesOwnListing(t, k, name, svcs[i].fullName, fullName);
  }

  lemma BothRegistered(self: NodeId, a: ServiceInfo, b: ServiceInfo)
    ensures NamesOn(RegisterLocals(Empty(self), [a, b]).services, self) == {a.fullName, b.fullName}
  {
    var s, t := Empty(self), RegisterLocal(Empty(self), a);
    NextKeepsInv(s, AddLocal(a));
    LocalNamesOn(s, a);
    LocalNamesOn(t, b);
    assert [a, b][1..] == [b] && [b][1..] == [];
    assert RegisterLocals(s, [a, b]) == RegisterLocals(t, [b]) == RegisterLocals(RegisterLocal(t, b), []);
    assert NamesOn(s.services, self) == {};
  }

  /** Two versions with one event: removing the one registered first leaves the other without its endpoint. */
  lemma RemovedVersionTakesTheEvent(self: NodeId, name: string, v1: string, v2: string, event: string)
    requires v1 != v2
    ensures var t := RegisterLocals(Empty(self), [WithEvent(name, v1, event), WithEvent(name, v2, event)]);
            var k := Event(event, name);
            && NamesOn(t.services, self) == {v1, v2}
            && name in Names(Unregister(t, v2, self), k, self)
            && name !in Names(Unregister(t, v1, self), k, self)
  {
    var a, b, k := WithEvent(name, v1, event), WithEvent(name, v2, event), Event(event, name);
    var s, svcs := Empty(self), [a, b];
    BothRegistered(self, a, b);
    OffersOwn(name, v1, event);
    assert NamesOn(s.services, self) == {} && Names(s, k, self) == {};
    RemovalTakesListingIffFirst(s, svcs, 0, k, name, v1);
    RemovalTakesListingIffFirst(s, svcs, 0, k, name, v2);
  }
}
