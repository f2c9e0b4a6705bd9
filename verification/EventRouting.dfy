/**
 Events across a cluster: what `emit` and `broadcast` on one node make run on all nodes.
 Whether an event name matches a pattern is a parameter, and so is the balancing strategy.
 */
module EventRouting {
  import opened Prelude

  type NodeId = string

  /** An event endpoint: a service, known by its short name, on a node. */
  datatype Sub = Sub(node: NodeId, service: string)

  /** The subscribers of a pattern in a group. */
  datatype EventList = EventList(pattern: string, group: string, endpoints: seq<Sub>)

  /** The handler that an endpoint has in a list, chosen or called. */
  datatype Call = Call(pattern: string, group: string, ep: Sub)

  /** An event packet and the groups it is meant for; no groups stands for all of them. */
  datatype Packet = Packet(node: NodeId, groups: seq<string>)

  type Cluster = map<NodeId, seq<EventList>>

  predicate Applies(l: EventList, m: string -> bool, groups: seq<string>) {
    m(l.pattern) && (groups == [] || l.group in groups)
  }

  function LocalsOf(es: seq<Sub>, node: NodeId): (r: seq<Sub>)
    ensures forall e :: e in r <==> e in es && e.node == node
  {
    if es == [] then [] else if es[0].node == node then [es[0]] + LocalsOf(es[1..], node) else LocalsOf(es[1..], node)
  }

  /** What a strategy picks: some candidate, when there is one. */
  type Strategy = (NodeId, EventList) -> Sub

  // ---------------------------------------------------------------------------- emit

  /** One balanced endpoint of each list that applies. */
  function Chosen(
      ls: seq<EventList>, self: NodeId, m: string -> bool, groups: seq<string>, choose: Strategy): seq<Call> {
    if ls == [] then []
    else if Applies(ls[0], m, groups) && ls[0].endpoints != [] then
      [Call(ls[0].pattern, ls[0].group, choose(self, ls[0]))] + Chosen(ls[1..], self, m, groups, choose)
    else Chosen(ls[1..], self, m, groups, choose)
  }

  /** The chosen handlers of the node itself, which it calls directly. */
  function Own(cs: seq<Call>, self: NodeId): seq<Call> {
    if cs == [] then [] else if cs[0].ep.node == self then [cs[0]] + Own(cs[1..], self) else Own(cs[1..], self)
  }

  /** Adds a group to the packet of a node, or a packet for it. */
  function AddGroup(ps: seq<Packet>, node: NodeId, group: string): seq<Packet> {
    if ps == [] then [Packet(node, [group])]
    else if ps[0].node == node then [Packet(node, ps[0].groups + [group])] + ps[1..]
    else [ps[0]] + AddGroup(ps[1..], node, group)
  }

  /** The packets for the chosen remote endpoints: one for each node. */
  function Grouped(ps: seq<Packet>, cs: seq<Call>, self: NodeId): seq<Packet>
    decreases |cs|
  {
    if cs == [] then ps
    else Grouped(if cs[0].ep.node == self then ps else AddGroup(ps, cs[0].ep.node, cs[0].group), cs[1..], self)
  }

  /** What a node calls when it receives a balanced event: one local endpoint of each list that applies. */
  function Handled(
      ls: seq<EventList>, node: NodeId, m: string -> bool, groups: seq<string>, choose: Strategy): seq<Call> {
    if ls == [] then []
    else if Applies(ls[0], m, groups) && LocalsOf(ls[0].endpoints, node) != [] then
      [Call(ls[0].pattern, ls[0].group, choose(node, ls[0]))] + Handled(ls[1..], node, m, groups, choose)
    else Handled(ls[1..], node, m, groups, choose)
  }

  function Delivered(ps: seq<Packet>, c: Cluster, m: string -> bool, choose: Strategy): seq<Call> {
    if ps == [] then []
    else Handled(At(c, ps[0].node), ps[0].node, m, ps[0].groups, choose) + Delivered(ps[1..], c, m, choose)
  }

  /** Every handler call in the cluster that an emit on a node leads to. */
  function Emit(c: Cluster, self: NodeId, m: string -> bool, groups: seq<string>, choose: Strategy): seq<Call> {
    var cs := Chosen(At(c, self), self, m, groups, choose);
    Own(cs, self) + Delivered(Grouped([], cs, self), c, m, choose)
  }

  // ----------------------------------------------------------------------- broadcast

  function Endpoints(ls: seq<EventList>, m: string -> bool, groups: seq<string>): seq<Sub> {
    if ls == [] then []
    else if Applies(ls[0], m, groups) then ls[0].endpoints + Endpoints(ls[1..], m, groups)
    else Endpoints(ls[1..], m, groups)
  }

  /** The nodes of a list of endpoints, each once, in order of first appearance. */
  function Nodes(seen: seq<NodeId>, es: seq<Sub>): (r: seq<NodeId>)
    requires NoRepeats(seen)
    ensures NoRepeats(r)
    ensures forall n :: n in r <==> n in seen || exists e <- es :: e.node == n
    decreases |es|
  {
    if es == [] then seen else Nodes(if es[0].node in seen then seen else seen + [es[0].node], es[1..])
  }

  ghost predicate NoRepeats<T>(xs: seq<T>) {
    forall i, j | 0 <= i < j < |xs| :: xs[i] != xs[j]
  }

  /** What a node calls when it receives a broadcast event: every local endpoint of each list that applies. */
  function HandledAll(ls: seq<EventList>, node: NodeId, m: string -> bool, groups: seq<string>): seq<Call> {
    if ls == [] then []
    else if Applies(ls[0], m, groups) then
      Calls(ls[0], LocalsOf(ls[0].endpoints, node)) + HandledAll(ls[1..], node, m, groups)
    else HandledAll(ls[1..], node, m, groups)
  }

  function Calls(l: EventList, es: seq<Sub>): seq<Call> {
    if es == [] then [] else [Call(l.pattern, l.group, es[0])] + Calls(l, es[1..])
  }

  /** A broadcast packet goes to each node once, and not to the node itself. */
  function Spread(ns: seq<NodeId>, self: NodeId, c: Cluster, m: string -> bool, groups: seq<string>): seq<Call> {
    if ns == [] then []
    else (if ns[0] == self then []
        else HandledAll(At(c, ns[0]), ns[0], m, groups)) + Spread(ns[1..], self, c, m, groups)
  }

  function Broadcast(c: Cluster, self: NodeId, m: string -> bool, groups: seq<string>): seq<Call> {
    Spread(Nodes([], Endpoints(At(c, self), m, groups)), self, c, m, groups) + HandledAll(At(c, self), self, m, groups)
  }

  // ------------------------------------------------------------------ agreeing nodes

  ghost predicate Listed(ls: seq<EventList>, pattern: string, group: string, e: Sub) {
    exists l <- ls :: l.pattern == pattern && l.group == group && e in l.endpoints
  }

  /** One list for each pattern and group, and no endpoint twice in a list. */
  ghost predicate Tidy(ls: seq<EventList>) {
    && (forall i, j | 0 <= i < j < |ls| :: !(ls[i].pattern == ls[j].pattern && ls[i].group == ls[j].group))
    && (forall l <- ls :: NoRepeats(l.endpoints))
  }

  /** The sender knows of each node exactly the endpoints which that node has itself. */
  ghost predicate Agree(c: Cluster, self: NodeId) {
    && (forall n | n in c :: Tidy(c[n]))
    && forall p, g, e :: Listed(At(c, self), p, g, e) <==> Listed(At(c, e.node), p, g, e)
  }

  ghost predicate Picks(choose: Strategy, c: Cluster, self: NodeId) {
    && (forall l | l in At(c, self) && l.endpoints != [] :: choose(self, l) in l.endpoints)
    && (forall n, l | n != self && l in At(c, n) && LocalsOf(l.endpoints, n) != [] ::
        choose(n, l) in LocalsOf(l.endpoints, n))
  }

  // ---------------------------------------------------------------- order of the calls

  /** Lists are served in the order of the catalog: what a catalog leads to is what its parts lead to, in order. */
  lemma {:induction false} CatalogOrder(
      a: seq<EventList>, b: seq<EventList>, n: NodeId, m: string -> bool, groups: seq<string>, choose: Strategy)
    ensures Chosen(a + b, n, m, groups, choose) == Chosen(a, n, m, groups, choose) + Chosen(b, n, m, groups, choose)
    ensures Handled(a + b, n, m, groups, choose) == Handled(a, n, m, groups, choose) + Handled(b, n, m, groups, choose)
    ensures HandledAll(a + b, n, m, groups) == HandledAll(a, n, m, groups) + HandledAll(b, n, m, groups)
    ensures Endpoints(a + b, m, groups) == Endpoints(a, m, groups) + Endpoints(b, m, groups)
  {
    AppendTail(a, b);
    if a != [] {
      Assoc(a[0].endpoints, Endpoints(a[1..], m, groups), Endpoints(b, m, groups));
      CatalogOrder(a[1..], b, n, m, groups, choose);
      var one := [Call(a[0].pattern, a[0].group, choose(n, a[0]))];
      Assoc(one, Chosen(a[1..], n, m, groups, choose), Chosen(b, n, m, groups, choose));
      Assoc(one, Handled(a[1..], n, m, groups, choose), Handled(b, n, m, groups, choose));
      Assoc(Calls(a[0], LocalsOf(a[0].endpoints, n)), HandledAll(a[1..], n, m, groups), HandledAll(b, n, m, groups));
    }
  }

  /** Within a list, endpoints are called in their order, and own calls keep the order of choice. */
  lemma {:induction false} CallOrder(l: EventList, es: seq<Sub>, fs: seq<Sub>)
    ensures Calls(l, es + fs) == Calls(l, es) + Calls(l, fs)
  {
    AppendTail(es, fs);
    if es != [] {
      CallOrder(l, es[1..], fs);
      Assoc([Call(l.pattern, l.group, es[0])], Calls(l, es[1..]), Calls(l, fs));
    }
  }

  lemma {:induction false} LocalOrder(es: seq<Sub>, fs: seq<Sub>, n: NodeId)
    ensures LocalsOf(es + fs, n) == LocalsOf(es, n) + LocalsOf(fs, n)
  {
    if es == [] {
      assert es + fs == fs;
    } else {
      var first := if es[0].node == n then [es[0]] else [];
      LocalOrder(es[1..], fs, n);
      AppendTail(es, fs);
      LocalsCons(es, n);
      LocalsCons(es + fs, n);
      Assoc(first, LocalsOf(es[1..], n), LocalsOf(fs, n));
    }
  }

  lemma LocalsCons(es: seq<Sub>, n: NodeId)
    requires es != []
    ensures LocalsOf(es, n) == (if es[0].node == n then [es[0]] else []) + LocalsOf(es[1..], n)
  {
  }

  lemma {:induction false} OwnOrder(cs: seq<Call>, ds: seq<Call>, self: NodeId)
    ensures Own(cs + ds, self) == Own(cs, self) + Own(ds, self)
  {
    AppendTail(cs, ds);
    if cs != [] {
      OwnOrder(cs[1..], ds, self);
      Assoc([cs[0]], Own(cs[1..], self), Own(ds, self));
    }
  }

  /** Nodes come in the order of their first appearance. */
  lemma {:induction false} NodeOrder(seen: seq<NodeId>, es: seq<Sub>)
    requires NoRepeats(seen)
    ensures seen <= Nodes(seen, es)
    ensures es != [] && es[0].node !in seen ==> seen + [es[0].node] <= Nodes(seen, es)
    decreases |es|
  {
    if es != [] { NodeOrder(if es[0].node in seen then seen else seen + [es[0].node], es[1..]); }
  }

  // ------------------------------------------------------------------- emit: proofs

  /** The number of calls for a group. */
  function InGroup(cs: seq<Call>, g: string): nat {
    if cs == [] then 0 else (if cs[0].group == g then 1 else 0) + InGroup(cs[1..], g)
  }

  lemma {:induction false} InGroupAppend(a: seq<Call>, b: seq<Call>, g: string)
    ensures InGroup(a + b, g) == InGroup(a, g) + InGroup(b, g)
  {
    if a == [] {
      assert a + b == b;
    } else {
      assert (a + b)[0] == a[0] && (a + b)[1..] == a[1..] + b;
      InGroupAppend(a[1..], b, g);
    }
  }

  /** The number of patterns of a group that have subscribers and match. */
  function Patterns(ls: seq<EventList>, m: string -> bool, groups: seq<string>, g: string): nat {
    if ls == [] then 0
    else (if Applies(ls[0], m, groups) && ls[0].endpoints != [] && ls[0].group == g then 1
        else 0) + Patterns(ls[1..], m, groups, g)
  }

  lemma {:induction false} OneChoiceEach(
      ls: seq<EventList>, self: NodeId, m: string -> bool, groups: seq<string>, choose: Strategy, g: string)
    ensures InGroup(Chosen(ls, self, m, groups, choose), g) == Patterns(ls, m, groups, g)
  {
    if ls != [] { OneChoiceEach(ls[1..], self, m, groups, choose, g); }
  }

  /** Each chosen call belongs to a list of the catalog that applies. */
  lemma {:induction false} ChosenFrom(
      ls: seq<EventList>, self: NodeId, m: string -> bool, groups: seq<string>, choose: Strategy, c: Call)
    ensures c in Chosen(ls, self, m, groups, choose)
            <==> exists l <- ls ::
                   && Applies(l, m, groups) && l.endpoints != []
                   && c == Call(l.pattern, l.group, choose(self, l))
  {
    if ls != [] {
      ChosenFrom(ls[1..], self, m, groups, choose, c);
      assert ls == [ls[0]] + ls[1..];
      assert forall l :: l in ls <==> l == ls[0] || l in ls[1..];
    }
  }

  lemma {:induction false} HandledFrom(
      ls: seq<EventList>, node: NodeId, m: string -> bool, groups: seq<string>, choose: Strategy, c: Call)
    ensures c in Handled(ls, node, m, groups, choose)
            <==> exists l <- ls ::
                   && Applies(l, m, groups) && LocalsOf(l.endpoints, node) != []
                   && c == Call(l.pattern, l.group, choose(node, l))
  {
    if ls != [] {
      HandledFrom(ls[1..], node, m, groups, choose, c);
      assert ls == [ls[0]] + ls[1..];
      assert forall l :: l in ls <==> l == ls[0] || l in ls[1..];
    }
  }

  /** How many lists of a group a node has local matching endpoints in. */
  function LocalLists(ls: seq<EventList>, node: NodeId, m: string -> bool, g: string): nat {
    if ls == [] then 0
    else (if m(ls[0].pattern) && LocalsOf(ls[0].endpoints, node) != [] && ls[0].group == g then 1
        else 0) + LocalLists(ls[1..], node, m, g)
  }

  lemma {:induction false} HandledCount(
      ls: seq<EventList>, node: NodeId, m: string -> bool, groups: seq<string>, choose: Strategy, g: string)
    requires groups != []
    ensures InGroup(Handled(ls, node, m, groups, choose), g) == if g in groups then LocalLists(ls, node, m, g) else 0
  {
    if ls != [] { HandledCount(ls[1..], node, m, groups, choose, g); }
  }

  lemma {:induction false} NoLocalLists(ls: seq<EventList>, node: NodeId, m: string -> bool, g: string)
    ensures LocalLists(ls, node, m, g) == 0
            <==> forall l <- ls :: !(m(l.pattern) && LocalsOf(l.endpoints, node) != [] && l.group == g)
  {
    if ls != [] {
      NoLocalLists(ls[1..], node, m, g);
      assert ls == [ls[0]] + ls[1..];
      assert forall l :: l in ls <==> l == ls[0] || l in ls[1..];
    }
  }

  /** With one pattern only, a tidy catalog has at most one list to count. */
  lemma {:induction false} OneLocalList(ls: seq<EventList>, node: NodeId, m: string -> bool, g: string, p: string)
    requires Tidy(ls)
    requires forall l <- ls :: m(l.pattern) && LocalsOf(l.endpoints, node) != [] && l.group == g ==> l.pattern == p
    requires exists l <- ls :: m(l.pattern) && LocalsOf(l.endpoints, node) != [] && l.group == g
    ensures LocalLists(ls, node, m, g) == 1
  {
    assert ls == [ls[0]] + ls[1..];
    assert forall l :: l in ls <==> l == ls[0] || l in ls[1..];
    if m(ls[0].pattern) && LocalsOf(ls[0].endpoints, node) != [] && ls[0].group == g {
      forall l | l in ls[1..]
        ensures !(m(l.pattern) && LocalsOf(l.endpoints, node) != [] && l.group == g)
      {
        var i :| 0 <= i < |ls[1..]| && ls[1..][i] == l;
        assert ls[i + 1] == l;
      }
      NoLocalLists(ls[1..], node, m, g);
    } else {
      OneLocalList(ls[1..], node, m, g, p);
    }
  }

  // -------------------------------------------------------------------- the packets

  ghost predicate OnePerNode(ps: seq<Packet>) {
    DistinctNodes(ps) && forall p <- ps :: p.groups != []
  }

  ghost predicate DistinctNodes(ps: seq<Packet>) {
    forall i, j | 0 <= i < j < |ps| :: ps[i].node != ps[j].node
  }

  ghost predicate HasNode(ps: seq<Packet>, n: NodeId) {
    exists p <- ps :: p.node == n
  }

  ghost predicate Carries(ps: seq<Packet>, node: NodeId, g: string) {
    exists p <- ps :: p.node == node && g in p.groups
  }

  lemma DistinctTail(ps: seq<Packet>)
    requires ps != [] && DistinctNodes(ps)
    ensures DistinctNodes(ps[1..]) && !HasNode(ps[1..], ps[0].node)
  {
    forall q | q in ps[1..]
      ensures q.node != ps[0].node
    {
      var i :| 0 <= i < |ps[1..]| && ps[1..][i] == q;
      assert ps[i + 1] == q;
    }
  }

  lemma DistinctCons(p: Packet, ps: seq<Packet>)
    requires DistinctNodes(ps) && !HasNode(ps, p.node)
    ensures DistinctNodes([p] + ps)
  {
    assert forall i | 0 <= i < |ps| :: ps[i] in ps;
  }

  lemma {:induction false} AddGroupNodes(ps: seq<Packet>, node: NodeId, g: string, n: NodeId)
    requires HasNode(AddGroup(ps, node, g), n)
    ensures n == node || HasNode(ps, n)
  {
    if ps != [] && ps[0].node != node {
      assert ps == [ps[0]] + ps[1..];
      assert forall q :: q in ps <==> q == ps[0] || q in ps[1..];
      if HasNode(AddGroup(ps[1..], node, g), n) { AddGroupNodes(ps[1..], node, g, n); }
    } else if ps != [] {
      assert forall q | q in ps[1..] :: q in ps;
    }
  }

  lemma {:induction false} AddGroupKeepsDistinct(ps: seq<Packet>, node: NodeId, g: string)
    requires DistinctNodes(ps)
    ensures DistinctNodes(AddGroup(ps, node, g))
  {
    if ps != [] {
      DistinctTail(ps);
      if ps[0].node == node {
        DistinctCons(Packet(node, ps[0].groups + [g]), ps[1..]);
      } else {
        AddGroupKeepsDistinct(ps[1..], node, g);
        var rest := AddGroup(ps[1..], node, g);
        if HasNode(rest, ps[0].node) { AddGroupNodes(ps[1..], node, g, ps[0].node); }
        DistinctCons(ps[0], rest);
      }
    }
  }

  lemma {:induction false} AddGroupKeepsOnePerNode(ps: seq<Packet>, node: NodeId, g: string)
    requires OnePerNode(ps)
    ensures OnePerNode(AddGroup(ps, node, g))
  {
    AddGroupKeepsDistinct(ps, node, g);
    if ps != [] {
      assert ps[0] in ps && forall q | q in ps[1..] :: q in ps;
      DistinctTail(ps);
      if ps[0].node != node { AddGroupKeepsOnePerNode(ps[1..], node, g); }
    }
  }

  lemma {:induction false} AddGroupCarries(ps: seq<Packet>, node: NodeId, g: string, n: NodeId, h: string)
    ensures Carries(AddGroup(ps, node, g), n, h) <==> Carries(ps, n, h) || (n == node && h == g)
  {
    if ps == [] {
      assert Packet(node, [g]) in AddGroup(ps, node, g);
    } else {
      var rest := ps[1..];
      assert ps == [ps[0]] + rest;
      assert Carries(ps, n, h) <==> (ps[0].node == n && h in ps[0].groups) || Carries(rest, n, h);
      if ps[0].node == node {
        var p := Packet(node, ps[0].groups + [g]);
        assert Carries([p] + rest, n, h)
            <==> (p.node == n && h in p.groups) || Carries(rest, n, h) by { CarriesCons(p, rest, n, h); }
      } else {
        AddGroupCarries(rest, node, g, n, h);
        CarriesCons(ps[0], AddGroup(rest, node, g), n, h);
      }
    }
  }

  lemma CarriesCons(p: Packet, ps: seq<Packet>, n: NodeId, h: string)
    ensures Carries([p] + ps, n, h) <==> (p.node == n && h in p.groups) || Carries(ps, n, h)
  {
    assert forall q :: q in [p] + ps <==> q == p || q in ps;
  }

  ghost predicate Remote(cs: seq<Call>, self: NodeId, n: NodeId, h: string) {
    exists c <- cs :: c.ep.node == n && n != self && c.group == h
  }

  lemma RemoteCons(cs: seq<Call>, self: NodeId, n: NodeId, h: string)
    requires cs != []
    ensures Remote(cs, self, n, h)
          <==> (cs[0].ep.node == n && n != self && cs[0].group == h) || Remote(cs[1..], self, n, h)
  {
    assert cs == [cs[0]] + cs[1..];
    assert forall c :: c in cs <==> c == cs[0] || c in cs[1..];
  }

  /** Every node gets at most one packet, and it carries exactly the groups chosen on that node. */
  lemma {:induction false} GroupedIsExact(ps: seq<Packet>, cs: seq<Call>, self: NodeId, n: NodeId, h: string)
    requires OnePerNode(ps)
    ensures OnePerNode(Grouped(ps, cs, self))
    ensures Carries(Grouped(ps, cs, self), n, h) <==> Carries(ps, n, h) || Remote(cs, self, n, h)
    decreases |cs|
  {
    if cs != [] {
      var node, g := cs[0].ep.node, cs[0].group;
      RemoteCons(cs, self, n, h);
      if node == self {
        GroupedIsExact(ps, cs[1..], self, n, h);
      } else {
        AddGroupKeepsOnePerNode(ps, node, g);
        AddGroupCarries(ps, node, g, n, h);
        GroupedIsExact(AddGroup(ps, node, g), cs[1..], self, n, h);
      }
    }
  }

  /** The groups of the calls on a node, in order. */
  function GroupsOn(cs: seq<Call>, n: NodeId): seq<string> {
    if cs == [] then [] else (if cs[0].ep.node == n then [cs[0].group] else []) + GroupsOn(cs[1..], n)
  }

  /** The groups that packets carry to a node, in order. */
  function CarriedTo(ps: seq<Packet>, n: NodeId): seq<string> {
    if ps == [] then [] else (if ps[0].node == n then ps[0].groups else []) + CarriedTo(ps[1..], n)
  }

  lemma {:induction false} NoneCarried(ps: seq<Packet>, n: NodeId)
    requires forall p <- ps :: p.node != n
    ensures CarriedTo(ps, n) == []
  {
    if ps != [] {
      assert ps[0] in ps && forall p | p in ps[1..] :: p in ps;
      NoneCarried(ps[1..], n);
    }
  }

  lemma CarriedCons(p: Packet, ps: seq<Packet>, n: NodeId)
    ensures CarriedTo([p] + ps, n) == (if p.node == n then p.groups else []) + CarriedTo(ps, n)
  {
    assert ([p] + ps)[1..] == ps;
  }

  lemma TailDistinct(ps: seq<Packet>)
    requires DistinctNodes(ps) && ps != []
    ensures DistinctNodes(ps[1..]) && forall p <- ps[1..] :: p.node != ps[0].node
  {
    forall p | p in ps[1..]
      ensures p.node != ps[0].node
    {
      var i :| 0 <= i < |ps[1..]| && ps[1..][i] == p;
      assert ps[i + 1] == p;
    }
  }

  lemma {:induction false} AddGroupCarried(ps: seq<Packet>, node: NodeId, g: string, n: NodeId)
    requires DistinctNodes(ps)
    ensures CarriedTo(AddGroup(ps, node, g), n) == CarriedTo(ps, n) + if n == node then [g] else []
  {
    if ps == [] {
      CarriedCons(Packet(node, [g]), [], n);
    } else {
      var p, rest, more := ps[0], ps[1..], if n == node then [g] else [];
      assert ps == [p] + rest;
      TailDistinct(ps);
      CarriedCons(p, rest, n);
      if p.node == node {
        CarriedCons(Packet(node, p.groups + [g]), rest, n);
        if n == node { NoneCarried(rest, n); }
      } else {
        AddGroupCarried(rest, node, g, n);
        CarriedCons(p, AddGroup(rest, node, g), n);
        Assoc(if p.node == n then p.groups else [], CarriedTo(rest, n), more);
      }
    }
  }

  /** The packet of a node carries the groups chosen on it in the order in which they were chosen. */
  lemma {:induction false} GroupsInOrder(ps: seq<Packet>, cs: seq<Call>, self: NodeId, n: NodeId)
    requires OnePerNode(ps) && n != self
    ensures CarriedTo(Grouped(ps, cs, self), n) == CarriedTo(ps, n) + GroupsOn(cs, n)
    decreases |cs|
  {
    if cs == [] {
      assert CarriedTo(ps, n) + [] == CarriedTo(ps, n);
    } else {
      var node, g := cs[0].ep.node, cs[0].group;
      var qs := if node == self then ps else AddGroup(ps, node, g);
      if node != self {
        AddGroupKeepsOnePerNode(ps, node, g);
        AddGroupCarried(ps, node, g, n);
      }
      GroupsInOrder(qs, cs[1..], self, n);
      Assoc(CarriedTo(ps, n), if node == n then [g] else [], GroupsOn(cs[1..], n));
    }
  }

  lemma {:induction false} DeliveredNone(ps: seq<Packet>, c: Cluster, m: string -> bool, choose: Strategy, g: string)
    requires forall p <- ps :: p.groups != [] && g !in p.groups
    ensures InGroup(Delivered(ps, c, m, choose), g) == 0
  {
    if ps != [] {
      var p := ps[0];
      assert p in ps && forall q | q in ps[1..] :: q in ps;
      HandledCount(At(c, p.node), p.node, m, p.groups, choose, g);
      DeliveredNone(ps[1..], c, m, choose, g);
      InGroupAppend(Handled(At(c, p.node), p.node, m, p.groups, choose), Delivered(ps[1..], c, m, choose), g);
    }
  }

  /** When only one node is sent a group, the group runs once for each list of that node. */
  lemma {:induction false} DeliveredOne(
      ps: seq<Packet>, c: Cluster, m: string -> bool, choose: Strategy, g: string, n: NodeId)
    requires OnePerNode(ps) && Carries(ps, n, g)
    requires forall p <- ps :: g in p.groups ==> p.node == n
    ensures InGroup(Delivered(ps, c, m, choose), g) == LocalLists(At(c, n), n, m, g)
  {
    var p, rest := ps[0], ps[1..];
    CarriesCons(p, rest, n, g);
    DeliveredSplit(ps, c, m, choose, g);
    if g in p.groups {
      OnlyFirstCarries(ps, n, g);
      DeliveredNone(rest, c, m, choose, g);
    } else {
      TailOnePerNode(ps);
      DeliveredOne(rest, c, m, choose, g, n);
    }
  }

  /** What the first packet makes its node call, and what the others make theirs. */
  lemma DeliveredSplit(ps: seq<Packet>, c: Cluster, m: string -> bool, choose: Strategy, g: string)
    requires ps != [] && ps[0].groups != []
    ensures InGroup(Delivered(ps, c, m, choose), g)
            == (if g in ps[0].groups then LocalLists(At(c, ps[0].node), ps[0].node, m, g) else 0)
               + InGroup(Delivered(ps[1..], c, m, choose), g)
  {
    var p := ps[0];
    HandledCount(At(c, p.node), p.node, m, p.groups, choose, g);
    InGroupAppend(Handled(At(c, p.node), p.node, m, p.groups, choose), Delivered(ps[1..], c, m, choose), g);
  }

  lemma TailOnePerNode(ps: seq<Packet>)
    requires OnePerNode(ps) && ps != []
    ensures OnePerNode(ps[1..]) && forall q | q in ps[1..] :: q in ps
  {
  }

  lemma OnlyFirstCarries(ps: seq<Packet>, n: NodeId, g: string)
    requires OnePerNode(ps) && ps != [] && g in ps[0].groups
    requires forall p <- ps :: g in p.groups ==> p.node == n
    ensures forall q | q in ps[1..] :: q.groups != [] && g !in q.groups
  {
    var rest := ps[1..];
    forall q | q in rest
      ensures q.groups != [] && g !in q.groups
    {
      var i :| 0 <= i < |rest| && rest[i] == q;
      assert ps[i + 1] == q;
    }
  }

  /** A packet that carries a group makes its node call every handler list of the group. */
  lemma {:induction false} DeliveredHas(
      ps: seq<Packet>, c: Cluster, m: string -> bool, choose: Strategy, p: Packet, r: Call)
    requires p in ps && r in Handled(At(c, p.node), p.node, m, p.groups, choose)
    ensures r in Delivered(ps, c, m, choose)
  {
    if p != ps[0] { DeliveredHas(ps[1..], c, m, choose, p, r); }
  }

  // ------------------------------------------------------------- emit: the theorems

  lemma {:induction false} OnlyOneInGroup(cs: seq<Call>, g: string, c: Call, d: Call)
    requires InGroup(cs, g) <= 1 && c in cs && d in cs && c.group == g && d.group == g
    ensures c == d
  {
    if c == cs[0] || d == cs[0] {
      NoneInGroup(cs[1..], g);
    } else {
      OnlyOneInGroup(cs[1..], g, c, d);
    }
  }

  lemma {:induction false} NoneInGroup(cs: seq<Call>, g: string)
    ensures InGroup(cs, g) == 0 <==> forall c <- cs :: c.group != g
  {
    if cs != [] {
      assert cs == [cs[0]] + cs[1..];
      assert forall c :: c in cs <==> c == cs[0] || c in cs[1..];
      NoneInGroup(cs[1..], g);
    }
  }

  lemma {:induction false} OwnCount(cs: seq<Call>, self: NodeId, g: string)
    ensures forall c :: c in Own(cs, self) <==> c in cs && c.ep.node == self
    ensures (forall c <- cs :: c.group == g ==> c.ep.node == self) ==> InGroup(Own(cs, self), g) == InGroup(cs, g)
  {
    if cs != [] {
      assert cs == [cs[0]] + cs[1..];
      assert forall c :: c in cs <==> c == cs[0] || c in cs[1..];
      OwnCount(cs[1..], self, g);
    }
  }

  /** Every chosen pattern of a group is handled somewhere in the cluster. */
  lemma ChosenIsHandled(c: Cluster, self: NodeId, m: string -> bool, groups: seq<string>, choose: Strategy, d: Call)
    requires Agree(c, self) && Picks(choose, c, self)
    requires d in Chosen(At(c, self), self, m, groups, choose)
    ensures exists r <- Emit(c, self, m, groups, choose) :: r.pattern == d.pattern && r.group == d.group
  {
    var cs := Chosen(At(c, self), self, m, groups, choose);
    var n := d.ep.node;
    if n == self {
      OwnCount(cs, self, d.group);
      assert d in Own(cs, self);
      assert d in Emit(c, self, m, groups, choose);
    } else {
      var ps := Grouped([], cs, self);
      GroupedIsExact([], cs, self, n, d.group);
      var p :| p in ps && p.node == n && d.group in p.groups;
      var l := ListOf(c, self, m, groups, choose, d);
      HandledFrom(At(c, n), n, m, p.groups, choose, Call(d.pattern, d.group, choose(n, l)));
      var r := Call(d.pattern, d.group, choose(n, l));
      DeliveredHas(ps, c, m, choose, p, r);
      assert r in Emit(c, self, m, groups, choose);
    }
  }

  /** The list of the chosen endpoint in the catalog of its own node. */
  lemma ListOf(
      c: Cluster, self: NodeId, m: string -> bool, groups: seq<string>, choose: Strategy,
      d: Call) returns (l: EventList)
    requires Agree(c, self) && Picks(choose, c, self)
    requires d in Chosen(At(c, self), self, m, groups, choose)
    ensures l in At(c, d.ep.node) && l.pattern == d.pattern && l.group == d.group && m(l.pattern)
    ensures LocalsOf(l.endpoints, d.ep.node) != []
  {
    ChosenFrom(At(c, self), self, m, groups, choose, d);
    var l0 :| l0 in At(c, self) && Applies(l0, m, groups) && l0.endpoints != [] &&
        d == Call(l0.pattern, l0.group, choose(self, l0));
    assert Listed(At(c, self), d.pattern, d.group, d.ep);
    assert Listed(At(c, d.ep.node), d.pattern, d.group, d.ep);
    l :| l in At(c, d.ep.node) && l.pattern == d.pattern && l.group == d.group && d.ep in l.endpoints;
    assert d.ep in LocalsOf(l.endpoints, d.ep.node);
  }

  /** A local list of any node is, by agreement, a list that the sender chose from. */
  lemma LocalListIsChosen(
      c: Cluster, self: NodeId, m: string -> bool, groups: seq<string>, choose: Strategy, n: NodeId, l: EventList)
    requires Agree(c, self) && l in At(c, n) && m(l.pattern) && LocalsOf(l.endpoints, n) != []
    requires groups == [] || l.group in groups
    ensures exists d <- Chosen(At(c, self), self, m, groups, choose) :: d.pattern == l.pattern && d.group == l.group
  {
    var e := LocalsOf(l.endpoints, n)[0];
    assert e in LocalsOf(l.endpoints, n);
    assert Listed(At(c, e.node), l.pattern, l.group, e);
    assert Listed(At(c, self), l.pattern, l.group, e);
    var l0 :| l0 in At(c, self) && l0.pattern == l.pattern && l0.group == l.group && e in l0.endpoints;
    ChosenFrom(At(c, self), self, m, groups, choose, Call(l0.pattern, l0.group, choose(self, l0)));
    assert Applies(l0, m, groups);
  }

  lemma EmitNone(c: Cluster, self: NodeId, m: string -> bool, groups: seq<string>, choose: Strategy, g: string)
    requires InGroup(Chosen(At(c, self), self, m, groups, choose), g) == 0
    ensures InGroup(Emit(c, self, m, groups, choose), g) == 0
  {
    var cs := Chosen(At(c, self), self, m, groups, choose);
    var ps := Grouped([], cs, self);
    NoneInGroup(cs, g);
    OwnCount(cs, self, g);
    forall p | p in ps
      ensures p.groups != [] && g !in p.groups
    {
      GroupedIsExact([], cs, self, p.node, g);
      assert !Carries(ps, p.node, g);
    }
    DeliveredNone(ps, c, m, choose, g);
    InGroupAppend(Own(cs, self), Delivered(ps, c, m, choose), g);
  }

  lemma EmitOwn(c: Cluster, self: NodeId, m: string -> bool, groups: seq<string>, choose: Strategy, g: string)
    requires var cs := Chosen(At(c, self), self, m, groups, choose);
             InGroup(cs, g) == 1 && forall d <- cs :: d.group == g ==> d.ep.node == self
    ensures InGroup(Emit(c, self, m, groups, choose), g) == 1
  {
    var cs := Chosen(At(c, self), self, m, groups, choose);
    var ps := Grouped([], cs, self);
    OwnCount(cs, self, g);
    forall p | p in ps
      ensures p.groups != [] && g !in p.groups
    {
      GroupedIsExact([], cs, self, p.node, g);
      assert !Carries(ps, p.node, g);
    }
    DeliveredNone(ps, c, m, choose, g);
    InGroupAppend(Own(cs, self), Delivered(ps, c, m, choose), g);
  }

  /** The node that one remote endpoint was chosen on has one list of the group. */
  lemma OneListThere(c: Cluster, self: NodeId, m: string -> bool, groups: seq<string>, choose: Strategy, d: Call)
    requires Agree(c, self) && Picks(choose, c, self)
    requires var cs := Chosen(At(c, self), self, m, groups, choose); d in cs && InGroup(cs, d.group) == 1
    ensures LocalLists(At(c, d.ep.node), d.ep.node, m, d.group) == 1
  {
    var n, cs := d.ep.node, Chosen(At(c, self), self, m, groups, choose);
    var l0 := ListOf(c, self, m, groups, choose, d);
    ChosenFrom(At(c, self), self, m, groups, choose, d);
    forall l | l in At(c, n) && m(l.pattern) && LocalsOf(l.endpoints, n) != [] && l.group == d.group
      ensures l.pattern == d.pattern
    {
      LocalListIsChosen(c, self, m, groups, choose, n, l);
      var e :| e in cs && e.pattern == l.pattern && e.group == l.group;
      OnlyOneInGroup(cs, d.group, d, e);
    }
    OneLocalList(At(c, n), n, m, d.group, d.pattern);
  }

  lemma EmitRemote(c: Cluster, self: NodeId, m: string -> bool, groups: seq<string>, choose: Strategy, d: Call)
    requires Agree(c, self) && Picks(choose, c, self) && d.ep.node != self
    requires var cs := Chosen(At(c, self), self, m, groups, choose); d in cs && InGroup(cs, d.group) == 1
    ensures InGroup(Emit(c, self, m, groups, choose), d.group) == 1
  {
    var g, n, cs := d.group, d.ep.node, Chosen(At(c, self), self, m, groups, choose);
    var ps := Grouped([], cs, self);
    GroupedIsExact([], cs, self, n, g);
    forall p | p in ps && g in p.groups
      ensures p.node == n
    {
      GroupedIsExact([], cs, self, p.node, g);
      assert Carries(ps, p.node, g);
      var e :| e in cs && e.ep.node == p.node && p.node != self && e.group == g;
      OnlyOneInGroup(cs, g, d, e);
    }
    OneListThere(c, self, m, groups, choose, d);
    DeliveredOne(ps, c, m, choose, g, n);
    OwnCount(cs, self, g);
    forall e | e in Own(cs, self)
      ensures e.group != g
    {
      if e.group == g { OnlyOneInGroup(cs, g, d, e); }
    }
    NoneInGroup(Own(cs, self), g);
    InGroupAppend(Own(cs, self), Delivered(ps, c, m, choose), g);
  }

  lemma {:induction false} TwoInGroup(cs: seq<Call>, g: string, c: Call, d: Call)
    requires c in cs && d in cs && c != d && c.group == g && d.group == g
    ensures InGroup(cs, g) >= 2
  {
    if InGroup(cs, g) <= 1 { OnlyOneInGroup(cs, g, c, d); }
  }

  /** Two patterns of a group give two chosen calls with different patterns. */
  lemma {:induction false} TwoPatterns(
      ls: seq<EventList>, self: NodeId, m: string -> bool, groups: seq<string>, choose: Strategy, g: string)
    returns (c: Call, d: Call)
    requires Tidy(ls) && Patterns(ls, m, groups, g) >= 2
    ensures c in Chosen(ls, self, m, groups, choose) && d in Chosen(ls, self, m, groups, choose)
    ensures c.group == g && d.group == g && c.pattern != d.pattern
  {
    var rest := ls[1..];
    if Applies(ls[0], m, groups) && ls[0].endpoints != [] && ls[0].group == g {
      c := Call(ls[0].pattern, ls[0].group, choose(self, ls[0]));
      var l;
      d, l := OnePattern(rest, self, m, groups, choose, g);
      var i :| 0 <= i < |rest| && rest[i] == l;
      assert ls[i + 1] == l;
    } else {
      assert forall l | l in rest :: l in ls;
      c, d := TwoPatterns(rest, self, m, groups, choose, g);
    }
  }

  lemma OnePattern(
      ls: seq<EventList>, self: NodeId, m: string -> bool, groups: seq<string>, choose: Strategy, g: string)
    returns (d: Call, l: EventList)
    requires Patterns(ls, m, groups, g) >= 1
    ensures d in Chosen(ls, self, m, groups, choose) && d.group == g
    ensures l in ls && d.pattern == l.pattern && l.group == g
  {
    var cs := Chosen(ls, self, m, groups, choose);
    OneChoiceEach(ls, self, m, groups, choose, g);
    NoneInGroup(cs, g);
    d :| d in cs && d.group == g;
    ChosenFrom(ls, self, m, groups, choose, d);
    l :| l in ls && Applies(l, m, groups) && l.endpoints != [] && d == Call(l.pattern, l.group, choose(self, l));
  }

  /**
   Emit reaches a group exactly once if and only if exactly one pattern of the group has subscribers
   and matches; it reaches the group not at all if and only if no pattern does.
   */
  lemma EmitOncePerGroupIff(
      c: Cluster, self: NodeId, m: string -> bool, groups: seq<string>, choose: Strategy, g: string)
    requires self in c && Agree(c, self) && Picks(choose, c, self)
    ensures var n, k := InGroup(Emit(c, self, m, groups, choose), g), Patterns(c[self], m, groups, g);
            (n == 0 <==> k == 0) && (n == 1 <==> k == 1)
  {
    var cs, k := Chosen(c[self], self, m, groups, choose), Patterns(c[self], m, groups, g);
    OneChoiceEach(c[self], self, m, groups, choose, g);
    if k == 0 {
      EmitNone(c, self, m, groups, choose, g);
    } else if k == 1 {
      NoneInGroup(cs, g);
      var d :| d in cs && d.group == g;
      if d.ep.node == self {
        forall e | e in cs && e.group == g
          ensures e.ep.node == self
        {
          OnlyOneInGroup(cs, g, d, e);
        }
        EmitOwn(c, self, m, groups, choose, g);
      } else {
        EmitRemote(c, self, m, groups, choose, d);
      }
    } else {
      var d, e := TwoPatterns(c[self], self, m, groups, choose, g);
      ChosenIsHandled(c, self, m, groups, choose, d);
      ChosenIsHandled(c, self, m, groups, choose, e);
      var all := Emit(c, self, m, groups, choose);
      var x :| x in all && x.pattern == d.pattern && x.group == d.group;
      var y :| y in all && y.pattern == e.pattern && y.group == e.group;
      TwoInGroup(all, g, x, y);
    }
  }

  // --------------------------------------------------------------- broadcast: proofs

  lemma NoRepeatsAppend<T>(a: seq<T>, b: seq<T>)
    requires NoRepeats(a) && NoRepeats(b) && forall x | x in a :: x !in b
    ensures NoRepeats(a + b)
  {
    forall i, j | 0 <= i < j < |a + b|
      ensures (a + b)[i] != (a + b)[j]
    {
      if i < |a| <= j { assert a[i] in a && b[j - |a|] in b; }
    }
  }

  lemma {:induction false} LocalsNoRepeats(es: seq<Sub>, node: NodeId)
    requires NoRepeats(es)
    ensures NoRepeats(LocalsOf(es, node))
  {
    if es != [] {
      LocalsNoRepeats(es[1..], node);
      assert es[0] !in es[1..];
      if es[0].node == node { NoRepeatsAppend([es[0]], LocalsOf(es[1..], node)); }
    }
  }

  lemma {:induction false} CallsExact(l: EventList, es: seq<Sub>)
    requires NoRepeats(es)
    ensures forall c :: c in Calls(l, es) <==> c.pattern == l.pattern && c.group == l.group && c.ep in es
    ensures NoRepeats(Calls(l, es))
  {
    if es != [] {
      CallsExact(l, es[1..]);
      assert es[0] !in es[1..];
      NoRepeatsAppend([Call(l.pattern, l.group, es[0])], Calls(l, es[1..]));
    }
  }

  ghost predicate Wanted(c: Call, m: string -> bool, groups: seq<string>) {
    m(c.pattern) && (groups == [] || c.group in groups)
  }

  lemma ListedCons(ls: seq<EventList>, p: string, g: string, e: Sub)
    requires ls != []
    ensures Listed(ls, p, g, e) <==>
              || (ls[0].pattern == p && ls[0].group == g && e in ls[0].endpoints)
              || Listed(ls[1..], p, g, e)
  {
    assert ls == [ls[0]] + ls[1..];
    assert forall l :: l in ls <==> l == ls[0] || l in ls[1..];
  }

  lemma TidyTail(ls: seq<EventList>)
    requires ls != [] && Tidy(ls)
    ensures Tidy(ls[1..]) && NoRepeats(ls[0].endpoints)
    ensures forall e :: !Listed(ls[1..], ls[0].pattern, ls[0].group, e)
  {
    assert ls[0] in ls && forall l | l in ls[1..] :: l in ls;
    forall l | l in ls[1..]
      ensures !(l.pattern == ls[0].pattern && l.group == ls[0].group)
    {
      var i :| 0 <= i < |ls[1..]| && ls[1..][i] == l;
      assert ls[i + 1] == l;
    }
  }

  /** A node calls each of its own wanted handlers once and nothing else. */
  lemma {:induction false} HandledAllExact(ls: seq<EventList>, node: NodeId, m: string -> bool, groups: seq<string>)
    requires Tidy(ls)
    ensures NoRepeats(HandledAll(ls, node, m, groups))
    ensures forall c :: c in HandledAll(ls, node, m, groups)
                        <==> Wanted(c, m, groups) && c.ep.node == node && Listed(ls, c.pattern, c.group, c.ep)
  {
    if ls != [] {
      var l, rest := ls[0], HandledAll(ls[1..], node, m, groups);
      TidyTail(ls);
      HandledAllExact(ls[1..], node, m, groups);
      var own := LocalsOf(l.endpoints, node);
      LocalsNoRepeats(l.endpoints, node);
      CallsExact(l, own);
      if Applies(l, m, groups) { NoRepeatsAppend(Calls(l, own), rest); }
      forall c: Call { ListedCons(ls, c.pattern, c.group, c.ep); }
    }
  }

  /** The remote part of a broadcast: each node calls its own handlers, once, since it gets one packet. */
  lemma {:induction false} SpreadExact(
      ns: seq<NodeId>, self: NodeId, c: Cluster, m: string -> bool, groups: seq<string>)
    requires NoRepeats(ns) && forall n | n in c :: Tidy(c[n])
    ensures NoRepeats(Spread(ns, self, c, m, groups))
    ensures forall d :: d in Spread(ns, self, c, m, groups) <==>
                          && Wanted(d, m, groups) && d.ep.node != self && d.ep.node in ns
                          && Listed(At(c, d.ep.node), d.pattern, d.group, d.ep)
  {
    if ns != [] {
      var n := ns[0];
      assert n !in ns[1..];
      SpreadExact(ns[1..], self, c, m, groups);
      if n != self {
        HandledAllExact(At(c, n), n, m, groups);
        NoRepeatsAppend(HandledAll(At(c, n), n, m, groups), Spread(ns[1..], self, c, m, groups));
      }
    }
  }

  lemma {:induction false} EndpointsFrom(ls: seq<EventList>, m: string -> bool, groups: seq<string>, e: Sub)
    ensures e in Endpoints(ls, m, groups) <==> exists l <- ls :: Applies(l, m, groups) && e in l.endpoints
  {
    if ls != [] {
      EndpointsFrom(ls[1..], m, groups, e);
      assert ls == [ls[0]] + ls[1..];
      assert forall l :: l in ls <==> l == ls[0] || l in ls[1..];
    }
  }

  /**
   Broadcast calls the handler of every matching endpoint of the wanted groups in the cluster
   exactly once, and nothing else, also when several patterns of a service match.
   */
  lemma BroadcastReachesEachOnce(c: Cluster, self: NodeId, m: string -> bool, groups: seq<string>)
    requires self in c && Agree(c, self)
    ensures NoRepeats(Broadcast(c, self, m, groups))
    ensures forall d :: d in Broadcast(c, self, m, groups) <==>
                          Wanted(d, m, groups) && Listed(c[self], d.pattern, d.group, d.ep)
  {
    var ns := Nodes([], Endpoints(c[self], m, groups));
    SpreadExact(ns, self, c, m, groups);
    HandledAllExact(c[self], self, m, groups);
    NoRepeatsAppend(Spread(ns, self, c, m, groups), HandledAll(c[self], self, m, groups));
    forall d: Call | Wanted(d, m, groups) && Listed(c[self], d.pattern, d.group, d.ep)
      ensures d.ep.node in ns
    {
      EndpointsFrom(c[self], m, groups, d.ep);
      var l :| l in c[self] && l.pattern == d.pattern && l.group == d.group && d.ep in l.endpoints;
      assert Applies(l, m, groups);
    }
  }

  // ------------------------------------------------------------------ as the code runs

  /** The event catalog of a node. */
  class EventCatalog {
    const node: NodeId
    var events: seq<EventList>

    constructor (node: NodeId)
      ensures this.node == node && events == []
    {
      this.node := node;
      events := [];
    }

    method BalancedEndpoints(m: string -> bool, groups: seq<string>, choose: Strategy) returns (res: seq<Call>)
      ensures res == Chosen(events, node, m, groups, choose)
    {
      res := [];
      var i := 0;
      while i < |events|
        invariant i <= |events|
        invariant res + Chosen(events[i..], node, m, groups, choose) == Chosen(events, node, m, groups, choose)
      {
        var l := events[i];
        assert events[i..][1..] == events[i + 1..];
        if Applies(l, m, groups) && l.endpoints != [] {
          res := res + [Call(l.pattern, l.group, choose(node, l))];
        }
        i := i + 1;
      }
    }

    /** The nodes of all endpoints, each once. */
    method AllEndpoints(m: string -> bool, groups: seq<string>) returns (nodes: seq<NodeId>)
      ensures nodes == Nodes([], Endpoints(events, m, groups))
    {
      var res: seq<Sub>, i := [], 0;
      while i < |events|
        invariant i <= |events|
        invariant res + Endpoints(events[i..], m, groups) == Endpoints(events, m, groups)
      {
        assert events[i..][1..] == events[i + 1..];
        if Applies(events[i], m, groups) { res := res + events[i].endpoints; }
        i := i + 1;
      }
      assert events[i..] == [] && res == Endpoints(events, m, groups);
      nodes := UniqueNodes(res);
    }

    method UniqueNodes(es: seq<Sub>) returns (nodes: seq<NodeId>)
      ensures nodes == Nodes([], es)
    {
      nodes := [];
      var i := 0;
      while i < |es|
        invariant i <= |es| && NoRepeats(nodes)
        invariant Nodes(nodes, es[i..]) == Nodes([], es)
      {
        assert es[i..][1..] == es[i + 1..];
        if es[i].node !in nodes { nodes := nodes + [es[i].node]; }
        i := i + 1;
      }
    }

    /** Handling a received event. */
    method EmitLocalServices(
        m: string -> bool, groups: seq<string>, broadcast: bool, choose: Strategy) returns (calls: seq<Call>)
      ensures calls == if broadcast then HandledAll(events, node, m, groups)
            else Handled(events, node, m, groups, choose)
    {
      calls := [];
      var i := 0;
      while i < |events|
        invariant i <= |events|
        invariant broadcast ==> calls + HandledAll(events[i..], node, m, groups) == HandledAll(events, node, m, groups)
        invariant !broadcast ==>
                    calls + Handled(events[i..], node, m, groups, choose) == Handled(events, node, m, groups, choose)
      {
        var l := events[i];
        assert events[i..][1..] == events[i + 1..];
        if Applies(l, m, groups) {
          var own := LocalsOf(l.endpoints, node);
          if broadcast {
            calls := calls + Calls(l, own);
          } else if own != [] {
            calls := calls + [Call(l.pattern, l.group, choose(node, l))];
          }
        }
        i := i + 1;
      }
    }

    /** Own handlers are called, remote ones grouped into one packet for each node. */
    method Route(cs: seq<Call>) returns (calls: seq<Call>, packets: seq<Packet>)
      ensures calls == Own(cs, node)
      ensures packets == Grouped([], cs, node)
    {
      calls, packets := [], [];
      var i := 0;
      while i < |cs|
        invariant i <= |cs|
        invariant calls + Own(cs[i..], node) == Own(cs, node)
        invariant Grouped(packets, cs[i..], node) == Grouped([], cs, node)
      {
        ghost var rest := cs[i + 1..];
        assert cs[i..][1..] == rest;
        if cs[i].ep.node == node {
          assert calls + ([cs[i]] + Own(rest, node)) == calls + [cs[i]] + Own(rest, node);
          calls := calls + [cs[i]];
        } else {
          packets := AddGroup(packets, cs[i].ep.node, cs[i].group);
        }
        i := i + 1;
      }
    }

    /** The emitting side. */
    method Emit(
        m: string -> bool, groups: seq<string>, choose: Strategy) returns (calls: seq<Call>, packets: seq<Packet>)
      ensures calls == Own(Chosen(events, node, m, groups, choose), node)
      ensures packets == Grouped([], Chosen(events, node, m, groups, choose), node)
    {
      var cs := BalancedEndpoints(m, groups, choose);
      calls, packets := Route(cs);
    }
  }
}
