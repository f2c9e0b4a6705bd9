/**
 The bookkeeping of a node's transit: requests waiting for a response, request streams
 coming in, response streams coming in, and what happens to all three when packets arrive in
 any order, a request is given up, or a remote node is lost.
 */
module Transit {
  import opened Prelude
  import opened StreamProtocol

  type Id = string
  type NodeId = string

  /** How the promise of a sent request was settled first. */
  datatype Outcome = Resolved | ResolvedWithStream | Rejected

  datatype ReqStream = ReqStream(sender: NodeId, inbox: Inbox)

  /** A packet waiting in a setImmediate callback. */
  datatype Mail = Mail(sender: NodeId, packet: Packet)

  /**
   `pending`, `reqStreams` and `resStreams` are the three maps of the source. The callbacks
   scheduled with setImmediate are kept per id; effects are what was done to the stream of an id.
   */
  datatype State = State(
    limit: nat,  // maxQueueSize, 0 for no limit
    pending: map<Id, NodeId>,
    reqStreams: map<Id, ReqStream>,
    resStreams: map<Id, Inbox>,
    reqDeferred: map<Id, seq<Mail>>,
    resDeferred: map<Id, seq<Packet>>,
    reqOut: map<Id, seq<Effect>>,
    resOut: map<Id, seq<Effect>>,
    destroyed: set<Id>,
    settled: map<Id, Outcome>)

  function Settle(settled: map<Id, Outcome>, id: Id, o: Outcome): map<Id, Outcome> {
    if id in settled then settled else settled[id := o]
  }

  // ------------------------------------------------------------------ steps, on values

  function SendRequest(s: State, id: Id, node: NodeId): State {
    if s.limit > 0 && |s.pending| >= s.limit then s
    else s.(pending := s.pending[id := node])
  }

  function RemovePending(s: State, id: Id): State {
    s.(pending := s.pending - {id}, reqStreams := s.reqStreams - {id}, resStreams := s.resStreams - {id})
  }

  function OnRequest(s: State, id: Id, sender: NodeId, p: Packet): State {
    if Unmarked(p) || (id !in s.reqStreams && StartsNothing(p)) then s
    else
      var rs := if id in s.reqStreams then s.reqStreams[id] else ReqStream(sender, NewInbox);
      RequestTaken(s, id, sender, rs.sender, Take(rs.inbox, p))
  }

  /** `sender` sent this packet, `opener` the one that opened the stream. */
  function RequestTaken(s: State, id: Id, sender: NodeId, opener: NodeId, t: Taken): State {
    State(s.limit,
          s.pending,
          if t.inbox.Some? then s.reqStreams[id := ReqStream(opener, t.inbox.value)] else s.reqStreams - {id},
          s.resStreams,
          Appended(s.reqDeferred, id, if t.again.Some? then Some(Mail(sender, t.again.value)) else None),
          s.resDeferred,
          s.reqOut[id := At(s.reqOut, id) + t.effects],
          s.resOut,
          s.destroyed,
          s.settled)
  }

  function OnResponse(s: State, id: Id, p: Packet): State {
    if id !in s.pending then s
    else if Unmarked(p) || (id !in s.resStreams && StartsNothing(p)) then
      RemovePending(s, id).(settled := Settle(s.settled, id, if p.failed then Rejected else Resolved))
    else ResponseTaken(s, id, Take(if id in s.resStreams then s.resStreams[id] else NewInbox, p))
  }

  function ResponseTaken(s: State, id: Id, t: Taken): State {
    State(s.limit,
          Kept(s.pending, id, t.inbox.Some?),
          Kept(s.reqStreams, id, t.inbox.Some?),
          if t.inbox.Some? then s.resStreams[id := t.inbox.value] else s.resStreams - {id},
          s.reqDeferred,
          Appended(s.resDeferred, id, t.again),
          s.reqOut,
          s.resOut[id := At(s.resOut, id) + t.effects],
          s.destroyed,
          if t.effects == [Open] then Settle(s.settled, id, ResolvedWithStream) else s.settled)
  }

  function Kept<V>(m: map<Id, V>, id: Id, keep: bool): map<Id, V> {
    if keep then m else m - {id}
  }

  function Appended<V>(m: map<Id, seq<V>>, id: Id, x: Option<V>): map<Id, seq<V>> {
    if x.Some? then m[id := At(m, id) + [x.value]] else m
  }

  function RunRequestImmediate(s: State, id: Id): State {
    var q := At(s.reqDeferred, id);
    if q == [] then s
    else OnRequest(s.(reqDeferred := s.reqDeferred[id := q[1..]]), id, q[0].sender, q[0].packet)
  }

  function RunResponseImmediate(s: State, id: Id): State {
    var q := At(s.resDeferred, id);
    if q == [] then s
    else OnResponse(s.(resDeferred := s.resDeferred[id := q[1..]]), id, q[0])
  }

  function SentTo(s: State, node: NodeId): set<Id> {
    set id | id in s.pending && s.pending[id] == node
  }

  function StreamedBy(s: State, node: NodeId): set<Id> {
    set id | id in s.reqStreams && s.reqStreams[id].sender == node
  }

  function StreamsDropped(s: State, ids: set<Id>): State {
    s.(reqStreams := s.reqStreams - ids, destroyed := s.destroyed + ids)
  }

  function RequestsDropped(s: State, ids: set<Id>): State {
    s.(pending := s.pending - ids,
       reqStreams := s.reqStreams - ids,
       resStreams := s.resStreams - ids,
       destroyed := s.destroyed + ids * (s.reqStreams.Keys + s.resStreams.Keys),
       settled := RejectAll(s.settled, ids))
  }

  /** One pending request is rejected, its streams are deleted and destroyed. */
  function RequestDropped(s: State, id: Id): State {
    s.(pending := s.pending - {id},
       reqStreams := s.reqStreams - {id},
       resStreams := s.resStreams - {id},
       destroyed := s.destroyed + (if id in s.reqStreams || id in s.resStreams then {id} else {}),
       settled := Settle(s.settled, id, Rejected))
  }

  function RejectAll(settled: map<Id, Outcome>, ids: set<Id>): map<Id, Outcome> {
    map id | id in settled.Keys + ids :: if id in settled then settled[id] else Rejected
  }

  /** Everything of a lost node is dropped; the requests sent to it are rejected. */
  function NodeLost(s: State, node: NodeId): State {
    RequestsDropped(StreamsDropped(s, StreamedBy(s, node)), SentTo(s, node))
  }

  datatype Event =
    | Send(id: Id, node: NodeId)
    | GiveUp(id: Id)
    | Request(id: Id, sender: NodeId, p: Packet)
    | Response(id: Id, p: Packet)
    | RequestImmediate(id: Id)
    | ResponseImmediate(id: Id)
    | Lost(node: NodeId)

  function Step(s: State, e: Event): State {
    match e
    case Send(id, node) => SendRequest(s, id, node)
    case GiveUp(id) => RemovePending(s, id)
    case Request(id, sender, p) => OnRequest(s, id, sender, p)
    case Response(id, p) => OnResponse(s, id, p)
    case RequestImmediate(id) => RunRequestImmediate(s, id)
    case ResponseImmediate(id) => RunResponseImmediate(s, id)
    case Lost(node) => NodeLost(s, node)
  }

  function RunAll(s: State, es: seq<Event>): State
    decreases |es|
  {
    if es == [] then s else RunAll(Step(s, es[0]), es[1..])
  }

  // --------------------------------------------------------------------- the class

  class Transit {
    const limit: nat
    var pending: map<Id, NodeId>
    var reqStreams: map<Id, ReqStream>
    var resStreams: map<Id, Inbox>
    var reqDeferred: map<Id, seq<Mail>>
    var resDeferred: map<Id, seq<Packet>>
    var reqOut: map<Id, seq<Effect>>
    var resOut: map<Id, seq<Effect>>
    var destroyed: set<Id>
    var settled: map<Id, Outcome>

    function View(): State
      reads this
    {
      State(limit, pending, reqStreams, resStreams, reqDeferred, resDeferred, reqOut, resOut, destroyed, settled)
    }

    constructor (maxQueueSize: nat)
      ensures View() == State(maxQueueSize, map[], map[], map[], map[], map[], map[], map[], {}, map[])
    {
      limit := maxQueueSize;
      pending, reqStreams, resStreams := map[], map[], map[];
      reqDeferred, resDeferred, reqOut, resOut := map[], map[], map[], map[];
      destroyed, settled := {}, map[];
    }

    method SendARequest(id: Id, node: NodeId) returns (accepted: bool)
      modifies this
      ensures View() == SendRequest(old(View()), id, node)
      ensures accepted <==> limit == 0 || |old(pending)| < limit
    {
      if limit > 0 && |pending| >= limit {
        return false;
      }
      pending := pending[id := node];
      accepted := true;
    }

    method RemovePendingRequest(id: Id)
      modifies this
      ensures View() == RemovePending(old(View()), id)
    {
      pending := pending - {id};
      reqStreams := reqStreams - {id};
      resStreams := resStreams - {id};
    }

    method RequestHandler(id: Id, sender: NodeId, p: Packet)
      modifies this
      ensures View() == OnRequest(old(View()), id, sender, p)
    {
      if Unmarked(p) {
        return;  // the action is called without a stream
      }
      if id !in reqStreams && StartsNothing(p) {
        return;  // not stream data: the action is called without a stream
      }
      var stream := if id in reqStreams then reqStreams[id] else ReqStream(sender, NewInbox);
      if Early(stream.inbox, p) || p.Plain? {
        KeepRequestPacket(id, sender, p, stream);
      } else {
        TakeRequestPacket(id, sender, p, stream);
      }
    }

    /** A packet that is early waits in the pool; one without a number confuses the count. */
    method KeepRequestPacket(id: Id, sender: NodeId, p: Packet, stream: ReqStream)
      requires Early(stream.inbox, p) || p.Plain?
      modifies this
      ensures View() == RequestTaken(old(View()), id, sender, stream.sender, Take(stream.inbox, p))
    {
      var inbox := stream.inbox;
      if Early(inbox, p) {
        reqStreams := reqStreams[id := ReqStream(stream.sender, Inbox(inbox.prevSeq, inbox.pool[p.num := p]))];
      } else {
        reqStreams := reqStreams[id := ReqStream(stream.sender, Inbox(None, inbox.pool))];
      }
      reqOut := reqOut[id := At(reqOut, id) + []];
    }

    /** The next packet in turn: call the action, write or end, and schedule what waits behind it. */
    method TakeRequestPacket(id: Id, sender: NodeId, p: Packet, stream: ReqStream)
      requires p.Part? && !Early(stream.inbox, p)
      modifies this
      ensures View() == RequestTaken(old(View()), id, sender, stream.sender, Take(stream.inbox, p))
    {
      if p.num > 0 && !p.more {
        reqOut := reqOut[id := At(reqOut, id) + if p.failed then [Fail, End] else [End]];
        reqStreams := reqStreams - {id};
        return;
      }
      reqOut := reqOut[id := At(reqOut, id) + if p.num == 0 then [Open] else [Write(p.data)]];
      var pool := stream.inbox.pool;
      if p.num + 1 in pool {
        reqDeferred := reqDeferred[id := At(reqDeferred, id) + [Mail(sender, pool[p.num + 1])]];
        reqStreams := reqStreams[id := ReqStream(stream.sender, Inbox(Some(p.num), pool - {p.num + 1}))];
      } else {
        reqStreams := reqStreams[id := ReqStream(stream.sender, Inbox(Some(p.num), pool))];
      }
    }

    method ResponseHandler(id: Id, p: Packet)
      modifies this
      ensures View() == OnResponse(old(View()), id, p)
    {
      if id !in pending {
        return;  // orphan response
      }
      if !Unmarked(p) && (id in resStreams || !StartsNothing(p)) {
        HandleResponseStream(id, p);
        return;
      }
      RemovePendingRequest(id);
      settled := Settle(settled, id, if p.failed then Rejected else Resolved);
    }

    method HandleResponseStream(id: Id, p: Packet)
      requires id in pending && !Unmarked(p) && (id in resStreams || !StartsNothing(p))
      modifies this
      ensures View() == OnResponse(old(View()), id, p)
    {
      var stream := if id in resStreams then resStreams[id] else NewInbox;
      if Early(stream, p) || p.Plain? {
        KeepPacket(id, p, stream);
      } else {
        TakePacket(id, p, stream);
      }
    }

    /** A packet that is early waits in the pool; one without a number confuses the count. */
    method KeepPacket(id: Id, p: Packet, stream: Inbox)
      requires Early(stream, p) || p.Plain?
      modifies this
      ensures View() == ResponseTaken(old(View()), id, Take(stream, p))
    {
      if Early(stream, p) {
        resStreams := resStreams[id := Inbox(stream.prevSeq, stream.pool[p.num := p])];
      } else {
        resStreams := resStreams[id := Inbox(None, stream.pool)];
      }
      resOut := resOut[id := At(resOut, id) + []];
    }

    /** The next packet in turn: resolve, write or end, and schedule what waits behind it. */
    method TakePacket(id: Id, p: Packet, stream: Inbox)
      requires p.Part? && !Early(stream, p)
      modifies this
      ensures View() == ResponseTaken(old(View()), id, Take(stream, p))
    {
      if p.num == 0 {
        settled := Settle(settled, id, ResolvedWithStream);
      }
      if p.num > 0 && !p.more {
        resOut := resOut[id := At(resOut, id) + if p.failed then [Fail, End] else [End]];
        RemovePendingRequest(id);
        return;
      }
      resOut := resOut[id := At(resOut, id) + if p.num == 0 then [Open] else [Write(p.data)]];
      if p.num + 1 in stream.pool {
        resDeferred := resDeferred[id := At(resDeferred, id) + [stream.pool[p.num + 1]]];
        resStreams := resStreams[id := Inbox(Some(p.num), stream.pool - {p.num + 1})];
      } else {
        resStreams := resStreams[id := Inbox(Some(p.num), stream.pool)];
      }
    }

    method RemovePendingRequestByNodeID(node: NodeId)
      modifies this
      ensures View() == NodeLost(old(View()), node)
    {
      CloseStreamsOf(node);
      RejectRequestsTo(node);
    }

    /** First pass: the incoming request streams of the node. */
    method CloseStreamsOf(node: NodeId)
      modifies this
      ensures View() == StreamsDropped(old(View()), StreamedBy(old(View()), node))
    {
      ghost var before := View();
      ghost var gone: set<Id> := {};
      var todo := reqStreams.Keys;
      while todo != {}
        invariant todo <= before.reqStreams.Keys && gone == StreamedBy(before, node) - todo
        invariant View() == StreamsDropped(before, gone)
        decreases todo
      {
        var id :| id in todo;
        assert id in before.reqStreams && id !in gone;
        if reqStreams[id].sender == node {
          CloseOneMore(before, gone, id);
          CloseOne(id);
          gone := gone + {id};
        }
        todo := todo - {id};
      }
      assert gone == StreamedBy(before, node);
    }

    method CloseOne(id: Id)
      modifies this
      ensures View() == StreamsDropped(old(View()), {id})
    {
      reqStreams := reqStreams - {id};
      destroyed := destroyed + {id};
    }

    method RejectOne(id: Id)
      modifies this
      ensures View() == RequestDropped(old(View()), id)
    {
      pending := pending - {id};
      settled := Settle(settled, id, Rejected);
      if id in reqStreams {
        destroyed := destroyed + {id};
      }
      reqStreams := reqStreams - {id};
      if id in resStreams {
        destroyed := destroyed + {id};
      }
      resStreams := resStreams - {id};
    }

    /** Second pass: the requests sent to the node, with the streams kept under their ids. */
    method RejectRequestsTo(node: NodeId)
      modifies this
      ensures View() == RequestsDropped(old(View()), SentTo(old(View()), node))
    {
      ghost var before := View();
      ghost var gone: set<Id> := {};
      var todo := pending.Keys;
      DropNothing(before);
      while todo != {}
        invariant todo <= before.pending.Keys && gone == SentTo(before, node) - todo
        invariant View() == RequestsDropped(before, gone)
        decreases todo
      {
        var id :| id in todo;
        assert id in before.pending && id !in gone;
        if pending[id] == node {
          DropOneMore(before, gone, id);
          RejectOne(id);
          gone := gone + {id};
        }
        todo := todo - {id};
      }
      assert gone == SentTo(before, node);
    }
  }

  lemma DropNothing(s: State)
    ensures RequestsDropped(s, {}) == s
  {
    assert RejectAll(s.settled, {}) == s.settled;
    assert s.pending - {} == s.pending && s.reqStreams - {} == s.reqStreams && s.resStreams - {} == s.resStreams;
  }

  lemma DropOneMore(s: State, gone: set<Id>, id: Id)
    requires id !in gone
    ensures RequestsDropped(s, gone + {id}) == RequestDropped(RequestsDropped(s, gone), id)
  {
    RejectOneMore(s.settled, gone, id);
    MinusOneMore(s.pending, gone, id);
    MinusOneMore(s.reqStreams, gone, id);
    MinusOneMore(s.resStreams, gone, id);
    MeetOneMore(gone, s.reqStreams.Keys + s.resStreams.Keys, id);
  }

  lemma MinusOneMore<V>(m: map<Id, V>, gone: set<Id>, id: Id)
    ensures m - (gone + {id}) == m - gone - {id}
  {
  }

  lemma MeetOneMore(gone: set<Id>, keys: set<Id>, id: Id)
    ensures (gone + {id}) * keys == gone * keys + (if id in keys then {id} else {})
  {
  }

  lemma CloseOneMore(s: State, gone: set<Id>, id: Id)
    ensures StreamsDropped(s, gone + {id}) == StreamsDropped(StreamsDropped(s, gone), {id})
  {
    MinusOneMore(s.reqStreams, gone, id);
  }

  lemma RejectOneMore(settled: map<Id, Outcome>, gone: set<Id>, id: Id)
    ensures RejectAll(settled, gone + {id}) == Settle(RejectAll(settled, gone), id, Rejected)
  {
    var a, b := RejectAll(settled, gone + {id}), Settle(RejectAll(settled, gone), id, Rejected);
    assert a.Keys == b.Keys;
    assert forall k | k in a :: a[k] == b[k];
  }

  // ------------------------------------------------------- what holds in every run

  /** The queue limit is respected and every response stream belongs to a pending request. */
  ghost predicate Bookkeeping(s: State) {
    && (s.limit > 0 ==> |s.pending| <= s.limit)
    && s.resStreams.Keys <= s.pending.Keys
  }

  lemma FewerKeys<V>(m: map<Id, V>, ids: set<Id>)
    ensures |m - ids| <= |m|
  {
    assert (m - ids).Keys <= m.Keys;
    SubsetSize((m - ids).Keys, m.Keys);
  }

  lemma {:induction false} SubsetSize<T>(a: set<T>, b: set<T>)
    requires a <= b
    ensures |a| <= |b|
  {
    assert b == a + (b - a);
  }

  lemma AddKey<V>(m: map<Id, V>, id: Id, v: V)
    ensures |m[id := v]| <= |m| + 1
  {
    assert m[id := v].Keys == m.Keys + {id};
  }

  lemma RemoveKeepsBooks(s: State, id: Id)
    requires Bookkeeping(s)
    ensures Bookkeeping(RemovePending(s, id))
  {
    FewerKeys(s.pending, {id});
  }

  lemma TakenKeepsBooks(s: State, id: Id, t: Taken)
    requires Bookkeeping(s) && id in s.pending
    ensures Bookkeeping(ResponseTaken(s, id, t))
  {
    FewerKeys(s.pending, {id});
  }

  lemma ResponseKeepsBooks(s: State, id: Id, p: Packet)
    requires Bookkeeping(s)
    ensures Bookkeeping(OnResponse(s, id, p))
  {
    if id in s.pending {
      if Unmarked(p) || (id !in s.resStreams && StartsNothing(p)) {
        RemoveKeepsBooks(s, id);
        SameBooks(RemovePending(s, id), OnResponse(s, id, p));
      } else {
        TakenKeepsBooks(s, id, Take(if id in s.resStreams then s.resStreams[id] else NewInbox, p));
      }
    }
  }

  lemma LossKeepsBooks(s: State, node: NodeId)
    requires Bookkeeping(s)
    ensures Bookkeeping(NodeLost(s, node))
  {
    FewerKeys(s.pending, SentTo(s, node));
  }

  /** A request packet changes only the incoming request stream with its id. */
  lemma RequestFrame(s: State, id: Id, sender: NodeId, p: Packet)
    ensures
      var t := OnRequest(s, id, sender, p);
      && t == s.(reqStreams := t.reqStreams, reqOut := t.reqOut, reqDeferred := t.reqDeferred)
      && forall j | j != id ::
           && Get(t.reqStreams, j) == Get(s.reqStreams, j)
           && At(t.reqOut, j) == At(s.reqOut, j) && At(t.reqDeferred, j) == At(s.reqDeferred, j)
  {
    var rs := if id in s.reqStreams then s.reqStreams[id] else ReqStream(sender, NewInbox);
    RequestTakenFrame(s, id, sender, rs.sender, Take(rs.inbox, p));
  }

  lemma RequestTakenFrame(s: State, id: Id, sender: NodeId, opener: NodeId, taken: Taken)
    ensures
      var t := RequestTaken(s, id, sender, opener, taken);
      && t == s.(reqStreams := t.reqStreams, reqOut := t.reqOut, reqDeferred := t.reqDeferred)
      && forall j | j != id ::
           && Get(t.reqStreams, j) == Get(s.reqStreams, j)
           && At(t.reqOut, j) == At(s.reqOut, j) && At(t.reqDeferred, j) == At(s.reqDeferred, j)
  {
  }

  /** A re-dispatched request packet changes only the request stream with its id. */
  lemma RequestImmediateFrame(s: State, id: Id)
    ensures
      var t := RunRequestImmediate(s, id);
      && t == s.(reqStreams := t.reqStreams, reqOut := t.reqOut, reqDeferred := t.reqDeferred)
      && forall j | j != id ::
           && Get(t.reqStreams, j) == Get(s.reqStreams, j)
           && At(t.reqOut, j) == At(s.reqOut, j) && At(t.reqDeferred, j) == At(s.reqDeferred, j)
  {
    var q := At(s.reqDeferred, id);
    if q != [] { RequestFrame(s.(reqDeferred := s.reqDeferred[id := q[1..]]), id, q[0].sender, q[0].packet); }
  }

  /** Nothing about another id changes, nor anything about request packets. */
  ghost predicate ResponseUntouched(s: State, t: State, j: Id) {
    && t.reqOut == s.reqOut && t.reqDeferred == s.reqDeferred
    && Get(t.pending, j) == Get(s.pending, j)
    && Get(t.reqStreams, j) == Get(s.reqStreams, j)
    && Get(t.resStreams, j) == Get(s.resStreams, j)
    && At(t.resOut, j) == At(s.resOut, j) && At(t.resDeferred, j) == At(s.resDeferred, j)
    && Get(t.settled, j) == Get(s.settled, j)
  }

  /** A response packet changes nothing about another id, and nothing at all without a pending request. */
  lemma ResponseFrame(s: State, id: Id, p: Packet, j: Id)
    ensures id !in s.pending ==> OnResponse(s, id, p) == s
    ensures j != id ==> ResponseUntouched(s, OnResponse(s, id, p), j)
  {
    if id in s.pending && j != id {
      TakenFrame(s, id, Take(if id in s.resStreams then s.resStreams[id] else NewInbox, p), j);
      RemovedFrame(s, id, if p.failed then Rejected else Resolved, j);
    }
  }

  /** The same for a re-dispatched response packet. */
  lemma ResponseImmediateFrame(s: State, id: Id, j: Id)
    ensures var t := RunResponseImmediate(s, id);
            id !in s.pending ==>
              t.pending == s.pending && t.resStreams == s.resStreams && t.settled == s.settled && t.resOut == s.resOut
    ensures j != id ==> ResponseUntouched(s, RunResponseImmediate(s, id), j)
  {
    var q := At(s.resDeferred, id);
    if q != [] { ResponseFrame(s.(resDeferred := s.resDeferred[id := q[1..]]), id, q[0], j); }
  }

  lemma TakenFrame(s: State, id: Id, taken: Taken, j: Id)
    requires j != id
    ensures ResponseUntouched(s, ResponseTaken(s, id, taken), j)
  {
  }

  lemma RemovedFrame(s: State, id: Id, o: Outcome, j: Id)
    requires j != id
    ensures ResponseUntouched(s, RemovePending(s, id).(settled := Settle(s.settled, id, o)), j)
  {
  }

  /** What a taken response packet does to the channel of its id. */
  lemma TakenChannel(s: State, id: Id, taken: Taken)
    requires id in s.pending
    ensures
      var t, c := ResponseTaken(s, id, taken), ResChannel(s, id);
      && ResChannel(t, id) == Channel(taken.inbox, c.deferred + (if taken.again.Some? then [taken.again.value] else []),
                                      c.out + taken.effects)
      && (id in t.pending <==> id in t.resStreams)
      && (id in t.pending ==> t.pending[id] == s.pending[id])
  {
    var t, c := ResponseTaken(s, id, taken), ResChannel(s, id);
    if taken.again.None? { assert c.deferred + [] == c.deferred; }
  }

  /** Books depend on the limit, the pending requests and the response streams only. */
  lemma SameBooks(s: State, t: State)
    requires Bookkeeping(s) && t.limit == s.limit && t.pending == s.pending && t.resStreams == s.resStreams
    ensures Bookkeeping(t)
  {
  }

  lemma SendKeepsBooks(s: State, id: Id, node: NodeId)
    requires Bookkeeping(s)
    ensures Bookkeeping(SendRequest(s, id, node))
  {
    AddKey(s.pending, id, node);
  }

  lemma RequestKeepsBooks(s: State, id: Id, sender: NodeId, p: Packet)
    requires Bookkeeping(s)
    ensures Bookkeeping(OnRequest(s, id, sender, p))
  {
    SameBooks(s, OnRequest(s, id, sender, p));
  }

  lemma RequestImmediateKeepsBooks(s: State, id: Id)
    requires Bookkeeping(s)
    ensures Bookkeeping(RunRequestImmediate(s, id))
  {
    var q := At(s.reqDeferred, id);
    if q != [] {
      var u := s.(reqDeferred := s.reqDeferred[id := q[1..]]);
      SameBooks(s, u);
      RequestKeepsBooks(u, id, q[0].sender, q[0].packet);
    }
  }

  lemma ResponseImmediateKeepsBooks(s: State, id: Id)
    requires Bookkeeping(s)
    ensures Bookkeeping(RunResponseImmediate(s, id))
  {
    var q := At(s.resDeferred, id);
    if q != [] {
      var u := s.(resDeferred := s.resDeferred[id := q[1..]]);
      SameBooks(s, u);
      ResponseKeepsBooks(u, id, q[0]);
    }
  }

  lemma StepKeepsBooks(s: State, e: Event)
    requires Bookkeeping(s)
    ensures Bookkeeping(Step(s, e))
  {
    match e
    case Send(id, node) => SendKeepsBooks(s, id, node);
    case GiveUp(id) => RemoveKeepsBooks(s, id);
    case Request(id, sender, p) => RequestKeepsBooks(s, id, sender, p);
    case Response(id, p) => ResponseKeepsBooks(s, id, p);
    case RequestImmediate(id) => RequestImmediateKeepsBooks(s, id);
    case ResponseImmediate(id) => ResponseImmediateKeepsBooks(s, id);
    case Lost(node) => LossKeepsBooks(s, node);
  }

  lemma {:induction false} BooksAlwaysKept(s: State, es: seq<Event>)
    requires Bookkeeping(s)
    ensures Bookkeeping(RunAll(s, es))
    decreases |es|
  {
    if es != [] {
      StepKeepsBooks(s, es[0]);
      BooksAlwaysKept(Step(s, es[0]), es[1..]);
    }
  }

  // ------------------------------------------------------------------- losing a node

  /** Losing a node touches exactly the requests sent to it and the streams it sends. */
  lemma NodeLossIsExact(s: State, node: NodeId)
    ensures
      var t := NodeLost(s, node);
      && (forall id :: id in t.pending <==> id in s.pending && s.pending[id] != node)
      && (forall id | id in t.pending :: t.pending[id] == s.pending[id])
      && (forall id :: id in t.reqStreams <==>
            && id in s.reqStreams && s.reqStreams[id].sender != node
            && !(id in s.pending && s.pending[id] == node))
      && (forall id | id in t.reqStreams :: t.reqStreams[id] == s.reqStreams[id])
      && (forall id :: id in t.resStreams <==> id in s.resStreams && !(id in s.pending && s.pending[id] == node))
      && (forall id | id in t.resStreams :: t.resStreams[id] == s.resStreams[id])
      && (forall id | id in s.pending && s.pending[id] == node ::
            id in t.settled && t.settled[id] == (if id in s.settled then s.settled[id] else Rejected))
      && (forall id | !(id in s.pending && s.pending[id] == node) :: Get(t.settled, id) == Get(s.settled, id))
    ensures
      forall id :: id in NodeLost(s, node).destroyed <==>
        || id in s.destroyed
        || (id in s.reqStreams && s.reqStreams[id].sender == node)
        || (id in s.pending && s.pending[id] == node && (id in s.reqStreams || id in s.resStreams))
  {
    var t := NodeLost(s, node);
    forall id
      ensures Get(t.settled, id) ==
                if id in s.settled then Some(s.settled[id])
                else if id in s.pending && s.pending[id] == node then Some(Rejected) else None
    {
      assert id in SentTo(s, node) <==> id in s.pending && s.pending[id] == node;
    }
  }

  /** Nothing about a request that is no longer pending changes any more. */
  ghost predicate SameFor(s: State, t: State, id: Id) {
    && id !in t.pending
    && Get(t.settled, id) == Get(s.settled, id)
    && At(t.resOut, id) == At(s.resOut, id)
    && Get(t.resStreams, id) == Get(s.resStreams, id)
  }

  lemma StepLeavesAlone(s: State, e: Event, id: Id)
    requires id !in s.pending && id !in s.resStreams && !(e.Send? && e.id == id)
    ensures SameFor(s, Step(s, e), id)
  {
    match e
    case Send(i, node) =>
    case GiveUp(i) =>
    case Request(i, sender, p) => RequestFrame(s, i, sender, p);
    case Response(i, p) => ResponseFrame(s, i, p, id);
    case RequestImmediate(i) => RequestImmediateFrame(s, i);
    case ResponseImmediate(i) => ResponseImmediateFrame(s, i, id);
    case Lost(node) => LossLeavesAlone(s, node, id);
  }

  lemma LossLeavesAlone(s: State, node: NodeId, id: Id)
    requires id !in s.pending && id !in s.resStreams
    ensures SameFor(s, NodeLost(s, node), id)
  {
    NodeLossIsExact(s, node);
  }

  /**
   Once a request is not pending (its node was lost, it was answered or given up), no later run
   settles it again or touches its response stream, unless the same id is sent again.
   */
  lemma {:induction false} LateResponsesChangeNothing(s: State, es: seq<Event>, id: Id)
    requires id !in s.pending && id !in s.resStreams
    requires forall e <- es :: !(e.Send? && e.id == id)
    ensures SameFor(s, RunAll(s, es), id)
    decreases |es|
  {
    if es != [] {
      var u := Step(s, es[0]);
      StepLeavesAlone(s, es[0], id);
      LateResponsesChangeNothing(u, es[1..], id);
    }
  }

  // ------------------------------------------- the request streams of a lost node

  function Initial(limit: nat): State {
    State(limit, map[], map[], map[], map[], map[], map[], map[], {}, map[])
  }

  /** What waits in a pool is numbered, and never the opening packet. */
  ghost predicate Numbers(inbox: Inbox) {
    && (inbox.prevSeq.Some? ==> inbox.prevSeq.value >= -1)
    && forall i | i in inbox.pool :: inbox.pool[i].Part? && inbox.pool[i].num == i > 0
  }

  predicate Late(p: Packet) { p.Part? && p.num > 0 }

  ghost predicate LateMail(q: seq<Mail>) { forall m <- q :: Late(m.packet) }

  /** Only packets taken from a pool are scheduled again. */
  ghost predicate Scheduled(s: State) {
    && (forall id | id in s.reqStreams :: Numbers(s.reqStreams[id].inbox))
    && (forall id :: LateMail(At(s.reqDeferred, id)))
  }

  lemma TakeNumbers(inbox: Inbox, p: Packet)
    requires Numbers(inbox)
    ensures var t := Take(inbox, p); (t.inbox.Some? ==> Numbers(t.inbox.value)) && (t.again.Some? ==>
          Late(t.again.value))
  {
  }

  lemma RequestKeepsScheduled(s: State, id: Id, sender: NodeId, p: Packet)
    requires Scheduled(s)
    ensures Scheduled(OnRequest(s, id, sender, p))
  {
    var rs := if id in s.reqStreams then s.reqStreams[id] else ReqStream(sender, NewInbox);
    TakeNumbers(rs.inbox, p);
    TakenKeepsScheduled(s, id, sender, rs.sender, Take(rs.inbox, p));
  }

  lemma TakenKeepsScheduled(s: State, id: Id, sender: NodeId, opener: NodeId, taken: Taken)
    requires Scheduled(s)
    requires (taken.inbox.Some? ==> Numbers(taken.inbox.value)) && (taken.again.Some? ==> Late(taken.again.value))
    ensures Scheduled(RequestTaken(s, id, sender, opener, taken))
  {
    RequestTakenFrame(s, id, sender, opener, taken);
    var t := RequestTaken(s, id, sender, opener, taken);
    assert LateMail(At(s.reqDeferred, id));
    forall j | j in t.reqStreams
      ensures Numbers(t.reqStreams[j].inbox)
    {
      if j != id { assert Get(t.reqStreams, j) == Get(s.reqStreams, j); }
    }
    forall j
      ensures LateMail(At(t.reqDeferred, j))
    {
      if j != id { assert At(t.reqDeferred, j) == At(s.reqDeferred, j); }
    }
  }

  lemma RequestImmediateKeepsScheduled(s: State, id: Id)
    requires Scheduled(s)
    ensures Scheduled(RunRequestImmediate(s, id))
  {
    var q := At(s.reqDeferred, id);
    if q != [] {
      var u := s.(reqDeferred := s.reqDeferred[id := q[1..]]);
      assert LateMail(q) && forall m <- q[1..] :: m in q;
      forall j
        ensures LateMail(At(u.reqDeferred, j))
      {
        assert LateMail(At(s.reqDeferred, j));
      }
      RequestKeepsScheduled(u, id, q[0].sender, q[0].packet);
    }
  }

  /** The request streams are fewer or the same, and nothing new is scheduled. */
  ghost predicate FewerStreams(s: State, t: State) {
    && t.reqDeferred == s.reqDeferred
    && forall id | id in t.reqStreams :: id in s.reqStreams && t.reqStreams[id] == s.reqStreams[id]
  }

  lemma ResponseFewerStreams(s: State, id: Id, p: Packet)
    ensures FewerStreams(s, OnResponse(s, id, p))
  {
  }

  lemma OthersFewerStreams(s: State, e: Event)
    requires !e.Request? && !e.RequestImmediate?
    ensures FewerStreams(s, Step(s, e))
  {
    match e
    case Send(_, _) =>
    case GiveUp(_) =>
    case Response(i, p) => ResponseFewerStreams(s, i, p);
    case ResponseImmediate(i) =>
      var q := At(s.resDeferred, i);
      if q != [] { ResponseFewerStreams(s.(resDeferred := s.resDeferred[i := q[1..]]), i, q[0]); }
    case Lost(node) =>
  }

  lemma StepKeepsScheduled(s: State, e: Event)
    requires Scheduled(s)
    ensures Scheduled(Step(s, e))
  {
    match e
    case Request(id, sender, p) => RequestKeepsScheduled(s, id, sender, p);
    case RequestImmediate(id) => RequestImmediateKeepsScheduled(s, id);
    case _ => OthersFewerStreams(s, e);
  }

  lemma {:induction false} AlwaysScheduled(s: State, es: seq<Event>)
    requires Scheduled(s)
    ensures Scheduled(RunAll(s, es))
    decreases |es|
  {
    if es != [] {
      StepKeepsScheduled(s, es[0]);
      AlwaysScheduled(Step(s, es[0]), es[1..]);
    }
  }

  ghost predicate NoPacketFor(es: seq<Event>, id: Id) { forall e <- es :: !(e.Request? && e.id == id) }

  lemma GoneStaysGone(s: State, e: Event, id: Id)
    requires id !in s.reqStreams && At(s.reqDeferred, id) == [] && !(e.Request? && e.id == id)
    ensures id !in Step(s, e).reqStreams && At(Step(s, e).reqDeferred, id) == []
  {
    match e
    case Request(i, sender, p) => RequestFrame(s, i, sender, p);
    case RequestImmediate(i) => RequestImmediateFrame(s, i);
    case _ => OthersFewerStreams(s, e);
  }

  lemma {:induction false} GoneForGood(s: State, es: seq<Event>, id: Id)
    requires id !in s.reqStreams && At(s.reqDeferred, id) == [] && NoPacketFor(es, id)
    ensures id !in RunAll(s, es).reqStreams
    decreases |es|
  {
    if es != [] {
      assert es[0] in es && forall e | e in es[1..] :: e in es;
      GoneStaysGone(s, es[0], id);
      GoneForGood(Step(s, es[0]), es[1..], id);
    }
  }

  /** A re-dispatch for an id without a stream opens one again, and pools the packet for ever. */
  lemma RedispatchReopens(s: State, id: Id)
    requires Scheduled(s) && id !in s.reqStreams && At(s.reqDeferred, id) != []
    ensures var t, m := RunRequestImmediate(s, id), At(s.reqDeferred, id)[0];
            && id in t.reqStreams
            && t.reqStreams[id] == ReqStream(m.sender, Inbox(Some(-1), map[m.packet.num := m.packet]))
  {
    var q := At(s.reqDeferred, id);
    assert LateMail(q) && q[0] in q;
    assert Early(NewInbox, q[0].packet);
  }

  /** No later run without a packet for the id brings the stream back. */
  ghost predicate StaysGone(t: State, id: Id) {
    forall es | NoPacketFor(es, id) :: id !in RunAll(t, es).reqStreams
  }

  lemma StaysGoneIff(t: State, id: Id)
    requires Scheduled(t) && id !in t.reqStreams
    ensures StaysGone(t, id) <==> At(t.reqDeferred, id) == []
  {
    if At(t.reqDeferred, id) == [] {
      forall es | NoPacketFor(es, id)
        ensures id !in RunAll(t, es).reqStreams
      {
        GoneForGood(t, es, id);
      }
    } else {
      var es := [RequestImmediate(id)];
      RedispatchReopens(t, id);
      assert es[1..] == [] && RunAll(t, es) == RunAll(Step(t, es[0]), []);
      assert NoPacketFor(es, id) && id in RunAll(t, es).reqStreams;
    }
  }

  /**
   In every reachable state: when a node is lost, a request stream it was sending stays gone in
   every run that brings no packet for its id, if and only if no re-dispatch of the stream was
   scheduled at the time of the loss.
   */
  lemma LostStreamStaysGoneIff(limit: nat, past: seq<Event>, node: NodeId, id: Id)
    requires var s := RunAll(Initial(limit), past); id in s.reqStreams && s.reqStreams[id].sender == node
    ensures var s := RunAll(Initial(limit), past);
            StaysGone(NodeLost(s, node), id) <==> At(s.reqDeferred, id) == []
  {
    var s := RunAll(Initial(limit), past);
    AlwaysScheduled(Initial(limit), past);
    StepKeepsScheduled(s, Lost(node));
    NodeLossIsExact(s, node);
    StaysGoneIff(NodeLost(s, node), id);
  }

  /** A run from the start in which it comes back: two packets out of order, the loss, the re-dispatch. */
  lemma LostStreamComesBack(limit: nat, node: NodeId, id: Id, data: Bytes)
    ensures var late, first := Part(1, true, data, false), Part(0, true, [], false);
            var s := RunAll(Initial(limit), [Request(id, node, late), Request(id, node, first)]);
            var t := RunRequestImmediate(NodeLost(s, node), id);
            && At(s.reqDeferred, id) == [Mail(node, late)]
            && id !in NodeLost(s, node).reqStreams
            && id in t.reqStreams && t.reqStreams[id].sender == node
  {
    var late, first := Part(1, true, data, false), Part(0, true, [], false);
    var es := [Request(id, node, late), Request(id, node, first)];
    var s0 := Initial(limit);
    var s1 := OnRequest(s0, id, node, late);
    assert s1.reqStreams[id] == ReqStream(node, Inbox(Some(-1), map[1 := late]));
    var s2 := OnRequest(s1, id, node, first);
    assert es[1..] == [es[1]] && es[1..][1..] == [];
    assert RunAll(s0, es) == RunAll(s1, es[1..]) == RunAll(s2, es[1..][1..]) == s2;
    assert At(s2.reqDeferred, id) == [Mail(node, late)];
    AlwaysScheduled(s0, es);
    StepKeepsScheduled(s2, Lost(node));
    RedispatchReopens(NodeLost(s2, node), id);
  }

  // -------------------------------------------- streams inside the node's whole traffic

  function ReqChannel(s: State, id: Id): Channel {
    Channel(if id in s.reqStreams then Some(s.reqStreams[id].inbox) else None,
            Packets(At(s.reqDeferred, id)), At(s.reqOut, id))
  }

  function Packets(ms: seq<Mail>): seq<Packet> {
    seq(|ms|, i requires 0 <= i < |ms| => ms[i].packet)
  }

  function ResChannel(s: State, id: Id): Channel {
    Channel(Get(s.resStreams, id), At(s.resDeferred, id), At(s.resOut, id))
  }

  /** The request handler and the response handler are the same receiver, per id. */
  lemma RequestHandlerReceives(s: State, id: Id, sender: NodeId, p: Packet)
    ensures ReqChannel(OnRequest(s, id, sender, p), id) == Receive(ReqChannel(s, id), p)
  {
    var rs := if id in s.reqStreams then s.reqStreams[id] else ReqStream(sender, NewInbox);
    RequestTakenChannel(s, id, sender, rs.sender, Take(rs.inbox, p));
  }

  lemma RequestTakenChannel(s: State, id: Id, sender: NodeId, opener: NodeId, taken: Taken)
    ensures
      var t, c := RequestTaken(s, id, sender, opener, taken), ReqChannel(s, id);
      ReqChannel(t, id) == Channel(taken.inbox, c.deferred + (if taken.again.Some? then [taken.again.value] else []),
                                   c.out + taken.effects)
  {
    var ms := At(s.reqDeferred, id);
    if taken.again.Some? {
      PacketsAppend(ms, Mail(sender, taken.again.value));
    } else {
      assert Packets(ms) + [] == Packets(ms);
    }
  }

  lemma PacketsAppend(ms: seq<Mail>, m: Mail)
    ensures Packets(ms + [m]) == Packets(ms) + [m.packet]
  {
  }

  lemma ResponseHandlerReceives(s: State, id: Id, p: Packet)
    requires id in s.pending && !Unmarked(p) && !(id !in s.resStreams && StartsNothing(p))
    ensures ResChannel(OnResponse(s, id, p), id) == Receive(ResChannel(s, id), p)
    ensures id in OnResponse(s, id, p).pending <==> id in OnResponse(s, id, p).resStreams
    ensures id in OnResponse(s, id, p).pending ==> OnResponse(s, id, p).pending[id] == s.pending[id]
  {
    TakenChannel(s, id, Take(if id in s.resStreams then s.resStreams[id] else NewInbox, p));
  }

  /** The next events may do anything, except disturb the stream with the given id: its packets are
      delivered at most once and it is neither given up nor lost with its node. */
  ghost predicate GentleToRequest(ps: seq<Packet>, id: Id, sender: NodeId, arrived: set<nat>, e: Event) {
    match e
    case Send(i, _) => i != id
    case GiveUp(i) => i != id
    case Request(i, from, p) => i == id ==>
        from == sender && p.Part? && p.num < |ps| && p == ps[p.num] && p.num !in arrived
    case Lost(node) => node != sender
    case _ => true
  }

  ghost predicate GentleToResponse(ps: seq<Packet>, id: Id, node: NodeId, arrived: set<nat>, e: Event) {
    match e
    case Send(i, _) => i != id
    case GiveUp(i) => i != id
    case Response(i, p) => i == id ==> p.Part? && p.num < |ps| && p == ps[p.num] && p.num !in arrived
    case Lost(n) => n != node
    case _ => true
  }

  function ArrivedBy(id: Id, request: bool, arrived: set<nat>, e: Event): set<nat> {
    if request && e.Request? && e.id == id && e.p.Part? then arrived + {e.p.num}
    else if !request && e.Response? && e.id == id && e.p.Part? then arrived + {e.p.num}
    else arrived
  }

  /** The packets of the stream that a run delivers, together with those delivered before. */
  function ArrivedAfter(id: Id, request: bool, arrived: set<nat>, es: seq<Event>): set<nat>
    decreases |es|
  {
    if es == [] then arrived else ArrivedAfter(id, request, ArrivedBy(id, request, arrived, es[0]), es[1..])
  }

  /** A packet has arrived exactly when it had arrived before or the run delivers it. */
  lemma {:induction false} ArrivedMeansDelivered(id: Id, request: bool, arrived: set<nat>, es: seq<Event>, i: nat)
    ensures i in ArrivedAfter(id, request, arrived, es)
          <==> i in arrived || exists e <- es :: Delivers(id, request, e, i)
    decreases |es|
  {
    if es != [] {
      ArrivedMeansDelivered(id, request, ArrivedBy(id, request, arrived, es[0]), es[1..], i);
      assert i in ArrivedBy(id, request, arrived, es[0]) <==> i in arrived || Delivers(id, request, es[0], i);
      assert es == [es[0]] + es[1..];
      assert forall e :: e in es <==> e == es[0] || e in es[1..];
    }
  }

  predicate Delivers(id: Id, request: bool, e: Event, i: nat) {
    if request then e.Request? && e.id == id && e.p.Part? && e.p.num == i
    else e.Response? && e.id == id && e.p.Part? && e.p.num == i
  }

  ghost predicate GentleRun(ps: seq<Packet>, id: Id, node: NodeId, request: bool, arrived: set<nat>, es: seq<Event>)
    decreases |es|
  {
    es == [] ||
    (&& (if request then GentleToRequest(ps, id, node, arrived, es[0])
        else GentleToResponse(ps, id, node, arrived, es[0]))
     && GentleRun(ps, id, node, request, ArrivedBy(id, request, arrived, es[0]), es[1..]))
  }

  ghost predicate RequestInOrder(ps: seq<Packet>, id: Id, sender: NodeId, s: State, arrived: set<nat>)
    requires WholeStream(ps)
  {
    && id !in s.pending && id !in s.resStreams
    && (id in s.reqStreams ==> s.reqStreams[id].sender == sender)
    && (forall m <- At(s.reqDeferred, id) :: m.sender == sender)
    && Ordered(ps, Config(ReqChannel(s, id), arrived))
  }

  lemma RequestPacketInOrder(ps: seq<Packet>, id: Id, s: State, arrived: set<nat>, sender: NodeId, i: nat)
    requires WholeStream(ps) && Ordered(ps, Config(ReqChannel(s, id), arrived)) && i < |ps| && i !in arrived
    ensures Ordered(ps, Config(ReqChannel(OnRequest(s, id, sender, ps[i]), id), arrived + {i}))
  {
    RequestHandlerReceives(s, id, sender, ps[i]);
    StepKeepsOrder(ps, Config(ReqChannel(s, id), arrived), Deliver(i));
  }

  lemma RequestImmediateInOrder(ps: seq<Packet>, id: Id, s: State, arrived: set<nat>)
    requires WholeStream(ps) && Ordered(ps, Config(ReqChannel(s, id), arrived))
    ensures Ordered(ps, Config(ReqChannel(RunRequestImmediate(s, id), id), arrived))
  {
    var q := At(s.reqDeferred, id);
    if q != [] {
      var u := s.(reqDeferred := s.reqDeferred[id := q[1..]]);
      var c := ReqChannel(s, id);
      assert Packets(q)[1..] == Packets(q[1..]);
      assert ReqChannel(u, id) == c.(deferred := c.deferred[1..]);
      RequestHandlerReceives(u, id, q[0].sender, q[0].packet);
      StepKeepsOrder(ps, Config(c, arrived), Immediate);
    }
  }

  lemma OthersLeaveRequestAlone(ps: seq<Packet>, id: Id, sender: NodeId, s: State, arrived: set<nat>, e: Event)
    requires id !in s.pending && id !in s.resStreams && (id in s.reqStreams ==> s.reqStreams[id].sender == sender)
    requires GentleToRequest(ps, id, sender, arrived, e)
    requires !(e.Request? && e.id == id) && !(e.RequestImmediate? && e.id == id)
    ensures var t := Step(s, e);
            && Get(t.reqStreams, id) == Get(s.reqStreams, id)
            && At(t.reqDeferred, id) == At(s.reqDeferred, id) && At(t.reqOut, id) == At(s.reqOut, id)
  {
    match e
    case Send(i, node) =>
    case GiveUp(i) =>
    case Request(i, from, p) => RequestFrame(s, i, from, p);
    case Response(i, p) => ResponseFrame(s, i, p, id);
    case RequestImmediate(i) => RequestImmediateFrame(s, i);
    case ResponseImmediate(i) => ResponseImmediateFrame(s, i, id);
    case Lost(node) => NodeLossIsExact(s, node);
  }

  lemma RequestStepInOrder(ps: seq<Packet>, id: Id, sender: NodeId, s: State, arrived: set<nat>, e: Event)
    requires WholeStream(ps) && RequestInOrder(ps, id, sender, s, arrived)
    requires GentleToRequest(ps, id, sender, arrived, e)
    ensures RequestInOrder(ps, id, sender, Step(s, e), ArrivedBy(id, true, arrived, e))
  {
    StepLeavesAlone(s, e, id);
    if e.Request? && e.id == id {
      RequestPacketInOrder(ps, id, s, arrived, sender, e.p.num);
      RequestSender(s, id, sender, e.p);
    } else if e.RequestImmediate? && e.id == id {
      RequestImmediateInOrder(ps, id, s, arrived);
      RequestImmediateSender(s, id, sender);
    } else {
      OthersLeaveRequestAlone(ps, id, sender, s, arrived, e);
    }
  }

  /** Whoever opened the stream of an id stays its sender. */
  lemma RequestSender(s: State, id: Id, sender: NodeId, p: Packet)
    requires id in s.reqStreams ==> s.reqStreams[id].sender == sender
    requires forall m <- At(s.reqDeferred, id) :: m.sender == sender
    ensures var t := OnRequest(s, id, sender, p);
            && (id in t.reqStreams ==> t.reqStreams[id].sender == sender)
            && forall m <- At(t.reqDeferred, id) :: m.sender == sender
  {
  }

  lemma RequestImmediateSender(s: State, id: Id, sender: NodeId)
    requires id in s.reqStreams ==> s.reqStreams[id].sender == sender
    requires forall m <- At(s.reqDeferred, id) :: m.sender == sender
    ensures var t := RunRequestImmediate(s, id);
            && (id in t.reqStreams ==> t.reqStreams[id].sender == sender)
            && forall m <- At(t.reqDeferred, id) :: m.sender == sender
  {
    var q := At(s.reqDeferred, id);
    if q != [] {
      assert forall m <- q[1..] :: m in q;
      RequestSender(s.(reqDeferred := s.reqDeferred[id := q[1..]]), id, q[0].sender, q[0].packet);
    }
  }

  /**
   A streamed request inside arbitrary other traffic: however the packets of this and all other
   ids interleave with re-dispatches, sends, responses, timeouts of other requests and losses of
   other nodes, the action has been given a prefix of the sender's bytes.
   */
  lemma {:induction false} RequestStreamDelivered(
      ps: seq<Packet>, id: Id, sender: NodeId, s: State, arrived: set<nat>, es: seq<Event>)
    requires WholeStream(ps) && RequestInOrder(ps, id, sender, s, arrived)
    requires GentleRun(ps, id, sender, true, arrived, es)
    ensures RequestInOrder(ps, id, sender, RunAll(s, es), ArrivedAfter(id, true, arrived, es))
    ensures Written(At(RunAll(s, es).reqOut, id)) <= Payload(ps)
    ensures SeenInOrder(ps, At(RunAll(s, es).reqOut, id)) && FailureTold(ps, At(RunAll(s, es).reqOut, id))
    ensures AllArrived(ps, ArrivedAfter(id, true, arrived, es)) && At(RunAll(s, es).reqDeferred, id) == [] ==>
              && Written(At(RunAll(s, es).reqOut, id)) == Payload(ps) && id !in RunAll(s, es).reqStreams
              && CountOf(At(RunAll(s, es).reqOut, id), End) == 1
    decreases |es|
  {
    if es == [] {
      OrderedMeansPrefix(ps, Config(ReqChannel(s, id), arrived));
    } else {
      RequestStepInOrder(ps, id, sender, s, arrived, es[0]);
      RequestStreamDelivered(ps, id, sender, Step(s, es[0]), ArrivedBy(id, true, arrived, es[0]), es[1..]);
    }
  }

  ghost predicate ResponseInOrder(ps: seq<Packet>, id: Id, node: NodeId, s: State, arrived: set<nat>)
    requires WholeStream(ps)
  {
    && Ordered(ps, Config(ResChannel(s, id), arrived))
    && (id in s.pending <==> !(AllArrived(ps, arrived) && id !in s.resStreams))
    && (id in s.pending ==> s.pending[id] == node)
  }

  lemma ResponsePacketInOrder(ps: seq<Packet>, id: Id, node: NodeId, s: State, arrived: set<nat>, i: nat)
    requires WholeStream(ps) && Bookkeeping(s) && ResponseInOrder(ps, id, node, s, arrived) && i < |ps| && i !in arrived
    ensures ResponseInOrder(ps, id, node, OnResponse(s, id, ps[i]), arrived + {i})
  {
    assert id in s.pending;
    ResponseHandlerReceives(s, id, ps[i]);
    StepKeepsOrder(ps, Config(ResChannel(s, id), arrived), Deliver(i));
    NotAllWhileOpen(ps, ResChannel(OnResponse(s, id, ps[i]), id), arrived + {i});
  }

  lemma NotAllWhileOpen(ps: seq<Packet>, c: Channel, arrived: set<nat>)
    requires WholeStream(ps) && Ordered(ps, Config(c, arrived)) && arrived != {}
    ensures c.inbox.None? ==> AllArrived(ps, arrived)
  {
  }

  lemma ResponseImmediateInOrder(ps: seq<Packet>, id: Id, node: NodeId, s: State, arrived: set<nat>)
    requires WholeStream(ps) && Bookkeeping(s) && ResponseInOrder(ps, id, node, s, arrived)
    ensures ResponseInOrder(ps, id, node, RunResponseImmediate(s, id), arrived)
  {
    var q := At(s.resDeferred, id);
    if q != [] {
      var u := s.(resDeferred := s.resDeferred[id := q[1..]]);
      var c := ResChannel(s, id);
      assert c.inbox.Some? && id in s.pending;
      assert ResChannel(u, id) == c.(deferred := c.deferred[1..]);
      assert q[0].Part? && q[0].num in arrived;
      ResponseHandlerReceives(u, id, q[0]);
      StepKeepsOrder(ps, Config(c, arrived), Immediate);
      NotAllWhileOpen(ps, ResChannel(OnResponse(u, id, q[0]), id), arrived);
    }
  }

  /** The parts of the state that a response stream consists of are the same. */
  ghost predicate SameResponse(s: State, t: State, id: Id) {
    && Get(t.resStreams, id) == Get(s.resStreams, id) && Get(t.pending, id) == Get(s.pending, id)
    && At(t.resDeferred, id) == At(s.resDeferred, id) && At(t.resOut, id) == At(s.resOut, id)
  }

  lemma RequestImmediateLeavesResponse(s: State, i: Id, id: Id)
    ensures SameResponse(s, RunRequestImmediate(s, i), id)
  {
    RequestImmediateFrame(s, i);
  }

  lemma ResponseImmediateLeavesResponse(s: State, i: Id, id: Id)
    requires i != id
    ensures SameResponse(s, RunResponseImmediate(s, i), id)
  {
    ResponseImmediateFrame(s, i, id);
  }

  lemma LossLeavesResponse(s: State, n: NodeId, id: Id)
    requires id in s.pending ==> s.pending[id] != n
    requires id in s.resStreams ==> id in s.pending
    ensures SameResponse(s, NodeLost(s, n), id)
  {
    assert id !in SentTo(s, n);
  }

  lemma OthersLeaveResponseAlone(ps: seq<Packet>, id: Id, node: NodeId, s: State, arrived: set<nat>, e: Event)
    requires id in s.pending ==> s.pending[id] == node
    requires id in s.resStreams ==> id in s.pending
    requires GentleToResponse(ps, id, node, arrived, e)
    requires !(e.Response? && e.id == id) && !(e.ResponseImmediate? && e.id == id)
    ensures SameResponse(s, Step(s, e), id)
  {
    match e
    case Send(i, n) =>
    case GiveUp(i) =>
    case Request(i, from, p) => RequestFrame(s, i, from, p);
    case Response(i, p) => ResponseFrame(s, i, p, id);
    case RequestImmediate(i) => RequestImmediateLeavesResponse(s, i, id);
    case ResponseImmediate(i) => ResponseImmediateLeavesResponse(s, i, id);
    case Lost(n) => LossLeavesResponse(s, n, id);
  }

  lemma ResponseStepInOrder(ps: seq<Packet>, id: Id, node: NodeId, s: State, arrived: set<nat>, e: Event)
    requires WholeStream(ps) && Bookkeeping(s) && ResponseInOrder(ps, id, node, s, arrived)
    requires GentleToResponse(ps, id, node, arrived, e)
    ensures ResponseInOrder(ps, id, node, Step(s, e), ArrivedBy(id, false, arrived, e))
  {
    if e.Response? && e.id == id {
      ResponsePacketInOrder(ps, id, node, s, arrived, e.p.num);
    } else if e.ResponseImmediate? && e.id == id {
      ResponseImmediateInOrder(ps, id, node, s, arrived);
    } else {
      OthersLeaveResponseAlone(ps, id, node, s, arrived, e);
    }
  }

  /** The same for a streamed response; the request stays pending exactly until the stream has ended. */
  lemma {:induction false} ResponseStreamDelivered(
      ps: seq<Packet>, id: Id, node: NodeId, s: State, arrived: set<nat>, es: seq<Event>)
    requires WholeStream(ps) && Bookkeeping(s) && ResponseInOrder(ps, id, node, s, arrived)
    requires GentleRun(ps, id, node, false, arrived, es)
    ensures ResponseInOrder(ps, id, node, RunAll(s, es), ArrivedAfter(id, false, arrived, es))
    ensures Written(At(RunAll(s, es).resOut, id)) <= Payload(ps)
    ensures SeenInOrder(ps, At(RunAll(s, es).resOut, id)) && FailureTold(ps, At(RunAll(s, es).resOut, id))
    ensures AllArrived(ps, ArrivedAfter(id, false, arrived, es)) && At(RunAll(s, es).resDeferred, id) == [] ==>
              && Written(At(RunAll(s, es).resOut, id)) == Payload(ps) && id !in RunAll(s, es).pending
              && CountOf(At(RunAll(s, es).resOut, id), End) == 1
    decreases |es|
  {
    if es == [] {
      OrderedMeansPrefix(ps, Config(ResChannel(s, id), arrived));
    } else {
      ResponseStepInOrder(ps, id, node, s, arrived, es[0]);
      StepKeepsBooks(s, es[0]);
      ResponseStreamDelivered(ps, id, node, Step(s, es[0]), ArrivedBy(id, false, arrived, es[0]), es[1..]);
    }
  }
}
