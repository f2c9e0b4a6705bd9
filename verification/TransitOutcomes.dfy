/**
 How sent requests come to an end: which event settles the promise of a request and how, and when
 a request stops being pending. Everything is said about the packets and events themselves.
 */
module TransitOutcomes {
  import opened Prelude
  import opened StreamProtocol
  import opened Requests = Transit

  type Event = Requests.Event

  /**
   A response that is not part of a stream: it has no stream field, or it is neither marked as a part
   nor numbered and no stream is open.
   */
  predicate IsAnswer(p: Packet, streaming: bool) {
    match p
    case Plain(marked, _) => !marked || !streaming
    case Part(num, more, _, _) => num == 0 && !more && !streaming
  }

  // -------------------------------------------------------- what is scheduled again

  ghost predicate LatePackets(q: seq<Packet>) { forall p <- q :: Late(p) }

  /** Pools and schedules of the response with an id hold numbered packets, never the opening one. */
  ghost predicate ResponseScheduled(s: State, id: Id) {
    && (id in s.resStreams ==> Numbers(s.resStreams[id]))
    && LatePackets(At(s.resDeferred, id))
  }

  lemma TakenKeepsSchedule(s: State, id: Id, taken: Taken)
    requires ResponseScheduled(s, id) && id in s.pending
    requires (taken.inbox.Some? ==> Numbers(taken.inbox.value)) && (taken.again.Some? ==> Late(taken.again.value))
    ensures ResponseScheduled(ResponseTaken(s, id, taken), id)
  {
    TakenChannel(s, id, taken);
    assert ResChannel(ResponseTaken(s, id, taken), id).inbox == taken.inbox;
  }

  lemma ResponseKeepsSchedule(s: State, id: Id, p: Packet)
    requires ResponseScheduled(s, id)
    ensures ResponseScheduled(OnResponse(s, id, p), id)
  {
    if id in s.pending && !IsAnswer(p, id in s.resStreams) {
      var inbox := if id in s.resStreams then s.resStreams[id] else NewInbox;
      TakeNumbers(inbox, p);
      TakenKeepsSchedule(s, id, Take(inbox, p));
      StreamedIsTaken(s, id, p, inbox);
    }
  }

  lemma StreamedIsTaken(s: State, id: Id, p: Packet, inbox: Inbox)
    requires id in s.pending && !IsAnswer(p, id in s.resStreams)
    requires inbox == if id in s.resStreams then s.resStreams[id] else NewInbox
    ensures OnResponse(s, id, p) == ResponseTaken(s, id, Take(inbox, p))
  {
  }

  /** An inbox that has begun belongs to a settled request. */
  ghost predicate BegunIsSettled(inbox: Option<Inbox>, settled: bool) {
    inbox.Some? ==> inbox.value.prevSeq.Some? && (inbox.value.prevSeq.value >= 0 ==> settled)
  }

  lemma TakenBegins(inbox: Inbox, p: Packet, settled: bool)
    requires Numbers(inbox) && BegunIsSettled(Some(inbox), settled) && p.Part?
    ensures BegunIsSettled(Take(inbox, p).inbox, settled || p.num == 0)
  {
  }

  lemma ImmediateKeepsSchedule(s: State, id: Id)
    requires ResponseScheduled(s, id)
    ensures ResponseScheduled(RunResponseImmediate(s, id), id)
  {
    var q := At(s.resDeferred, id);
    if q != [] {
      assert forall p <- q[1..] :: p in q;
      ResponseKeepsSchedule(s.(resDeferred := s.resDeferred[id := q[1..]]), id, q[0]);
    }
  }

  lemma StepKeepsSchedule(s: State, e: Event, id: Id)
    requires ResponseScheduled(s, id)
    ensures ResponseScheduled(Step(s, e), id)
  {
    match e
    case Send(i, node) =>
    case GiveUp(i) =>
    case Request(i, sender, p) => RequestFrame(s, i, sender, p);
    case RequestImmediate(i) => RequestImmediateFrame(s, i);
    case Response(i, p) => if i == id { ResponseKeepsSchedule(s, id, p); } else { ResponseFrame(s, i, p, id); }
    case ResponseImmediate(i) =>
      if i == id { ImmediateKeepsSchedule(s, id); } else { ResponseImmediateFrame(s, i, id); }
    case Lost(node) => NodeLossIsExact(s, node);
  }

  // --------------------------------------------------------------- settling a request

  /** How an event settles the promise of a request: not at all unless the request is pending. */
  function Answer(s: State, e: Event, id: Id): Option<Outcome> {
    if id !in s.pending then None
    else
      match e
      case Lost(node) => if s.pending[id] == node then Some(Rejected) else None
      case Response(i, p) =>
        if i != id then None
        else if IsAnswer(p, id in s.resStreams) then Some(if p.failed then Rejected else Resolved)
        else if p.Part? && p.num == 0 then Some(ResolvedWithStream)
        else None
      case _ => None
  }

  lemma ResponseSettles(s: State, id: Id, p: Packet)
    requires ResponseScheduled(s, id)
    ensures Get(OnResponse(s, id, p).settled, id) ==
              if id in s.settled then Some(s.settled[id]) else Answer(s, Response(id, p), id)
  {
    var inbox := if id in s.resStreams then s.resStreams[id] else NewInbox;
    if id in s.pending && !IsAnswer(p, id in s.resStreams) { OpensWithFirst(inbox, p); }
  }

  lemma OpensWithFirst(inbox: Inbox, p: Packet)
    requires Numbers(inbox)
    ensures Take(inbox, p).effects == [Open] <==> p.Part? && p.num == 0
  {
  }

  lemma ImmediateSettlesNothing(s: State, id: Id)
    requires ResponseScheduled(s, id)
    ensures Get(RunResponseImmediate(s, id).settled, id) == Get(s.settled, id)
  {
    var q := At(s.resDeferred, id);
    if q != [] {
      assert forall p <- q[1..] :: p in q;
      assert Late(q[0]) by { assert q[0] in q; }
      ResponseSettles(s.(resDeferred := s.resDeferred[id := q[1..]]), id, q[0]);
    }
  }

  /** An event settles a promise that was not settled before exactly as `Answer` says. */
  lemma StepSettles(s: State, e: Event, id: Id)
    requires ResponseScheduled(s, id)
    ensures Get(Step(s, e).settled, id) == if id in s.settled then Some(s.settled[id]) else Answer(s, e, id)
  {
    match e
    case Send(i, node) =>
    case GiveUp(i) =>
    case Request(i, sender, p) => RequestFrame(s, i, sender, p);
    case RequestImmediate(i) => RequestImmediateFrame(s, i);
    case Response(i, p) => if i == id { ResponseSettles(s, id, p); } else { ResponseFrame(s, i, p, id); }
    case ResponseImmediate(i) =>
      if i == id { ImmediateSettlesNothing(s, id); } else { ResponseImmediateFrame(s, i, id); }
    case Lost(node) => NodeLossIsExact(s, node);
  }

  /** The event at position i is the first of the run to settle the promise, with this outcome. */
  ghost predicate FirstAnswer(s: State, es: seq<Event>, id: Id, i: nat, o: Outcome) {
    && i < |es| && Answer(RunAll(s, es[..i]), es[i], id) == Some(o)
    && forall j | 0 <= j < i :: Answer(RunAll(s, es[..j]), es[j], id) == None
  }

  lemma PrefixShift(s: State, es: seq<Event>, i: nat)
    requires es != [] && i < |es|
    ensures RunAll(s, es[..i + 1]) == RunAll(Step(s, es[0]), es[1..][..i])
  {
    assert es[..i + 1][0] == es[0] && es[..i + 1][1..] == es[1..][..i];
  }

  lemma FirstAnswerCons(s: State, es: seq<Event>, id: Id, i: nat, o: Outcome)
    requires es != [] && Answer(s, es[0], id) == None
    ensures FirstAnswer(s, es, id, i + 1, o) <==> FirstAnswer(Step(s, es[0]), es[1..], id, i, o)
  {
    assert es[..0] == [];
    if i + 1 < |es| {
      forall j: nat | j <= i
        ensures RunAll(s, es[..j + 1]) == RunAll(Step(s, es[0]), es[1..][..j]) && es[j + 1] == es[1..][j]
      {
        PrefixShift(s, es, j);
      }
    }
    if FirstAnswer(Step(s, es[0]), es[1..], id, i, o) {
      forall j | 0 <= j < i + 1
        ensures Answer(RunAll(s, es[..j]), es[j], id) == None
      {
        if j > 0 { PrefixShift(s, es, j - 1); }
      }
    }
    if FirstAnswer(s, es, id, i + 1, o) {
      forall j | 0 <= j < i
        ensures Answer(RunAll(Step(s, es[0]), es[1..][..j]), es[1..][j], id) == None
      {
        assert Answer(RunAll(s, es[..j + 1]), es[j + 1], id) == None;
      }
    }
  }

  /** Settled with an outcome if and only if the first event of the run that settles it says so. */
  lemma {:induction false} SettledByFirst(s: State, es: seq<Event>, id: Id, o: Outcome)
    requires ResponseScheduled(s, id) && id !in s.settled
    ensures Get(RunAll(s, es).settled, id) == Some(o) <==> exists i :: FirstAnswer(s, es, id, i, o)
    decreases |es|
  {
    if es != [] {
      var t := Step(s, es[0]);
      StepSettles(s, es[0], id);
      StepKeepsSchedule(s, es[0], id);
      assert es[..0] == [] && RunAll(s, es[..0]) == s;
      if Answer(s, es[0], id).None? {
        SettledByFirst(t, es[1..], id, o);
        LaterAnswers(s, es, id, o);
      } else {
        SettledForGood(t, es[1..], id);
        assert Answer(s, es[0], id) == Some(o) ==> FirstAnswer(s, es, id, 0, o);
      }
    }
  }

  lemma LaterAnswers(s: State, es: seq<Event>, id: Id, o: Outcome)
    requires es != [] && Answer(s, es[0], id) == None
    ensures (exists i :: FirstAnswer(s, es, id, i, o)) <==> exists i :: FirstAnswer(Step(s, es[0]), es[1..], id, i, o)
  {
    assert es[..0] == [] && RunAll(s, es[..0]) == s;
    if i: nat :| FirstAnswer(s, es, id, i, o) {
      assert i > 0;
      FirstAnswerCons(s, es, id, i - 1, o);
    }
    if i: nat :| FirstAnswer(Step(s, es[0]), es[1..], id, i, o) {
      FirstAnswerCons(s, es, id, i, o);
    }
  }

  lemma {:induction false} SettledForGood(s: State, es: seq<Event>, id: Id)
    requires ResponseScheduled(s, id) && id in s.settled
    ensures Get(RunAll(s, es).settled, id) == Some(s.settled[id])
    decreases |es|
  {
    if es != [] {
      StepSettles(s, es[0], id);
      StepKeepsSchedule(s, es[0], id);
      SettledForGood(Step(s, es[0]), es[1..], id);
    }
  }

  /** Who settled it: a response to the id that is no part of a stream. */
  ghost predicate AnsweredBy(s: State, es: seq<Event>, id: Id, i: nat, failed: bool) {
    && i < |es| && es[i].Response? && es[i].id == id && es[i].p.failed == failed
    && var t := RunAll(s, es[..i]); id in t.pending && IsAnswer(es[i].p, id in t.resStreams)
  }

  /** The loss of the node the request was sent to. */
  ghost predicate LostWith(s: State, es: seq<Event>, id: Id, i: nat) {
    && i < |es| && es[i].Lost?
    && var t := RunAll(s, es[..i]); id in t.pending && t.pending[id] == es[i].node
  }

  /** The opening packet of a streamed response. */
  ghost predicate OpenedBy(s: State, es: seq<Event>, id: Id, i: nat) {
    && i < |es| && es[i].Response? && es[i].id == id && es[i].p.Part? && es[i].p.num == 0
    && var t := RunAll(s, es[..i]); id in t.pending && !IsAnswer(es[i].p, id in t.resStreams)
  }

  ghost predicate Settles(s: State, es: seq<Event>, id: Id, i: nat) {
    || AnsweredBy(s, es, id, i, true) || AnsweredBy(s, es, id, i, false)
    || LostWith(s, es, id, i) || OpenedBy(s, es, id, i)
  }

  ghost predicate First(s: State, es: seq<Event>, id: Id, i: nat) {
    Settles(s, es, id, i) && forall j | 0 <= j < i :: !Settles(s, es, id, j)
  }

  lemma FirstIsFirst(s: State, es: seq<Event>, id: Id, i: nat)
    ensures FirstAnswer(s, es, id, i, Resolved) <==> First(s, es, id, i) && AnsweredBy(s, es, id, i, false)
    ensures FirstAnswer(s, es, id, i, Rejected) <==>
              First(s, es, id, i) && (AnsweredBy(s, es, id, i, true) || LostWith(s, es, id, i))
    ensures FirstAnswer(s, es, id, i, ResolvedWithStream) <==> First(s, es, id, i) && OpenedBy(s, es, id, i)
  {
    assert forall j | 0 <= j < |es| :: Settles(s, es, id, j) <==> Answer(RunAll(s, es[..j]), es[j], id).Some?;
  }

  /**
   Every run from the start: a request is resolved if and only if the first event that settles it is a
   response of success, rejected if and only if it is a response of failure or the loss of the node it
   was sent to, and resolved with a stream if and only if it is the opening packet of a stream.
   */
  lemma SettledIff(limit: nat, es: seq<Event>, id: Id)
    ensures var s := Initial(limit);
            var o := Get(RunAll(s, es).settled, id);
            && (o == Some(Resolved) <==> exists i :: First(s, es, id, i) && AnsweredBy(s, es, id, i, false))
            && (o == Some(Rejected) <==>
                  exists i :: First(s, es, id, i) && (AnsweredBy(s, es, id, i, true) || LostWith(s, es, id, i)))
            && (o == Some(ResolvedWithStream) <==> exists i :: First(s, es, id, i) && OpenedBy(s, es, id, i))
  {
    var s := Initial(limit);
    SettledByFirst(s, es, id, Resolved);
    SettledByFirst(s, es, id, Rejected);
    SettledByFirst(s, es, id, ResolvedWithStream);
    forall i: nat { FirstIsFirst(s, es, id, i); }
  }

  // -------------------------------------------------------------- pending requests

  /** The packet that closes an open stream, in turn or out of count. */
  predicate Closes(inbox: Option<Inbox>, p: Packet) {
    && inbox.Some? && p.Part? && p.num > 0 && !p.more
    && (inbox.value.prevSeq.Some? ==> p.num <= inbox.value.prevSeq.value + 1)
  }

  /** The node a request is waiting for after an event, if it is waiting. */
  function PendingAfter(s: State, e: Event, id: Id): Option<NodeId> {
    var before := Get(s.pending, id);
    match e
    case Send(i, node) => if i == id && (s.limit == 0 || |s.pending| < s.limit) then Some(node) else before
    case GiveUp(i) => if i == id then None else before
    case Lost(node) => if before == Some(node) then None else before
    case Response(i, p) =>
      if i == id && (IsAnswer(p, id in s.resStreams) || Closes(Get(s.resStreams, id), p)) then None else before
    case ResponseImmediate(i) =>
      var q := At(s.resDeferred, id);
      if i == id && q != [] && Closes(Get(s.resStreams, id), q[0]) then None else before
    case Request(_, _, _) => before
    case RequestImmediate(_) => before
  }

  lemma ResponsePending(s: State, id: Id, p: Packet)
    requires ResponseScheduled(s, id)
    ensures Get(OnResponse(s, id, p).pending, id) ==
              if IsAnswer(p, id in s.resStreams) || Closes(Get(s.resStreams, id), p) then None
              else Get(s.pending, id)
  {
  }

  lemma ImmediatePending(s: State, id: Id)
    requires ResponseScheduled(s, id)
    ensures Get(RunResponseImmediate(s, id).pending, id) == PendingAfter(s, ResponseImmediate(id), id)
  {
    var q := At(s.resDeferred, id);
    if q != [] {
      assert forall p <- q[1..] :: p in q;
      assert Late(q[0]) by { assert q[0] in q; }
      ResponsePending(s.(resDeferred := s.resDeferred[id := q[1..]]), id, q[0]);
    }
  }

  lemma SendPending(s: State, i: Id, node: NodeId, id: Id)
    ensures Get(SendRequest(s, i, node).pending, id) == PendingAfter(s, Send(i, node), id)
  {
  }

  lemma LostPending(s: State, node: NodeId, id: Id)
    ensures Get(NodeLost(s, node).pending, id) == PendingAfter(s, Lost(node), id)
  {
    NodeLossIsExact(s, node);
  }

  /**
   A request is pending from the moment it is accepted until it is answered, its stream closes, it is
   given up, or its node is lost; nothing else ends it and nothing else starts it.
   */
  lemma PendingIff(s: State, e: Event, id: Id)
    requires ResponseScheduled(s, id)
    ensures Get(Step(s, e).pending, id) == PendingAfter(s, e, id)
  {
    match e
    case Send(i, node) => SendPending(s, i, node, id);
    case GiveUp(i) =>
    case Request(i, sender, p) => RequestFrame(s, i, sender, p);
    case RequestImmediate(i) => RequestImmediateFrame(s, i);
    case Response(i, p) => if i == id { ResponsePending(s, id, p); } else { ResponseFrame(s, i, p, id); }
    case ResponseImmediate(i) => if i == id { ImmediatePending(s, id); } else { ResponseImmediateFrame(s, i, id); }
    case Lost(node) => LostPending(s, node, id);
  }

  // ------------------------------------------------------------ no promise is forgotten

  /** A request that was accepted is pending or settled, and one whose stream has begun is settled. */
  ghost predicate Remembered(s: State, id: Id) {
    && ResponseScheduled(s, id)
    && (id in s.pending || id in s.settled)
    && BegunIsSettled(Get(s.resStreams, id), id in s.settled)
  }

  /** Neither given up nor answered by a packet that is marked as the end of a stream but has no number. */
  predicate Regular(e: Event, id: Id) {
    !(e.GiveUp? && e.id == id) && !(e.Response? && e.id == id && e.p.Plain? && e.p.marked)
  }

  lemma StreamAfter(s: State, id: Id, p: Packet)
    requires Remembered(s, id) && !(p.Plain? && p.marked)
    ensures var t := OnResponse(s, id, p); BegunIsSettled(Get(t.resStreams, id), id in t.settled)
  {
    ResponseSettles(s, id, p);
    if id in s.pending && !IsAnswer(p, id in s.resStreams) {
      var inbox := if id in s.resStreams then s.resStreams[id] else NewInbox;
      StreamedIsTaken(s, id, p, inbox);
      TakenBegins(inbox, p, id in s.settled);
    }
  }

  lemma ResponseRemembers(s: State, id: Id, p: Packet)
    requires Remembered(s, id) && !(p.Plain? && p.marked)
    ensures Remembered(OnResponse(s, id, p), id)
  {
    ResponseKeepsSchedule(s, id, p);
    ResponseSettles(s, id, p);
    ResponsePending(s, id, p);
    StreamAfter(s, id, p);
  }

  lemma ImmediateRemembers(s: State, id: Id)
    requires Remembered(s, id)
    ensures Remembered(RunResponseImmediate(s, id), id)
  {
    var q := At(s.resDeferred, id);
    if q != [] {
      assert forall p <- q[1..] :: p in q;
      assert Late(q[0]) by { assert q[0] in q; }
      ResponseRemembers(s.(resDeferred := s.resDeferred[id := q[1..]]), id, q[0]);
    }
  }

  lemma StepRemembers(s: State, e: Event, id: Id)
    requires Remembered(s, id) && Regular(e, id)
    ensures Remembered(Step(s, e), id)
  {
    match e
    case Send(i, node) =>
    case GiveUp(i) =>
    case Request(i, sender, p) => RequestFrame(s, i, sender, p);
    case RequestImmediate(i) => RequestImmediateFrame(s, i);
    case Response(i, p) => if i == id { ResponseRemembers(s, id, p); } else { ResponseFrame(s, i, p, id); }
    case ResponseImmediate(i) => if i == id { ImmediateRemembers(s, id); } else { ResponseImmediateFrame(s, i, id); }
    case Lost(node) => NodeLossIsExact(s, node);
  }

  /** An accepted request that is not given up stays pending until its promise is settled. */
  lemma {:induction false} NoPromiseForgotten(s: State, es: seq<Event>, id: Id)
    requires Remembered(s, id) && forall e <- es :: Regular(e, id)
    ensures id in RunAll(s, es).pending || id in RunAll(s, es).settled
    decreases |es|
  {
    if es != [] {
      assert es[0] in es && forall e | e in es[1..] :: e in es;
      StepRemembers(s, es[0], id);
      NoPromiseForgotten(Step(s, es[0]), es[1..], id);
    }
  }

  /** In particular from the moment it is sent to an idle node. */
  lemma SentIsRemembered(limit: nat, id: Id, node: NodeId, es: seq<Event>)
    requires forall e <- es :: Regular(e, id)
    ensures var t := RunAll(SendRequest(Initial(limit), id, node), es); id in t.pending || id in t.settled
  {
    NoPromiseForgotten(SendRequest(Initial(limit), id, node), es, id);
  }

  // ---------------------------------------------------------- streams go with requests

  /** The event ends the request with the id: it is given up, answered or its response stream closes. */
  ghost predicate Ends(s: State, e: Event, id: Id) {
    || e == GiveUp(id)
    || (e.Response? && e.id == id && id in s.pending && PendingAfter(s, e, id).None?)
    || (e.ResponseImmediate? && e.id == id && id in s.pending && PendingAfter(s, e, id).None?)
  }

  lemma ResponseEndsStreams(s: State, id: Id, p: Packet)
    requires ResponseScheduled(s, id)
    ensures Get(OnResponse(s, id, p).reqStreams, id) ==
              if id in s.pending && (IsAnswer(p, id in s.resStreams) || Closes(Get(s.resStreams, id), p)) then None
              else Get(s.reqStreams, id)
    ensures id in s.pending && (IsAnswer(p, id in s.resStreams) || Closes(Get(s.resStreams, id), p)) ==>
              id !in OnResponse(s, id, p).resStreams
  {
  }

  lemma ImmediateEndsStreams(s: State, id: Id)
    requires ResponseScheduled(s, id)
    ensures var t := RunResponseImmediate(s, id);
            && Get(t.reqStreams, id) == (if Ends(s, ResponseImmediate(id), id) then None else Get(s.reqStreams, id))
            && (Ends(s, ResponseImmediate(id), id) ==> id !in t.resStreams)
  {
    var q := At(s.resDeferred, id);
    if q != [] {
      assert forall p <- q[1..] :: p in q;
      assert Late(q[0]) by { assert q[0] in q; }
      ResponseEndsStreams(s.(resDeferred := s.resDeferred[id := q[1..]]), id, q[0]);
    }
  }

  /**
   When a request ends, both streams under its id go. Apart from that and from the loss of a node, a
   request stream is changed by the packets of its own id only.
   */
  lemma StreamsEndWithRequest(s: State, e: Event, id: Id)
    requires ResponseScheduled(s, id) && !((e.Request? || e.RequestImmediate?) && e.id == id)
    ensures var t := Step(s, e);
            && (Ends(s, e, id) ==> id !in t.reqStreams && id !in t.resStreams)
            && (!Ends(s, e, id) && !e.Lost? ==> Get(t.reqStreams, id) == Get(s.reqStreams, id))
  {
    match e
    case Send(i, node) =>
    case GiveUp(i) =>
    case Request(i, sender, p) => RequestFrame(s, i, sender, p);
    case RequestImmediate(i) => RequestImmediateFrame(s, i);
    case Response(i, p) => if i == id { ResponseEndsStreams(s, id, p); } else { ResponseFrame(s, i, p, id); }
    case ResponseImmediate(i) => if i == id { ImmediateEndsStreams(s, id); } else { ResponseImmediateFrame(s, i, id); }
    case Lost(node) =>
  }

  /** Whoever opened a request stream stays its sender, whoever sends the packets after that. */
  lemma OpenerStays(s: State, e: Event, id: Id)
    requires ResponseScheduled(s, id) && id in s.reqStreams && id in Step(s, e).reqStreams
    ensures Step(s, e).reqStreams[id].sender == s.reqStreams[id].sender
  {
    if (e.Request? || e.RequestImmediate?) && e.id == id {
    } else if e.Lost? {
      NodeLossIsExact(s, e.node);
    } else {
      StreamsEndWithRequest(s, e, id);
    }
  }

  /** A request stream that a packet opens belongs to the sender of the packet. */
  lemma OpenerIsSender(s: State, id: Id, sender: NodeId, p: Packet)
    requires id !in s.reqStreams && id in OnRequest(s, id, sender, p).reqStreams
    ensures OnRequest(s, id, sender, p).reqStreams[id].sender == sender
  {
  }

  /** A packet released from the pool is handled again for the sender of the packet that released it. */
  lemma ReleasedForSender(s: State, id: Id, sender: NodeId, p: Packet)
    ensures var before, after := At(s.reqDeferred, id), At(OnRequest(s, id, sender, p).reqDeferred, id);
            before <= after && forall m <- after[|before|..] :: m.sender == sender
  {
  }
}
