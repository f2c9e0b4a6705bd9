/**
 Byte streams carried in numbered packets: how the sender of a streamed request or
 response cuts and numbers the data, and how the receiving side puts packets that arrive
 in any order back into sequence.
 */
module StreamProtocol {
  import opened Prelude

  type Bytes = seq<Byte>

  /**
   `Plain` is a packet without a number; it is marked when it has a `stream` field, which is then
   false. In `Part`, `more` is the packet's `stream` flag.
   */
  datatype Packet =
    | Plain(marked: bool, failed: bool)
    | Part(num: nat, more: bool, data: Bytes, failed: bool)

  // ---------------------------------------------------------------- the sender

  function Min(a: int, b: int): int { if a < b then a else b }

  /** The pieces a chunk is cut into: slices of `max` bytes, the last one possibly shorter. */
  function Pieces(chunk: Bytes, max: int): seq<Bytes>
    decreases |chunk|
  {
    if max <= 0 || |chunk| <= max then [chunk]
    else [chunk[..max]] + Pieces(chunk[max..], max)
  }

  lemma {:induction false} PiecesLoseNothing(chunk: Bytes, max: int)
    ensures Flatten(Pieces(chunk, max)) == chunk
    ensures max > 0 ==> forall p <- Pieces(chunk, max) :: |p| <= max
    ensures chunk != [] ==> forall p <- Pieces(chunk, max) :: p != []
    decreases |chunk|
  {
    if max <= 0 || |chunk| <= max {
      assert Flatten([chunk]) == chunk + Flatten([]) == chunk;
    } else {
      PiecesLoseNothing(chunk[max..], max);
      var rest := Pieces(chunk[max..], max);
      assert Pieces(chunk, max)[1..] == rest;
      assert chunk == chunk[..max] + chunk[max..];
    }
  }

  /** The loop that cuts a chunk that is larger than the limit. */
  method CutChunk(chunk: Bytes, maxChunkSize: int) returns (chunks: seq<Bytes>)
    ensures chunks == Pieces(chunk, maxChunkSize)
  {
    chunks := [];
    if maxChunkSize > 0 && |chunk| > maxChunkSize {
      var len := |chunk|;
      var i := 0;
      while i < len
        invariant 0 <= i
        invariant i < len ==> Pieces(chunk, maxChunkSize) == chunks + Pieces(chunk[i..], maxChunkSize)
        invariant i >= len ==> Pieces(chunk, maxChunkSize) == chunks
        decreases len - i
      {
        var next := i + maxChunkSize;
        assert chunk[i..][..Min(maxChunkSize, len - i)] == chunk[i..Min(next, len)];
        assert next < len ==> chunk[i..][maxChunkSize..] == chunk[next..];
        assert next >= len ==> chunk[i..len] == chunk[i..] && Pieces(chunk[i..], maxChunkSize) == [chunk[i..]];
        chunks := chunks + [chunk[i..Min(next, len)]];
        i := next;
      }
    } else {
      chunks := [chunk];
    }
  }

  /** `ps` carries the numbers 0, 1, 2, ..., opens with an empty packet, and every packet announces more. */
  ghost predicate OpenStream(ps: seq<Packet>) {
    && |ps| >= 1 && ps[0].Part? && ps[0].data == []
    && forall i | 0 <= i < |ps| :: ps[i].Part? && ps[i].num == i && ps[i].more
  }

  function Payload(ps: seq<Packet>): Bytes {
    if ps == [] then [] else if ps[0].Part? then ps[0].data + Payload(ps[1..]) else Payload(ps[1..])
  }

  lemma {:induction false} PayloadConcat(a: seq<Packet>, b: seq<Packet>)
    ensures Payload(a + b) == Payload(a) + Payload(b)
  {
    AppendTail(a, b);
    if a != [] {
      PayloadConcat(a[1..], b);
      if a[0].Part? { Assoc(a[0].data, Payload(a[1..]), Payload(b)); }
    }
  }

  /** All packets of one finished stream: an opening packet, data packets, a closing packet. */
  ghost predicate WholeStream(ps: seq<Packet>) {
    && |ps| >= 2 && ps[0].Part? && ps[0].data == []
    && (forall i | 0 <= i < |ps| :: ps[i].Part? && ps[i].num == i && (ps[i].more <==> i < |ps| - 1))
    && ps[|ps| - 1].data == []
  }

  /** Publishing one more packet: the payload grows by its data. */
  lemma PayloadSnoc(ps: seq<Packet>, p: Packet)
    requires p.Part?
    ensures Payload(ps + [p]) == Payload(ps) + p.data
  {
    PayloadConcat(ps, [p]);
    assert [p][1..] == [];
  }

  /** Data packets for the given pieces, numbered consecutively. */
  function Numbered(from: nat, pieces: seq<Bytes>): seq<Packet>
    decreases |pieces|
  {
    if pieces == [] then [] else [Part(from, true, pieces[0], false)] + Numbered(from + 1, pieces[1..])
  }

  lemma {:induction false} NumberedSnoc(from: nat, pieces: seq<Bytes>, piece: Bytes)
    ensures Numbered(from, pieces + [piece]) == Numbered(from, pieces) + [Part(from + |pieces|, true, piece, false)]
    decreases |pieces|
  {
    if pieces != [] {
      NumberedSnoc(from + 1, pieces[1..], piece);
      assert (pieces + [piece])[1..] == pieces[1..] + [piece];
    }
  }

  lemma {:induction false} NumberedFacts(from: nat, pieces: seq<Bytes>)
    ensures |Numbered(from, pieces)| == |pieces|
    ensures forall i | 0 <= i < |pieces| :: Numbered(from, pieces)[i] == Part(from + i, true, pieces[i], false)
    ensures Payload(Numbered(from, pieces)) == Flatten(pieces)
    decreases |pieces|
  {
    if pieces != [] {
      NumberedFacts(from + 1, pieces[1..]);
    }
  }

  /** Publishing pieces keeps the stream open and adds their bytes. */
  lemma StreamGrows(ps: seq<Packet>, pieces: seq<Bytes>)
    requires OpenStream(ps)
    ensures OpenStream(ps + Numbered(|ps|, pieces))
    ensures Payload(ps + Numbered(|ps|, pieces)) == Payload(ps) + Flatten(pieces)
  {
    NumberedFacts(|ps|, pieces);
    PayloadConcat(ps, Numbered(|ps|, pieces));
  }

  /** The sending side of one streamed request or response. */
  class Sender {
    const maxChunkSize: int
    var num: nat                // payload.seq
    var published: seq<Packet>  // packets handed to the transporter, in order
    ghost var fed: Bytes        // every byte read from the source stream so far
    ghost var closed: bool

    ghost predicate Valid()
      reads this
    {
      && Payload(published) == fed
      && num == |published| - 1
      && if closed then WholeStream(published) else OpenStream(published)
    }

    constructor (maxChunkSize: int)
      ensures Valid() && !closed && fed == [] && this.maxChunkSize == maxChunkSize
      ensures published == [Part(0, true, [], false)]
    {
      this.maxChunkSize := maxChunkSize;
      num := 0;
      published := [Part(0, true, [], false)];
      fed := [];
      closed := false;
    }

    /** A `data` event of the source: the pieces are published without waiting for each other. */
    method Data(chunk: Bytes)
      requires Valid() && !closed
      modifies this
      ensures Valid() && !closed
      ensures fed == old(fed) + chunk
      ensures published == old(published) + Numbered(|old(published)|, Pieces(chunk, maxChunkSize))
    {
      var chunks := CutChunk(chunk, maxChunkSize);
      PiecesLoseNothing(chunk, maxChunkSize);
      StreamGrows(published, chunks);
      Publish(chunks);
      fed := fed + chunk;
    }

    method Publish(chunks: seq<Bytes>)
      requires num + 1 == |published|
      modifies `num, `published
      ensures published == old(published) + Numbered(|old(published)|, chunks)
      ensures num + 1 == |published|
    {
      ghost var before := published;
      for k := 0 to |chunks|
        invariant num + 1 == |published| == |before| + k
        invariant published == before + Numbered(|before|, chunks[..k])
      {
        num := num + 1;
        published := published + [Part(num, true, chunks[k], false)];
        NumberedSnoc(|before|, chunks[..k], chunks[k]);
        assert chunks[..k + 1] == chunks[..k] + [chunks[k]];
      }
      assert chunks[..|chunks|] == chunks;
    }

    /** The `end` and `error` events of the source. */
    method Close(failed: bool)
      requires Valid() && !closed
      modifies this
      ensures Valid() && closed
      ensures fed == old(fed) && WholeStream(published) && Payload(published) == fed
      ensures published == old(published) + [Part(|old(published)|, false, [], failed)]
    {
      num := num + 1;
      var copy := Part(num, false, [], failed);
      PayloadSnoc(published, copy);
      published := published + [copy];
      closed := true;
    }
  }

  // -------------------------------------------------------------- the receiver

  /** What the receiving side does with the stream object it created. */
  datatype Effect =
    | Open                  // handed to the action handler, or resolves the request
    | Write(data: Bytes)
    | Fail
    | End

  /** `$prevSeq` and `$pool` of a stream; `prevSeq` is None when a packet without number was taken. */
  datatype Inbox = Inbox(prevSeq: Option<int>, pool: map<nat, Packet>)

  const NewInbox := Inbox(Some(-1), map[])

  /** Result of taking a packet: the inbox (None once the stream is closed), the effects in order,
      and the pooled packet that is scheduled with setImmediate. */
  datatype Taken = Taken(inbox: Option<Inbox>, effects: seq<Effect>, again: Option<Packet>)

  predicate Early(inbox: Inbox, p: Packet) {
    p.Part? && inbox.prevSeq.Some? && p.num > inbox.prevSeq.value + 1
  }

  function Take(inbox: Inbox, p: Packet): Taken {
    if p.Plain? then Taken(Some(inbox.(prevSeq := None)), [], None)
    else if Early(inbox, p) then Taken(Some(inbox.(pool := inbox.pool[p.num := p])), [], None)
    else if p.num > 0 && !p.more then Taken(None, EffectsOf(p), None)
    else if p.num + 1 in inbox.pool then
      Taken(Some(Inbox(Some(p.num), inbox.pool - {p.num + 1})), EffectsOf(p), Some(inbox.pool[p.num + 1]))
    else Taken(Some(Inbox(Some(p.num), inbox.pool)), EffectsOf(p), None)
  }

  function EffectsOf(p: Packet): seq<Effect> {
    if p.Plain? then []
    else if p.num == 0 then [Open]
    else if p.more then [Write(p.data)]
    else if p.failed then [Fail, End]
    else [End]
  }

  /** One stream seen from the receiver: its inbox, the scheduled re-dispatches, its effects so far. */
  datatype Channel = Channel(inbox: Option<Inbox>, deferred: seq<Packet>, out: seq<Effect>)

  const Idle := Channel(None, [], [])

  predicate StartsNothing(p: Packet) {
    p.Plain? || (!p.more && p.num == 0)
  }

  /** An unmarked packet is no business of the stream. */
  predicate Unmarked(p: Packet) { p.Plain? && !p.marked }

  function Receive(c: Channel, p: Packet): Channel {
    if Unmarked(p) || (c.inbox.None? && StartsNothing(p)) then c
    else
      var t := Take(if c.inbox.Some? then c.inbox.value else NewInbox, p);
      Channel(t.inbox, c.deferred + (if t.again.Some? then [t.again.value] else []), c.out + t.effects)
  }

  /** A re-dispatch scheduled earlier runs. */
  function Redispatch(c: Channel): Channel
    requires c.deferred != []
  {
    Receive(c.(deferred := c.deferred[1..]), c.deferred[0])
  }

  datatype Event = Deliver(i: nat) | Immediate

  /** The channel together with the positions of the packets the network has delivered. */
  datatype Config = Config(channel: Channel, arrived: set<nat>)

  const Start := Config(Idle, {})

  /** The network delivers every packet at most once; re-dispatches run at any time. */
  ghost predicate Enabled(ps: seq<Packet>, s: Config, e: Event) {
    match e
    case Deliver(i) => i < |ps| && i !in s.arrived
    case Immediate => s.channel.deferred != []
  }

  ghost function Next(ps: seq<Packet>, s: Config, e: Event): Config
    requires Enabled(ps, s, e)
  {
    match e
    case Deliver(i) => Config(Receive(s.channel, ps[i]), s.arrived + {i})
    case Immediate => Config(Redispatch(s.channel), s.arrived)
  }

  ghost predicate Run(ps: seq<Packet>, s: Config, es: seq<Event>, t: Config)
    decreases |es|
  {
    if es == [] then s == t
    else Enabled(ps, s, es[0]) && Run(ps, Next(ps, s, es[0]), es[1..], t)
  }

  function EffectsUpTo(ps: seq<Packet>, n: nat): seq<Effect>
    requires n <= |ps|
  {
    if n == 0 then [] else EffectsUpTo(ps, n - 1) + EffectsOf(ps[n - 1])
  }

  ghost predicate AllArrived(ps: seq<Packet>, arrived: set<nat>) {
    forall i: nat :: i in arrived <==> i < |ps|
  }

  /** Packets 0 .. k are taken, k + 1 is scheduled or missing, later ones are pooled or missing. */
  ghost predicate Midway(ps: seq<Packet>, k: int, pool: map<nat, Packet>, scheduled: bool, arrived: set<nat>) {
    && -1 <= k < |ps| - 1
    && (forall i | i in pool :: k + 1 < i < |ps| && pool[i] == ps[i])
    && (forall i: nat :: i in arrived <==> i <= k || (i == k + 1 && scheduled) || i in pool)
  }

  /**
   The receiver's invariant. While the stream is open, exactly these packets have arrived:
   0 .. prevSeq, the one whose re-dispatch is scheduled, and those in the pool.
   */
  ghost predicate Ordered(ps: seq<Packet>, s: Config)
    requires WholeStream(ps)
  {
    match s.channel.inbox
    case None =>
      && s.channel.deferred == []
      && ((s.arrived == {} && s.channel.out == [])
          || (AllArrived(ps, s.arrived) && s.channel.out == EffectsUpTo(ps, |ps|)))
    case Some(Inbox(None, _)) => false
    case Some(Inbox(Some(k), pool)) =>
      && Midway(ps, k, pool, s.channel.deferred != [], s.arrived)
      && (s.channel.deferred == [] || s.channel.deferred == [ps[k + 1]])
      && s.channel.out == EffectsUpTo(ps, k + 1)
  }

  /** A packet that is early joins the pool. */
  lemma EarlyKeepsOrder(ps: seq<Packet>, k: int, pool: map<nat, Packet>, c: Channel, arrived: set<nat>, i: nat)
    requires WholeStream(ps) && k + 1 < i < |ps|
    requires c.inbox == Some(Inbox(Some(k), pool)) && Midway(ps, k, pool, c.deferred != [], arrived)
    requires c.deferred == [] || c.deferred == [ps[k + 1]]
    requires c.out == EffectsUpTo(ps, k + 1)
    ensures Ordered(ps, Config(Receive(c, ps[i]), arrived + {i}))
  {
    var pool' := pool[i := ps[i]];
    assert Receive(c, ps[i]) == Channel(Some(Inbox(Some(k), pool')), c.deferred, c.out);
    assert Midway(ps, k, pool', c.deferred != [], arrived + {i});
    assert i in arrived + {i};
  }

  /** The receiver that waits for packet k + 1 with nothing scheduled. */
  function Awaiting(ps: seq<Packet>, k: int, pool: map<nat, Packet>): Channel
    requires -1 <= k < |ps| - 1
  {
    Channel(Some(Inbox(Some(k), pool)), [], EffectsUpTo(ps, k + 1))
  }

  lemma AllTaken(ps: seq<Packet>, k: int, pool: map<nat, Packet>, arrived: set<nat>)
    requires Midway(ps, k, pool, true, arrived) && k + 1 == |ps| - 1
    ensures AllArrived(ps, arrived)
  {
  }

  lemma LastIsTaken(ps: seq<Packet>, k: int, pool: map<nat, Packet>)
    requires WholeStream(ps) && k + 1 == |ps| - 1
    ensures Receive(Awaiting(ps, k, pool), ps[k + 1]) == Channel(None, [], EffectsUpTo(ps, |ps|))
  {
    var p := ps[k + 1];
    assert p.Part? && p.num == k + 1 && !p.more;
    assert Receive(Awaiting(ps, k, pool), p).deferred == [];
  }

  lemma LastKeepsOrder(ps: seq<Packet>, k: int, pool: map<nat, Packet>, arrived: set<nat>, t: Config)
    requires WholeStream(ps) && Midway(ps, k, pool, true, arrived) && k + 1 == |ps| - 1
    requires t == Config(Receive(Awaiting(ps, k, pool), ps[k + 1]), arrived)
    ensures Ordered(ps, t)
  {
    LastIsTaken(ps, k, pool);
    AllTaken(ps, k, pool, arrived);
  }

  lemma PooledKeepsOrder(ps: seq<Packet>, k: int, pool: map<nat, Packet>, arrived: set<nat>, t: Config)
    requires WholeStream(ps) && Midway(ps, k, pool, true, arrived) && k + 1 < |ps| - 1 && k + 2 in pool
    requires t == Config(Receive(Awaiting(ps, k, pool), ps[k + 1]), arrived)
    ensures Ordered(ps, t)
  {
    var rest := pool - {k + 2};
    assert t.channel == Channel(Some(Inbox(Some(k + 1), rest)), [ps[k + 2]], EffectsUpTo(ps,
        k + 1) + EffectsOf(ps[k + 1]));
    assert Midway(ps, k + 1, rest, true, arrived);
  }

  lemma LoneKeepsOrder(ps: seq<Packet>, k: int, pool: map<nat, Packet>, arrived: set<nat>, t: Config)
    requires WholeStream(ps) && Midway(ps, k, pool, true, arrived) && k + 1 < |ps| - 1 && k + 2 !in pool
    requires t == Config(Receive(Awaiting(ps, k, pool), ps[k + 1]), arrived)
    ensures Ordered(ps, t)
  {
    assert t.channel == Channel(Some(Inbox(Some(k + 1), pool)), [], EffectsUpTo(ps, k + 1) + EffectsOf(ps[k + 1]));
    assert Midway(ps, k + 1, pool, false, arrived);
  }

  /** Taking the packet that follows prevSeq keeps the invariant, whoever hands it over. */
  lemma NextKeepsOrder(ps: seq<Packet>, k: int, pool: map<nat, Packet>, arrived: set<nat>, t: Config)
    requires WholeStream(ps) && Midway(ps, k, pool, true, arrived)
    requires t == Config(Receive(Awaiting(ps, k, pool), ps[k + 1]), arrived)
    ensures Ordered(ps, t)
  {
    if k + 1 == |ps| - 1 {
      LastKeepsOrder(ps, k, pool, arrived, t);
    } else if k + 2 in pool {
      PooledKeepsOrder(ps, k, pool, arrived, t);
    } else {
      LoneKeepsOrder(ps, k, pool, arrived, t);
    }
  }

  lemma InTurnKeepsOrder(ps: seq<Packet>, k: int, pool: map<nat, Packet>, c: Channel, arrived: set<nat>, t: Config)
    requires WholeStream(ps) && k + 1 !in arrived
    requires c.inbox == Some(Inbox(Some(k), pool)) && Midway(ps, k, pool, c.deferred != [], arrived)
    requires c.out == EffectsUpTo(ps, k + 1)
    requires t == Config(Receive(c, ps[k + 1]), arrived + {k + 1})
    ensures Ordered(ps, t)
  {
    assert c == Awaiting(ps, k, pool);
    assert Midway(ps, k, pool, true, arrived + {k + 1});
    NextKeepsOrder(ps, k, pool, arrived + {k + 1}, t);
  }

  lemma DeliverKeepsOrder(ps: seq<Packet>, c: Channel, arrived: set<nat>, i: nat, t: Config)
    requires WholeStream(ps) && i < |ps| && i !in arrived
    requires c.inbox.Some? && Ordered(ps, Config(c, arrived))
    requires t == Config(Receive(c, ps[i]), arrived + {i})
    ensures Ordered(ps, t)
  {
    var Inbox(prev, pool) := c.inbox.value;
    var k := prev.value;
    if i == k + 1 {
      InTurnKeepsOrder(ps, k, pool, c, arrived, t);
    } else {
      assert k + 1 < i;
      EarlyKeepsOrder(ps, k, pool, c, arrived, i);
    }
  }

  lemma ImmediateKeepsOrder(ps: seq<Packet>, c: Channel, arrived: set<nat>, t: Config)
    requires WholeStream(ps) && c.deferred != [] && Ordered(ps, Config(c, arrived))
    requires t == Config(Redispatch(c), arrived)
    ensures Ordered(ps, t)
  {
    var Inbox(prev, pool) := c.inbox.value;
    var k := prev.value;
    assert c.deferred == [ps[k + 1]] && c.deferred[1..] == [];
    assert t == Config(Receive(Awaiting(ps, k, pool), ps[k + 1]), arrived);
    NextKeepsOrder(ps, k, pool, arrived, t);
  }

  lemma FirstKeepsOrder(ps: seq<Packet>, c: Channel, arrived: set<nat>, i: nat, t: Config)
    requires WholeStream(ps) && i < |ps| && i !in arrived
    requires c.inbox.None? && Ordered(ps, Config(c, arrived))
    requires t == Config(Receive(c, ps[i]), arrived + {i})
    ensures Ordered(ps, t)
  {
    assert c == Channel(None, [], []) && arrived == {};
    var began := Channel(Some(NewInbox), [], []);
    assert Receive(c, ps[i]) == Receive(began, ps[i]);
    assert Midway(ps, -1, map[], false, arrived) && EffectsUpTo(ps, 0) == [];
    DeliverKeepsOrder(ps, began, arrived, i, t);
  }

  lemma StepKeepsOrder(ps: seq<Packet>, s: Config, e: Event)
    requires WholeStream(ps) && Ordered(ps, s) && Enabled(ps, s, e)
    ensures Ordered(ps, Next(ps, s, e))
  {
    var c, t := s.channel, Next(ps, s, e);
    match e
    case Immediate => ImmediateKeepsOrder(ps, c, s.arrived, t);
    case Deliver(i) =>
      if c.inbox.Some? {
        DeliverKeepsOrder(ps, c, s.arrived, i, t);
      } else {
        FirstKeepsOrder(ps, c, s.arrived, i, t);
      }
  }

  lemma {:induction false} RunKeepsOrder(ps: seq<Packet>, s: Config, es: seq<Event>, t: Config)
    requires WholeStream(ps) && Ordered(ps, s) && Run(ps, s, es, t)
    ensures Ordered(ps, t)
    decreases |es|
  {
    if es != [] {
      StepKeepsOrder(ps, s, es[0]);
      RunKeepsOrder(ps, Next(ps, s, es[0]), es[1..], t);
    }
  }

  // ------------------------------------------------------------ what the reader sees

  function Written(out: seq<Effect>): Bytes {
    if out == [] then [] else if out[0].Write? then out[0].data + Written(out[1..]) else Written(out[1..])
  }

  lemma {:induction false} WrittenConcat(a: seq<Effect>, b: seq<Effect>)
    ensures Written(a + b) == Written(a) + Written(b)
  {
    AppendTail(a, b);
    if a != [] {
      WrittenConcat(a[1..], b);
      if a[0].Write? { Assoc(a[0].data, Written(a[1..]), Written(b)); }
    }
  }

  function CountOf(out: seq<Effect>, e: Effect): nat {
    if out == [] then 0 else (if out[0] == e then 1 else 0) + CountOf(out[1..], e)
  }

  lemma {:induction false} CountConcat(a: seq<Effect>, b: seq<Effect>, e: Effect)
    ensures CountOf(a + b, e) == CountOf(a, e) + CountOf(b, e)
  {
    AppendTail(a, b);
    if a != [] { CountConcat(a[1..], b, e); }
  }

  lemma EffectsOfOne(p: Packet)
    requires p.Part? && (p.num == 0 || !p.more ==> p.data == [])
    ensures Written(EffectsOf(p)) == p.data
    ensures CountOf(EffectsOf(p), Open) == (if p.num == 0 then 1 else 0)
    ensures CountOf(EffectsOf(p), End) == (if p.num > 0 && !p.more then 1 else 0)
  {
    var e := EffectsOf(p);
    assert |e| == 1 ==> e[1..] == [];
    assert |e| == 2 ==> e[1..] == [End] && [End][1..] == [];
  }

  lemma PayloadUpTo(ps: seq<Packet>, n: nat)
    requires 0 < n <= |ps| && ps[n - 1].Part?
    ensures Payload(ps[..n]) == Payload(ps[..n - 1]) + ps[n - 1].data
  {
    PayloadSnoc(ps[..n - 1], ps[n - 1]);
    assert ps[..n] == ps[..n - 1] + [ps[n - 1]];
  }

  lemma EmptyEnds(ps: seq<Packet>, i: nat)
    requires WholeStream(ps) && i < |ps|
    ensures ps[i].Part? && ps[i].num == i && (i == 0 || !ps[i].more ==> ps[i].data == [])
  {
  }

  lemma {:induction false} EffectsWrite(ps: seq<Packet>, n: nat)
    requires WholeStream(ps) && n <= |ps|
    ensures Written(EffectsUpTo(ps, n)) == Payload(ps[..n])
  {
    if n > 0 {
      EffectsWrite(ps, n - 1);
      EmptyEnds(ps, n - 1);
      EffectsOfOne(ps[n - 1]);
      WrittenConcat(EffectsUpTo(ps, n - 1), EffectsOf(ps[n - 1]));
      PayloadUpTo(ps, n);
    }
  }

  lemma {:induction false} EffectsInOrder(ps: seq<Packet>, n: nat)
    requires WholeStream(ps) && n <= |ps|
    ensures Written(EffectsUpTo(ps, n)) == Payload(ps[..n])
    ensures CountOf(EffectsUpTo(ps, n), Open) == (if n >= 1 then 1 else 0)
    ensures CountOf(EffectsUpTo(ps, n), End) == (if n == |ps| then 1 else 0)
  {
    EffectsWrite(ps, n);
    if n > 0 {
      EffectsInOrder(ps, n - 1);
      var before, p := EffectsUpTo(ps, n - 1), ps[n - 1];
      EffectsOfOne(p);
      CountConcat(before, EffectsOf(p), Open);
      CountConcat(before, EffectsOf(p), End);
    }
  }

  /** What the reader is given before the stream ends: it is opened, then every chunk is written. */
  function Opening(ps: seq<Packet>): seq<Effect>
    requires WholeStream(ps)
  {
    [Open] + seq(|ps| - 2, i requires 0 <= i < |ps| - 2 => Write(ps[i + 1].data))
  }

  /** How the stream ends: with an error first if the sender closed it with one. */
  function Closing(ps: seq<Packet>): seq<Effect>
    requires WholeStream(ps)
  {
    if ps[|ps| - 1].failed then [Fail, End] else [End]
  }

  /** The reader has seen a beginning of the stream, or all of it and its end. */
  ghost predicate SeenInOrder(ps: seq<Packet>, out: seq<Effect>)
    requires WholeStream(ps)
  {
    out <= Opening(ps) || out == Opening(ps) + Closing(ps)
  }

  lemma {:induction false} EffectsOpen(ps: seq<Packet>, n: nat)
    requires WholeStream(ps) && n < |ps|
    ensures EffectsUpTo(ps, n) == Opening(ps)[..n]
  {
    if n > 0 {
      EffectsOpen(ps, n - 1);
      EmptyEnds(ps, n - 1);
      assert Opening(ps)[..n] == Opening(ps)[..n - 1] + [Opening(ps)[n - 1]];
    }
  }

  lemma EffectsClose(ps: seq<Packet>)
    requires WholeStream(ps)
    ensures EffectsUpTo(ps, |ps|) == Opening(ps) + Closing(ps)
  {
    EffectsOpen(ps, |ps| - 1);
    EmptyEnds(ps, |ps| - 1);
    assert Opening(ps)[..|ps| - 1] == Opening(ps);
  }

  lemma {:induction false} NoneIn(out: seq<Effect>, e: Effect)
    requires e !in out
    ensures CountOf(out, e) == 0
  {
    if out != [] { NoneIn(out[1..], e); }
  }

  /** The reader learns of a failure when the stream ends, just before the end, and only if it was closed with one. */
  ghost predicate FailureTold(ps: seq<Packet>, out: seq<Effect>)
    requires WholeStream(ps)
  {
    if CountOf(out, End) == 0 || !ps[|ps| - 1].failed then CountOf(out, Fail) == 0
    else CountOf(out, Fail) == 1 && |out| >= 2 && out[|out| - 2..] == [Fail, End]
  }

  lemma ClosingCounts(ps: seq<Packet>)
    requires WholeStream(ps)
    ensures CountOf(Closing(ps), End) == 1 && CountOf(Closing(ps), Fail) == if ps[|ps| - 1].failed then 1 else 0
  {
    assert [End][1..] == [] && [Fail, End][1..] == [End];
  }

  lemma SeenMeansTold(ps: seq<Packet>, out: seq<Effect>)
    requires WholeStream(ps) && SeenInOrder(ps, out)
    ensures FailureTold(ps, out)
    ensures CountOf(out, End) == if out == Opening(ps) + Closing(ps) then 1 else 0
  {
    var all := Opening(ps) + Closing(ps);
    NoneIn(Opening(ps), Fail);
    NoneIn(Opening(ps), End);
    if out == all {
      ClosingCounts(ps);
      CountConcat(Opening(ps), Closing(ps), Fail);
      CountConcat(Opening(ps), Closing(ps), End);
      assert all[|Opening(ps)|..] == Closing(ps);
    } else {
      NoneIn(out, Fail);
      NoneIn(out, End);
    }
  }

  lemma PrefixOfPayload(ps: seq<Packet>, n: nat)
    requires n <= |ps|
    ensures Payload(ps[..n]) <= Payload(ps)
  {
    assert ps == ps[..n] + ps[n..];
    PayloadConcat(ps[..n], ps[n..]);
    StartsWith(Payload(ps[..n]), Payload(ps[n..]));
  }

  lemma StartsWith<T>(a: seq<T>, b: seq<T>)
    ensures a <= a + b
  {
  }

  lemma AllMeansNoneMissing(ps: seq<Packet>, k: int, pool: map<nat, Packet>, arrived: set<nat>)
    requires AllArrived(ps, arrived)
    ensures !Midway(ps, k, pool, false, arrived)
  {
    if -1 <= k < |ps| - 1 {
      assert k + 1 in arrived;
    }
  }

  lemma SeenUpTo(ps: seq<Packet>, n: nat)
    requires WholeStream(ps) && n <= |ps|
    ensures SeenInOrder(ps, EffectsUpTo(ps, n)) && FailureTold(ps, EffectsUpTo(ps, n))
  {
    if n < |ps| { EffectsOpen(ps, n); } else { EffectsClose(ps); }
    SeenMeansTold(ps, EffectsUpTo(ps, n));
  }

  /** What the receiver's invariant says about the bytes that were handed out. */
  lemma OrderedMeansPrefix(ps: seq<Packet>, t: Config)
    requires WholeStream(ps) && Ordered(ps, t)
    ensures Written(t.channel.out) <= Payload(ps)
    ensures CountOf(t.channel.out, Open) <= 1
    ensures CountOf(t.channel.out, End) <= 1
    ensures CountOf(t.channel.out, End) == 1 ==> Written(t.channel.out) == Payload(ps)
    ensures AllArrived(ps, t.arrived) && t.channel.deferred == [] ==>
              && Written(t.channel.out) == Payload(ps)
              && CountOf(t.channel.out, Open) == 1 && CountOf(t.channel.out, End) == 1
              && t.channel.inbox.None?
    ensures SeenInOrder(ps, t.channel.out) && FailureTold(ps, t.channel.out)
  {
    var n := match t.channel.inbox
             case Some(inbox) => inbox.prevSeq.value + 1
             case None => if t.arrived == {} && t.channel.out == [] then 0 else |ps|;
    assert t.channel.out == EffectsUpTo(ps, n);
    EffectsInOrder(ps, n);
    PrefixOfPayload(ps, n);
    SeenUpTo(ps, n);
    assert ps[..|ps|] == ps;
    if AllArrived(ps, t.arrived) && t.channel.deferred == [] {
      assert 0 in t.arrived;
      if t.channel.inbox.Some? {
        AllMeansNoneMissing(ps, t.channel.inbox.value.prevSeq.value, t.channel.inbox.value.pool, t.arrived);
      }
    }
  }

  /**
   In every run, whatever the order of arrival, the reader has been given a prefix of the
   sender's bytes, the stream has been opened at most once and ended at most once. In detail: it is
   opened, the chunks are written in order, and it ends; an error comes directly before the end if
   and only if the sender closed the stream with one, and never earlier.
   */
  lemma AlwaysAPrefix(ps: seq<Packet>, es: seq<Event>, t: Config)
    requires WholeStream(ps) && Run(ps, Start, es, t)
    ensures Written(t.channel.out) <= Payload(ps)
    ensures CountOf(t.channel.out, Open) <= 1
    ensures CountOf(t.channel.out, End) <= 1
    ensures CountOf(t.channel.out, End) == 1 ==> Written(t.channel.out) == Payload(ps)
    ensures SeenInOrder(ps, t.channel.out) && FailureTold(ps, t.channel.out)
  {
    RunKeepsOrder(ps, Start, es, t);
    OrderedMeansPrefix(ps, t);
  }

  /** Once every packet has arrived and no re-dispatch is left, the stream is complete and closed. */
  lemma CompleteOnceDrained(ps: seq<Packet>, es: seq<Event>, t: Config)
    requires WholeStream(ps) && Run(ps, Start, es, t)
    requires AllArrived(ps, t.arrived) && t.channel.deferred == []
    ensures Written(t.channel.out) == Payload(ps)
    ensures CountOf(t.channel.out, Open) == 1 && CountOf(t.channel.out, End) == 1
    ensures CountOf(t.channel.out, Fail) == if ps[|ps| - 1].failed then 1 else 0
    ensures t.channel.out == Opening(ps) + Closing(ps)
    ensures t.channel.inbox.None?
  {
    RunKeepsOrder(ps, Start, es, t);
    OrderedMeansPrefix(ps, t);
    SeenMeansTold(ps, t.channel.out);
  }

  /**
   In every run the receiver writes a prefix of the data, and all of it once it is drained. The reader
   is told of a failure, once and at the end, if and only if there was one.
   */
  ghost predicate Delivers(ps: seq<Packet>, data: Bytes, failed: bool) {
    && (forall es, t :: Run(ps, Start, es, t) ==>
          && Written(t.channel.out) <= data
          && CountOf(t.channel.out, Fail) == if failed && CountOf(t.channel.out, End) > 0 then 1 else 0)
    && (forall es, t :: Run(ps, Start, es, t) && AllArrived(ps, t.arrived) && t.channel.deferred == [] ==>
          && Written(t.channel.out) == data
          && CountOf(t.channel.out, End) == 1 && CountOf(t.channel.out, Fail) == if failed then 1 else 0)
  }

  lemma StreamsDeliver(ps: seq<Packet>)
    requires WholeStream(ps)
    ensures Delivers(ps, Payload(ps), ps[|ps| - 1].failed)
  {
    var failed := ps[|ps| - 1].failed;
    forall es, t | Run(ps, Start, es, t)
      ensures Written(t.channel.out) <= Payload(ps)
      ensures CountOf(t.channel.out, Fail) == if failed && CountOf(t.channel.out, End) > 0 then 1 else 0
    {
      AlwaysAPrefix(ps, es, t);
    }
    forall es, t | Run(ps, Start, es, t) && AllArrived(ps, t.arrived) && t.channel.deferred == []
      ensures Written(t.channel.out) == Payload(ps)
      ensures CountOf(t.channel.out, End) == 1 && CountOf(t.channel.out, Fail) == if failed then 1 else 0
    {
      CompleteOnceDrained(ps, es, t);
    }
  }

  predicate SmallParts(ps: seq<Packet>, max: int) { forall p <- ps :: p.Part? && |p.data| <= max }

  lemma SmallPieces(from: nat, chunk: Bytes, max: int)
    requires max > 0
    ensures SmallParts(Numbered(from, Pieces(chunk, max)), max)
  {
    PiecesLoseNothing(chunk, max);
    NumberedFacts(from, Pieces(chunk, max));
  }

  /** The data events of a source, one after the other. */
  method FeedAll(sender: Sender, chunks: seq<Bytes>)
    requires sender.Valid() && !sender.closed && sender.fed == []
    requires sender.maxChunkSize > 0 ==> SmallParts(sender.published, sender.maxChunkSize)
    modifies sender
    ensures sender.Valid() && !sender.closed && sender.fed == Flatten(chunks)
    ensures sender.maxChunkSize > 0 ==> SmallParts(sender.published, sender.maxChunkSize)
  {
    for k := 0 to |chunks|
      invariant sender.Valid() && !sender.closed && sender.fed == Flatten(chunks[..k])
      invariant sender.maxChunkSize > 0 ==> SmallParts(sender.published, sender.maxChunkSize)
    {
      FlattenSnoc(chunks[..k], chunks[k]);
      assert chunks[..k + 1] == chunks[..k] + [chunks[k]];
      if sender.maxChunkSize > 0 { SmallPieces(|sender.published|, chunks[k], sender.maxChunkSize); }
      sender.Data(chunks[k]);
    }
    assert chunks[..|chunks|] == chunks;
  }

  /** Sending side and receiving side together, for any chunks and any size limit. */
  method SendAll(chunks: seq<Bytes>, maxChunkSize: int, failed: bool) returns (ps: seq<Packet>)
    ensures WholeStream(ps) && Payload(ps) == Flatten(chunks)
    ensures maxChunkSize > 0 ==> SmallParts(ps, maxChunkSize)
    ensures Delivers(ps, Flatten(chunks), failed)
  {
    var sender := new Sender(maxChunkSize);
    FeedAll(sender, chunks);
    sender.Close(failed);
    ps := sender.published;
    StreamsDeliver(ps);
  }

  ghost function Waiting(c: Channel): nat {
    |c.deferred| + (if c.inbox.Some? then |c.inbox.value.pool| else 0)
  }

  /** Draining ends: from any reachable point where all packets have arrived, running the
      scheduled re-dispatches leads to the drained state in at most `Waiting` steps. */
  lemma {:induction false} DrainTerminates(ps: seq<Packet>, s: Config) returns (es: seq<Event>, t: Config)
    requires WholeStream(ps) && Ordered(ps, s) && AllArrived(ps, s.arrived)
    ensures Run(ps, s, es, t) && t.channel.deferred == [] && t.arrived == s.arrived
    ensures |es| <= Waiting(s.channel)
    decreases Waiting(s.channel)
  {
    if s.channel.deferred == [] {
      es, t := [], s;
    } else {
      var s' := Next(ps, s, Immediate);
      StepKeepsOrder(ps, s, Immediate);
      var inbox := s.channel.inbox.value;
      assert s.channel.deferred[1..] == [];
      if inbox.prevSeq.value + 2 in inbox.pool {
        assert |inbox.pool - {inbox.prevSeq.value + 2}| == |inbox.pool| - 1 by {
          var rest := inbox.pool - {inbox.prevSeq.value + 2};
          assert rest.Keys == inbox.pool.Keys - {inbox.prevSeq.value + 2};
          assert |rest| == |rest.Keys| && |inbox.pool| == |inbox.pool.Keys|;
        }
      }
      var rest;
      rest, t := DrainTerminates(ps, s');
      es := [Immediate] + rest;
      assert es[1..] == rest;
    }
  }

  // ------------------------------------------------------------- packets without number

  /** A marked packet without a number loses the count: the next data packet is taken, whatever its number. */
  lemma UnnumberedLosesCount(c: Channel, failed: bool, num: nat, data: Bytes)
    requires c.inbox.Some? && num > 0
    ensures var d := Receive(c, Plain(true, failed));
            && d.out == c.out && d.deferred == c.deferred && d.inbox.Some?
            && Receive(d, Part(num, true, data, false)).out == c.out + [Write(data)]
  {
    var d := Receive(c, Plain(true, failed));
    assert d == Channel(Some(Inbox(None, c.inbox.value.pool)), c.deferred + [], c.out + []);
    assert c.deferred + [] == c.deferred && c.out + [] == c.out;
  }

  // ------------------------------------------------------------------- replayed packets

  /**
   Exactly-once delivery is needed. In a reachable state a second copy of a packet that has
   already arrived keeps the receiver's invariant if and only if the first copy is still pooled.
   */
  lemma ReplayHarmlessIffPooled(ps: seq<Packet>, s: Config, i: nat)
    requires WholeStream(ps) && Ordered(ps, s) && i < |ps| && i in s.arrived
    ensures Ordered(ps, s.(channel := Receive(s.channel, ps[i]))) <==>
              s.channel.inbox.Some? && i in s.channel.inbox.value.pool
  {
    var t := s.(channel := Receive(s.channel, ps[i]));
    match s.channel.inbox
    case None => ReplayAfterEnd(ps, s, i);
    case Some(inbox) =>
      if i in inbox.pool {
        assert inbox.pool[i := ps[i]] == inbox.pool;
      } else {
        ReplayInStream(ps, s, i);
      }
  }

  /** After the end a copy opens a new inbox (or re-opens the stream) next to the recorded End. */
  lemma ReplayAfterEnd(ps: seq<Packet>, s: Config, i: nat)
    requires WholeStream(ps) && Ordered(ps, s) && i < |ps| && i in s.arrived && s.channel.inbox.None?
    ensures !Ordered(ps, s.(channel := Receive(s.channel, ps[i])))
  {
    var t := s.(channel := Receive(s.channel, ps[i]));
    EffectsInOrder(ps, |ps|);
    assert t.channel.out == s.channel.out + t.channel.out[|s.channel.out|..];
    CountConcat(s.channel.out, t.channel.out[|s.channel.out|..], End);
    assert t.channel.inbox.Some?;
    var n := if t.channel.inbox.value.prevSeq.Some? then t.channel.inbox.value.prevSeq.value + 1 else 0;
    if 0 <= n < |ps| { EffectsInOrder(ps, n); }
  }

  /** In an open stream a copy either moves prevSeq back or is taken next to its scheduled twin. */
  lemma ReplayInStream(ps: seq<Packet>, s: Config, i: nat)
    requires WholeStream(ps) && Ordered(ps, s) && i < |ps| && i in s.arrived
    requires s.channel.inbox.Some? && i !in s.channel.inbox.value.pool
    ensures !Ordered(ps, s.(channel := Receive(s.channel, ps[i])))
  {
    if i <= s.channel.inbox.value.prevSeq.value {
      ReplayOfTaken(ps, s, i);
    } else {
      ReplayOfScheduled(ps, s, i);
    }
  }

  lemma ReplayOfTaken(ps: seq<Packet>, s: Config, i: nat)
    requires WholeStream(ps) && Ordered(ps, s) && s.channel.inbox.Some? && i <= s.channel.inbox.value.prevSeq.value
    ensures i < |ps| && !Ordered(ps, s.(channel := Receive(s.channel, ps[i])))
  {
    var Inbox(prev, pool) := s.channel.inbox.value;
    var t := Receive(s.channel, ps[i]);
    LongerThan(ps, i + 1, prev.value + 1);
    assert t.inbox.Some? && t.inbox.value.prevSeq == Some(i);
    assert t.out == s.channel.out + EffectsOf(ps[i]);
    assert |t.out| > |EffectsUpTo(ps, i + 1)|;
  }

  lemma ReplayOfScheduled(ps: seq<Packet>, s: Config, i: nat)
    requires WholeStream(ps) && Ordered(ps, s) && i < |ps| && s.channel.inbox.Some?
    requires i == s.channel.inbox.value.prevSeq.value + 1 && s.channel.deferred == [ps[i]]
    ensures !Ordered(ps, s.(channel := Receive(s.channel, ps[i])))
  {
    var t := Receive(s.channel, ps[i]);
    assert |t.deferred| >= 1 && t.deferred[0] == ps[i];
  }

  lemma {:induction false} LongerThan(ps: seq<Packet>, m: nat, n: nat)
    requires m <= n <= |ps|
    ensures |EffectsUpTo(ps, m)| <= |EffectsUpTo(ps, n)|
  {
    if m < n { LongerThan(ps, m, n - 1); }
  }

  /** A replay at work: the receiver of a one-chunk stream writes the chunk twice. */
  lemma ReplayWritesTwice(data: Bytes)
    ensures
      var c := Receive(Receive(Receive(Idle, Part(0, true, [], false)), Part(1, true, data, false)), Part(1, true,
          data, false));
      Written(c.out) == data + data
  {
    var c1 := Receive(Idle, Part(0, true, [], false));
    var c2 := Receive(c1, Part(1, true, data, false));
    var c3 := Receive(c2, Part(1, true, data, false));
    assert c1.out == [Open];
    assert c2.out == [Open, Write(data)];
    assert c3.out == [Open, Write(data), Write(data)];
    WrittenConcat([Open], [Write(data)]);
    WrittenConcat([Open, Write(data)], [Write(data)]);
    assert Written([Write(data)]) == data + Written([]) == data;
    assert Written([Open]) == [];
    assert [Open] + [Write(data)] == [Open, Write(data)];
    assert [Open, Write(data)] + [Write(data)] == [Open, Write(data), Write(data)];
  }
}
