/**
 * One direction of a connection in the ready stage: the sender packs and queues messages, the
 * socket takes them in pieces, the receiver gets the octets in any chunks, cuts and pops them.
 */
module EndToEnd {
  import opened Bytes
  import opened Sequences
  import opened SizePack
  import opened DataQueue
  import opened Lowlevel
  import W = WriteQueue

  // ---- the receiver ------------------------------------------------------------------------

  datatype Receiver = Receiver(codec: Codec, buffer: seq<byte>, messages: seq<seq<byte>>,
                               delivered: seq<seq<byte>>, open: bool)

  /** One chunk: a parse error or a bad message closes the connection. */
  function Receive(r: Receiver, max: uint32, chunk: seq<byte>): Receiver {
    if !r.open || chunk == [] then r
    else
      var p := Parse(Varint, max, r.buffer + chunk);
      if p.verdict != Fine then
        Receiver(r.codec, p.rest, r.messages + p.messages, r.delivered, false)
      else if p.messages == [] then r.(buffer := p.rest)
      else
        var q := PopAll(r.codec, r.messages + p.messages);
        Receiver(q.codec, p.rest, q.rest, r.delivered + q.payloads, q.ok)
  }

  /** The read handler of a ready connection. */
  method ReadHandler(protocol: Protocol, chunk: seq<byte>, ghost r: Receiver)
    returns (payloads: seq<seq<byte>>, open: bool)
    requires protocol.queue.policy == Varint
    requires r.open && r.codec == protocol.Receiving()
    requires r.buffer == protocol.queue.data && r.messages == protocol.queue.messages
    modifies protocol`revertor, protocol.queue
    ensures Receive(r, old(protocol.queue.maximum), chunk)
            == Receiver(protocol.Receiving(), protocol.queue.data, protocol.queue.messages,
                        r.delivered + payloads, open)
  {
    payloads := [];
    var verdict, notify := protocol.ProcessData(chunk);
    if verdict != Fine {
      open := false;
    } else if notify {
      payloads, open := protocol.DispatchAll();
    } else {
      open := true;
    }
    assert payloads == [] ==> r.delivered + payloads == r.delivered;
  }

  // ---- the system --------------------------------------------------------------------------

  datatype System = System(tx: Codec, w: W.Config, payloads: seq<seq<byte>>,
                           received: seq<byte>, wire: seq<byte>, rx: Receiver)

  datatype Step =
    | Send(payload: seq<byte>, closure: W.Closure)
    | Accept(bytes: nat)
    | WriteError
    | Close
    | Arrive(bytes: nat)

  /** Both sides start in the same state, whatever it is, with nothing in flight. */
  function Start(c: Codec): System {
    System(c, W.INITIAL, [], [], [], Receiver(c, [], [], [], true))
  }

  /** One step; one that cannot happen leaves the system as it is. */
  function Next(s: System, max: uint32, step: Step): System {
    match step
    case Send(payload, closure) =>
      if |s.tx.Seal(payload)| >= WORD then s
      else
        var post := W.Post(s.tx.Packed(payload), closure);
        if !W.Enabled(s.w, post) then s
        else s.(tx := s.tx.After(|s.tx.Seal(payload)|), w := W.Next(s.w, post), payloads := s.payloads + [payload])
    case Accept(bytes) =>
      if !W.Enabled(s.w, W.Accept(bytes)) then s
      else s.(w := W.Next(s.w, W.Accept(bytes)), wire := s.wire + W.Taken(s.w, bytes))
    case WriteError => if W.Enabled(s.w, W.Fail) then s.(w := W.Next(s.w, W.Fail)) else s
    case Close => s.(w := W.Next(s.w, W.Close))
    case Arrive(bytes) =>
      if bytes > |s.wire| then s
      else s.(received := s.received + s.wire[..bytes], wire := s.wire[bytes..],
              rx := Receive(s.rx, max, s.wire[..bytes]))
  }

  function Exec(s: System, max: uint32, steps: seq<Step>): System
    decreases |steps|
  {
    if steps == [] then s else Exec(Next(s, max, steps[0]), max, steps[1..])
  }

  // ---- what every run keeps ----------------------------------------------------------------

  predicate PayloadFits(c: Codec, max: uint32, payload: seq<byte>) {
    c.hasher.Size() + |payload| <= max
  }

  ghost predicate AllFit(c: Codec, max: uint32, payloads: seq<seq<byte>>) {
    forall k :: 0 <= k < |payloads| ==> PayloadFits(c, max, payloads[k])
  }

  /** The sender is `c` moved on by what it sent, and what it queued are exactly those frames. */
  ghost predicate SenderRight(c: Codec, s: System) {
    && W.Inv(s.w)
    && s.tx == c.Advanced(s.payloads)
    && Sendable(c.Bodies(s.payloads))
    && Flatten(W.Messages(s.w.posted)) == Frames(Varint, c.Bodies(s.payloads))
  }

  /** What was popped is a prefix of what was sent, and every one of those fits. */
  ghost predicate InOrder(c: Codec, max: uint32, s: System) {
    && s.rx.delivered <= s.payloads
    && AllFit(c, max, s.rx.delivered)
  }

  /** Sent and not popped yet. */
  function Pending(s: System): seq<seq<byte>>
    requires |s.rx.delivered| <= |s.payloads|
  {
    s.payloads[|s.rx.delivered|..]
  }

  /** The octets still to be parsed, wherever they are. */
  function Outstanding(s: System): seq<byte> {
    s.rx.buffer + s.wire + W.Remaining(s.w)
  }

  /**
   * While the receiver is open its cipher is where the sender's was after the messages popped, and
   * the octets on the way are exactly the frames of the others, none of which is whole in the buffer.
   */
  ghost predicate Lockstep(c: Codec, max: uint32, s: System) {
    && |s.rx.delivered| <= |s.payloads|
    && s.rx.codec == c.Advanced(s.rx.delivered)
    && s.rx.messages == []
    && Outstanding(s) == Frames(Varint, s.rx.codec.Bodies(Pending(s)))
    && Parse(Varint, max, s.rx.buffer) == Parsed([], s.rx.buffer, Fine)
  }

  ghost predicate Inv(c: Codec, max: uint32, s: System) {
    && SenderRight(c, s)
    && InOrder(c, max, s)
    && (s.rx.open ==> Lockstep(c, max, s))
    && (!s.rx.open ==> s.rx.codec == c.Advanced(s.rx.delivered) && !AllFit(c, max, s.payloads))
  }

  // ---- proofs ------------------------------------------------------------------------------

  lemma SameHasher(c: Codec, payloads: seq<seq<byte>>)
    ensures c.Advanced(payloads).hasher == c.hasher
    decreases |payloads|
  {
    if payloads != [] {
      SameHasher(c.After(|c.Seal(payloads[0])|), payloads[1..]);
    }
  }

  lemma FramesOne(p: Policy, body: seq<byte>)
    ensures Frames(p, [body]) == Frame(p, body)
  {
    assert [body][1..] == [];
    EmptyRight(Frame(p, body));
  }

  /** One more message at the end of a run of frames. */
  lemma OneMoreFrame(c: Codec, payloads: seq<seq<byte>>, payload: seq<byte>)
    ensures var t := c.Advanced(payloads);
            c.Bodies(payloads + [payload]) == c.Bodies(payloads) + [t.Seal(payload)]
            && c.Advanced(payloads + [payload]) == t.After(|t.Seal(payload)|)
            && Frames(Varint, c.Bodies(payloads + [payload])) == Frames(Varint, c.Bodies(payloads)) + t.Packed(payload)
  {
    hide Codec.Seal, Codec.After;
    var t := c.Advanced(payloads);
    c.AdvancedConcat(payloads, [payload]);
    assert [payload][1..] == [];
    assert t.Bodies([payload]) == [t.Seal(payload)];
    FramesConcat(Varint, c.Bodies(payloads), [t.Seal(payload)]);
    FramesOne(Varint, t.Seal(payload));
  }

  lemma PostAppends(w: W.Config, post: W.Step)
    requires W.Inv(w) && post.Post? && W.Enabled(w, post)
    ensures W.Inv(W.Next(w, post))
    ensures Flatten(W.Messages(W.Next(w, post).posted)) == Flatten(W.Messages(w.posted)) + post.message
    ensures W.Remaining(W.Next(w, post)) == W.Remaining(w) + post.message
    ensures W.Next(w, post).accepted == w.accepted
  {
    W.Kept(w, post);
    var n := W.Next(w, post);
    var h := W.Holder(|w.posted|, post.message, post.closure);
    W.MessagesConcat(w.posted, [h]);
    assert W.Messages([h]) == [post.message];
    FlattenConcat(W.Messages(w.posted), [post.message]);
    FlattenOne(post.message);
    Assoc(w.accepted, W.Remaining(w), post.message);
    SamePrefix(w.accepted, W.Remaining(n), W.Remaining(w) + post.message);
  }

  lemma SplitPending(c: Codec, s: System)
    requires s.rx.delivered <= s.payloads
    ensures s.payloads == s.rx.delivered + Pending(s)
    ensures c.Advanced(s.payloads) == c.Advanced(s.rx.delivered).Advanced(Pending(s))
    ensures c.Bodies(s.payloads) == c.Bodies(s.rx.delivered) + c.Advanced(s.rx.delivered).Bodies(Pending(s))
  {
    hide Codec.Advanced, Codec.Bodies;
    SplitAt(s.payloads, |s.rx.delivered|);
    c.AdvancedConcat(s.rx.delivered, Pending(s));
  }

  lemma SendKeeps(c: Codec, max: uint32, s: System, payload: seq<byte>, closure: W.Closure)
    requires Inv(c, max, s)
    ensures Inv(c, max, Next(s, max, Send(payload, closure)))
  {
    hide Codec.Seal, Codec.After, Codec.Advanced, Codec.Bodies, W.Inv, W.Enabled, W.Next, Parse, Frame;
    hide W.Remaining, Frames, Flatten, Receive;
    var n := Next(s, max, Send(payload, closure));
    if n != s {
      var post := W.Post(s.tx.Packed(payload), closure);
      PostAppends(s.w, post);
      OneMoreFrame(c, s.payloads, payload);
      if s.rx.open {
        SplitPending(c, s);
        OneMoreFrame(s.rx.codec, Pending(s), payload);
        DropConcat(s.payloads, [payload], |s.rx.delivered|);
        Assoc(s.rx.buffer + s.wire, W.Remaining(s.w), post.message);
      } else {
        var k :| 0 <= k < |s.payloads| && !PayloadFits(c, max, s.payloads[k]);
        assert n.payloads[k] == s.payloads[k];
      }
    }
  }

  lemma AcceptKeeps(c: Codec, max: uint32, s: System, bytes: nat)
    requires Inv(c, max, s)
    ensures Inv(c, max, Next(s, max, Accept(bytes)))
  {
    hide W.Remaining, W.Taken, W.Enabled, W.Shape, W.Progress, W.Conserved, W.SendsOnce, W.PostsAtOnce, Parse, Frames;
    var n := Next(s, max, Accept(bytes));
    if n != s {
      W.Kept(s.w, W.Accept(bytes));
      W.AcceptTakes(s.w, bytes);
      var taken, rest := W.Taken(s.w, bytes), W.Remaining(n.w);
      Assoc(s.rx.buffer, s.wire, taken);
      Assoc(s.rx.buffer + s.wire, taken, rest);
    }
  }

  lemma SendableSuffix(a: seq<seq<byte>>, b: seq<seq<byte>>)
    requires Sendable(a + b)
    ensures Sendable(b)
  {
    forall k | 0 <= k < |b| ensures |b[k]| < WORD {
      assert (a + b)[|a| + k] == b[k];
    }
  }

  /** The bodies cut from a stream in the receiver's state pop as their payloads, all of which fit. */
  lemma PopPrefix(c: Codec, max: uint32, pending: seq<seq<byte>>, m: nat)
    requires m <= |pending| && Fits(max, c.Bodies(pending)[..m])
    ensures AllFit(c, max, pending[..m])
    ensures PopAll(c, c.Bodies(pending)[..m]) == Popped(pending[..m], c.Advanced(pending[..m]), [], true)
    ensures c.Bodies(pending)[m..] == c.Advanced(pending[..m]).Bodies(pending[m..])
  {
    hide Codec.Seal, Codec.Bodies, PopAll;
    var taken, left := pending[..m], pending[m..];
    var bodies := c.Bodies(pending);
    SplitAt(pending, m);
    c.AdvancedConcat(taken, left);
    assert bodies[..m] == c.Bodies(taken) && bodies[m..] == c.Advanced(taken).Bodies(left);
    PopAllBodies(c, taken);
    forall k | 0 <= k < m ensures PayloadFits(c, max, taken[k]) {
      c.BodyAt(taken, k);
      assert bodies[..m][k] == c.Bodies(taken)[k];
    }
  }

  /** A receiver that stays open pops the first `m` of the messages pending and keeps the rest of the octets. */
  ghost predicate Brings(r: Receiver, n: Receiver, max: uint32, after: seq<byte>, pending: seq<seq<byte>>, m: nat) {
    && m <= |pending| && AllFit(r.codec, max, pending[..m])
    && n.delivered == r.delivered + pending[..m] && n.codec == r.codec.Advanced(pending[..m])
    && n.messages == [] && n.buffer + after == Frames(Varint, n.codec.Bodies(pending[m..]))
    && Parse(Varint, max, n.buffer) == Parsed([], n.buffer, Fine)
  }

  /** What a chunk brings when the buffer, the chunk and the rest together are frames from the receiver's state. */
  lemma ReceiveFrames(r: Receiver, max: uint32, chunk: seq<byte>, after: seq<byte>, pending: seq<seq<byte>>)
    requires r.open && r.messages == [] && chunk != []
    requires Sendable(r.codec.Bodies(pending))
    requires r.buffer + chunk + after == Frames(Varint, r.codec.Bodies(pending))
    ensures var n := Receive(r, max, chunk);
            if n.open then exists m: nat :: Brings(r, n, max, after, pending, m)
            else n.delivered == r.delivered && n.codec == r.codec && !AllFit(r.codec, max, pending)
  {
    hide Codec.Seal, Codec.Bodies, Parse, Frames, PopAll, AllFit, Fits, Sendable;
    var bodies := r.codec.Bodies(pending);
    var data := r.buffer + chunk;
    var s := Frames(Varint, bodies);
    SplitConcat(data, after);
    ParsePrefix(Varint, max, bodies, |data|);
    ParseSettles(Varint, max, data);
    var p := Parse(Varint, max, data);
    var m := |p.messages|;
    EmptyLeft(p.messages);
    if p.verdict == Fine {
      PopPrefix(r.codec, max, pending, m);
      EmptyRight(r.delivered);
      assert Brings(r, Receive(r, max, chunk), max, after, pending, m);
    } else {
      TooLong(r.codec, max, pending, m);
    }
  }

  lemma TooLong(c: Codec, max: uint32, pending: seq<seq<byte>>, m: nat)
    requires m < |pending| && |c.Bodies(pending)[m]| > max
    ensures !AllFit(c, max, pending)
  {
    hide Codec.Bodies;
    c.BodyAt(pending, m);
    assert !PayloadFits(c, max, pending[m]);
  }

  lemma ArriveKeeps(c: Codec, max: uint32, s: System, bytes: nat)
    requires Inv(c, max, s)
    ensures Inv(c, max, Next(s, max, Arrive(bytes)))
  {
    hide Codec.Seal, W.Inv, Parse, Frames, W.Remaining, Receive, Codec.Bodies;
    var n := Next(s, max, Arrive(bytes));
    if bytes <= |s.wire| && s.rx.open {
      var chunk := s.wire[..bytes];
      SplitAt(s.wire, bytes);
      if chunk == [] {
        assert n.rx == s.rx by { EmptyChunk(s.rx, max); }
        assert n.wire == s.wire;
      } else {
        var after := n.wire + W.Remaining(s.w);
        Assoc(s.rx.buffer, chunk, n.wire);
        Assoc(s.rx.buffer + chunk, n.wire, W.Remaining(s.w));
        SplitPending(c, s);
        SendableSuffix(c.Bodies(s.rx.delivered), s.rx.codec.Bodies(Pending(s)));
        SameHasher(c, s.rx.delivered);
        ReceiveFrames(s.rx, max, chunk, after, Pending(s));
        if n.rx.open {
          var m: nat :| Brings(s.rx, n.rx, max, after, Pending(s), m);
          ArriveOpen(c, max, s, n, after, m);
        } else {
          var k :| 0 <= k < |Pending(s)| && !PayloadFits(s.rx.codec, max, Pending(s)[k]);
          assert s.payloads[|s.rx.delivered| + k] == Pending(s)[k];
          assert !PayloadFits(c, max, s.payloads[|s.rx.delivered| + k]);
        }
      }
    } else if bytes <= |s.wire| {
      ClosedReceiver(s.rx, max, s.wire[..bytes]);
    }
  }

  lemma EmptyChunk(r: Receiver, max: uint32)
    ensures Receive(r, max, []) == r
  {
  }

  lemma ClosedReceiver(r: Receiver, max: uint32, chunk: seq<byte>)
    requires !r.open
    ensures Receive(r, max, chunk) == r
  {
  }

  lemma MoreFit(c: Codec, d: Codec, max: uint32, delivered: seq<seq<byte>>, more: seq<seq<byte>>)
    requires AllFit(c, max, delivered) && AllFit(d, max, more) && d.hasher == c.hasher
    ensures AllFit(c, max, delivered + more)
  {
    var all := delivered + more;
    forall j | 0 <= j < |all| ensures PayloadFits(c, max, all[j]) {
      if j >= |delivered| {
        assert all[j] == more[j - |delivered|];
      }
    }
  }

  lemma ArriveOpen(c: Codec, max: uint32, s: System, n: System, after: seq<byte>, m: nat)
    requires Inv(c, max, s) && s.rx.open && n.rx.open
    requires n.payloads == s.payloads && n.w == s.w && n.tx == s.tx && after == n.wire + W.Remaining(n.w)
    requires s.rx.codec.hasher == c.hasher && Brings(s.rx, n.rx, max, after, Pending(s), m)
    ensures Inv(c, max, n)
  {
    hide Codec.Seal, Codec.Bodies, Codec.Advanced, W.Inv, W.Remaining, Parse, Frames, Receive, AllFit;
    var k := |s.rx.delivered|;
    TakeMore(s.payloads, k, m);
    DropDrop(s.payloads, k, m);
    c.AdvancedConcat(s.rx.delivered, Pending(s)[..m]);
    Assoc(n.rx.buffer, n.wire, W.Remaining(n.w));
    MoreFit(c, s.rx.codec, max, s.rx.delivered, Pending(s)[..m]);
  }

  lemma Kept(c: Codec, max: uint32, s: System, step: Step)
    requires Inv(c, max, s)
    ensures Inv(c, max, Next(s, max, step))
  {
    hide Inv, Next;
    match step
    case Send(payload, closure) => SendKeeps(c, max, s, payload, closure);
    case Accept(bytes) => AcceptKeeps(c, max, s, bytes);
    case Arrive(bytes) => ArriveKeeps(c, max, s, bytes);
    case WriteError => WriteErrorKeeps(c, max, s);
    case Close => CloseKeeps(c, max, s);
  }

  lemma WriteErrorKeeps(c: Codec, max: uint32, s: System)
    requires Inv(c, max, s)
    ensures Inv(c, max, Next(s, max, WriteError))
  {
    hide Inv, W.Next, W.Enabled;
    if W.Enabled(s.w, W.Fail) {
      StopKeeps(c, max, s, W.Fail);
    }
  }

  lemma CloseKeeps(c: Codec, max: uint32, s: System)
    requires Inv(c, max, s)
    ensures Inv(c, max, Next(s, max, Close))
  {
    hide Inv, W.Next;
    StopKeeps(c, max, s, W.Close);
  }

  lemma StopKeeps(c: Codec, max: uint32, s: System, stop: W.Step)
    requires Inv(c, max, s) && (stop.Fail? || stop.Close?) && W.Enabled(s.w, stop)
    ensures Inv(c, max, s.(w := W.Next(s.w, stop)))
  {
    hide W.Shape, W.Progress, W.Conserved, W.SendsOnce, W.PostsAtOnce, Parse, Frames;
    W.Kept(s.w, stop);
    assert W.Remaining(W.Next(s.w, stop)) == W.Remaining(s.w);
  }

  lemma StartsRight(c: Codec, max: uint32)
    ensures Inv(c, max, Start(c))
  {
    W.StartsRight();
    CutEmpty(Varint, max);
  }

  lemma {:induction false} EveryRun(c: Codec, max: uint32, s: System, steps: seq<Step>)
    requires Inv(c, max, s)
    ensures Inv(c, max, Exec(s, max, steps))
    decreases |steps|
  {
    hide Inv, Next;
    if steps != [] {
      Kept(c, max, s, steps[0]);
      EveryRun(c, max, Next(s, max, steps[0]), steps[1..]);
    }
  }

  // ---- delivery ----------------------------------------------------------------------------

  /** Nothing is left to write or to read. */
  ghost predicate Drained(s: System) {
    s.wire == [] && W.Remaining(s.w) == []
  }

  /**
   * In every run the receiver pops a prefix of what was sent, in order, with its cipher exactly
   * where the sender's was then. Once everything written has arrived it has popped all of it if and
   * only if every payload, with its hash, fits the maximum length; then both ciphers are equal.
   */
  lemma Delivery(c: Codec, max: uint32, steps: seq<Step>)
    ensures var s := Exec(Start(c), max, steps);
            && s.rx.delivered <= s.payloads
            && s.rx.codec == c.Advanced(s.rx.delivered)
            && (AllFit(c, max, s.payloads) ==> s.rx.open)
            && (Drained(s) ==> (s.rx.delivered == s.payloads <==> AllFit(c, max, s.payloads)))
            && (Drained(s) && AllFit(c, max, s.payloads) ==> s.rx.codec == s.tx)
  {
    hide Parse, Frames, W.Remaining, W.Inv;
    var s := Exec(Start(c), max, steps);
    StartsRight(c, max);
    EveryRun(c, max, Start(c), steps);
    if Drained(s) && s.rx.open {
      AllPopped(c, max, s);
    }
  }

  lemma AllPopped(c: Codec, max: uint32, s: System)
    requires Inv(c, max, s) && Drained(s) && s.rx.open
    ensures s.rx.delivered == s.payloads
  {
    hide Parse, Frames, W.Remaining, W.Inv, Codec.Seal;
    var bodies := s.rx.codec.Bodies(Pending(s));
    assert Outstanding(s) == s.rx.buffer;
    SplitPending(c, s);
    SendableSuffix(c.Bodies(s.rx.delivered), bodies);
    ParsePrefix(Varint, max, bodies, |s.rx.buffer|);
    assert s.rx.buffer[..|s.rx.buffer|] == s.rx.buffer;
  }

  // ---- completion --------------------------------------------------------------------------

  /** Nothing keeps the queue from emptying: the transport is open, or at most the write under way is left. */
  predicate Drainable(s: System) {
    !s.w.s.closed || s.w.s.queue == [] || (|s.w.s.queue| == 1 && s.w.s.writing.InFlight?)
  }

  lemma {:induction false} ExecConcat(s: System, max: uint32, a: seq<Step>, b: seq<Step>)
    ensures Exec(s, max, a + b) == Exec(Exec(s, max, a), max, b)
    decreases |a|
  {
    if a == [] {
      EmptyLeft(b);
    } else {
      hide Next;
      TailConcat(a, b);
      ExecConcat(Next(s, max, a[0]), max, a[1..], b);
    }
  }

  lemma ExecFirst(s: System, max: uint32, step: Step, more: seq<Step>)
    ensures Exec(s, max, [step] + more) == Exec(Next(s, max, step), max, more)
  {
    assert ([step] + more)[1..] == more;
  }

  /** The write under way takes the rest of the front message: one message less is queued. */
  lemma AcceptRest(c: Codec, max: uint32, s: System)
    requires Inv(c, max, s) && Drainable(s) && s.w.s.queue != []
    ensures
      var n := Next(s, max, Accept(s.w.s.writing.length));
      s.w.s.writing.InFlight? && n.w.s.queue == s.w.s.queue[1..] && Drainable(n) && n.payloads == s.payloads
  {
    hide Parse, Frames, W.SendsOnce, W.PostsAtOnce, W.Conserved, Lockstep, InOrder;
  }

  lemma ArriveAll(s: System, max: uint32)
    requires s.w.s.queue == []
    ensures
      var n := Exec(s, max, [Arrive(|s.wire|)]);
      Drained(n) && n.payloads == s.payloads
  {
    EmptyRight([Arrive(|s.wire|)]);
    ExecFirst(s, max, Arrive(|s.wire|), []);
    hide Receive;
  }

  /** Accepting whatever is written and receiving whatever was accepted drains the system. */
  lemma {:induction false} Drains(c: Codec, max: uint32, s: System) returns (more: seq<Step>)
    requires Inv(c, max, s) && Drainable(s)
    ensures Drained(Exec(s, max, more)) && Exec(s, max, more).payloads == s.payloads
    decreases |s.w.s.queue|
  {
    if s.w.s.queue == [] {
      ArriveAll(s, max);
      more := [Arrive(|s.wire|)];
    } else {
      var step := Accept(s.w.s.writing.length);
      AcceptRest(c, max, s);
      hide Inv, Next, Exec, Drained, Drainable;
      Kept(c, max, s, step);
      var rest := Drains(c, max, Next(s, max, step));
      ExecFirst(s, max, step, rest);
      more := [step] + rest;
    }
  }

  /** A closed transport with more than the write under way never empties its queue. */
  lemma StuckStays(s: System, max: uint32, step: Step)
    requires !Drainable(s)
    ensures !Drainable(Next(s, max, step))
  {
    hide Receive, Codec.Seal, Codec.Packed, Codec.After;
  }

  lemma {:induction false} StuckForEver(s: System, max: uint32, more: seq<Step>)
    requires !Drainable(s)
    ensures !Drainable(Exec(s, max, more))
    decreases |more|
  {
    if more != [] {
      StuckStays(s, max, more[0]);
      hide Next, Drainable;
      StuckForEver(Next(s, max, more[0]), max, more[1..]);
    }
  }

  lemma QueueRemains(w: W.Config)
    requires W.Shape(w)
    ensures |W.Remaining(w)| >= if w.s.queue == [] then 0 else |w.s.queue[0].message| - w.sent
    ensures w.s.queue != [] ==> w.sent < |w.s.queue[0].message|
  {
  }

  lemma DrainedIsDrainable(c: Codec, max: uint32, s: System)
    requires Inv(c, max, s) && Drained(s)
    ensures Drainable(s)
  {
    hide Parse, Frames, W.SendsOnce, W.PostsAtOnce, W.Conserved, Lockstep, InOrder;
    QueueRemains(s.w);
  }

  /** A reachable state can be drained exactly if nothing keeps the queue from emptying. */
  lemma CanDrainIff(c: Codec, max: uint32, steps: seq<Step>)
    ensures
      var s := Exec(Start(c), max, steps);
      (exists more :: Drained(Exec(s, max, more))) <==> Drainable(s)
  {
    var s := Exec(Start(c), max, steps);
    StartsRight(c, max);
    EveryRun(c, max, Start(c), steps);
    hide Exec, Drained, Drainable, Inv;
    if Drainable(s) {
      var more := Drains(c, max, s);
      assert Drained(Exec(s, max, more));
    }
    if more :| Drained(Exec(s, max, more)) {
      EveryRun(c, max, s, more);
      DrainedIsDrainable(c, max, Exec(s, max, more));
      if !Drainable(s) {
        StuckForEver(s, max, more);
      }
    }
  }

  /** While the transport is open and every payload fits, everything sent so far can still be delivered. */
  lemma CanDeliver(c: Codec, max: uint32, steps: seq<Step>)
    requires Drainable(Exec(Start(c), max, steps)) && AllFit(c, max, Exec(Start(c), max, steps).payloads)
    ensures
      var s := Exec(Start(c), max, steps);
      exists more :: var t := Exec(s, max, more); t.rx.delivered == t.payloads == s.payloads && t.rx.codec == t.tx
  {
    var s := Exec(Start(c), max, steps);
    StartsRight(c, max);
    EveryRun(c, max, Start(c), steps);
    hide Exec, Drained, Drainable, Inv, AllFit;
    var more := Drains(c, max, s);
    ExecConcat(Start(c), max, steps, more);
    Delivery(c, max, steps + more);
    var t := Exec(s, max, more);
    assert t.rx.delivered == t.payloads == s.payloads && t.rx.codec == t.tx;
  }
}
