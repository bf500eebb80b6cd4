/**
 * The strand-serialised write queue of lib/vtrc/common/transport/stream-impl.h: messages are packed
 * as they are queued, one asynchronous write is outstanding at a time, and a write may be partial.
 */
module WriteQueue {
  import opened Bytes
  import opened Sequences
  import opened Lowlevel

  /** The closure of a `message_holder` and its `on_send_` flag. */
  datatype Closure = NoClosure | OnPost | OnSend

  datatype Holder = Holder(id: nat, message: seq<byte>, closure: Closure)

  /** What a strand handler does besides writing: pack a message, call a closure. */
  datatype Event = Packed(id: nat) | PostCall(id: nat) | SendCall(id: nat, ok: bool)

  /** The outstanding `async_write_some`: the length asked for and the octets sent before. */
  datatype Writing = Idle | InFlight(length: nat, total: nat)

  datatype State = State(closed: bool, queue: seq<Holder>, writing: Writing, log: seq<Event>)

  const START: State := State(false, [], Idle, [])

  // ---- the handlers ------------------------------------------------------------------------

  function AsyncWrite(closed: bool, queue: seq<Holder>): Writing {
    if queue == [] || closed then Idle else InFlight(|queue[0].message|, 0)
  }

  function PostEvents(h: Holder): seq<Event> {
    if h.closure == OnPost then [Packed(h.id), PostCall(h.id)] else [Packed(h.id)]
  }

  function SendEvents(h: Holder, ok: bool): seq<Event> {
    if h.closure == OnSend then [SendCall(h.id, ok)] else []
  }

  function WriteImpl(s: State, h: Holder): State {
    State(s.closed, s.queue + [h],
          if s.queue == [] then AsyncWrite(s.closed, [h]) else s.writing,
          s.log + PostEvents(h))
  }

  function Accepted(s: State, bytes: nat): State
    requires s.writing.InFlight? && s.queue != []
    requires bytes <= s.writing.length && s.writing.total + bytes <= |s.queue[0].message|
  {
    if bytes < s.writing.length then
      var total := s.writing.total + bytes;
      s.(writing := if s.closed then Idle else InFlight(|s.queue[0].message| - total, total))
    else
      State(s.closed, s.queue[1..], AsyncWrite(s.closed, s.queue[1..]), s.log + SendEvents(s.queue[0], true))
  }

  function WriteFailed(s: State): State
    requires s.writing.InFlight? && s.queue != []
  {
    State(true, s.queue, Idle, s.log + SendEvents(s.queue[0], false))
  }

  // ---- runs --------------------------------------------------------------------------------

  datatype Step = Post(message: seq<byte>, closure: Closure) | Accept(bytes: nat) | Fail | Close

  /**
   * A run keeps, beside the state, every message packed so far in post order, the octets the
   * socket took, how many of them belong to the front message, and whether a write failed.
   */
  datatype Config = Config(s: State, posted: seq<Holder>, accepted: seq<byte>, sent: nat, failed: bool)

  const INITIAL: Config := Config(START, [], [], 0, false)

  predicate Enabled(c: Config, step: Step) {
    match step
    case Post(message, _) => message != []
    case Accept(bytes) =>
      c.s.writing.InFlight? && c.s.queue != [] && bytes <= c.s.writing.length
      && c.s.writing.total + bytes <= |c.s.queue[0].message|
    case Fail => c.s.writing.InFlight? && c.s.queue != []
    case Close => true
  }

  /** The octets the next `Accept` hands to the socket. */
  function Taken(c: Config, bytes: nat): seq<byte>
    requires Enabled(c, Accept(bytes))
  {
    c.s.queue[0].message[c.s.writing.total..c.s.writing.total + bytes]
  }

  function Next(c: Config, step: Step): Config
    requires Enabled(c, step)
  {
    match step
    case Post(message, closure) =>
      var h := Holder(|c.posted|, message, closure);
      c.(s := WriteImpl(c.s, h), posted := c.posted + [h], sent := if c.s.queue == [] then 0 else c.sent)
    case Accept(bytes) =>
      Config(Accepted(c.s, bytes), c.posted, c.accepted + Taken(c, bytes),
             if bytes < c.s.writing.length then c.sent + bytes else 0, c.failed)
    case Fail => c.(s := WriteFailed(c.s), failed := true)
    case Close => c.(s := c.s.(closed := true))
  }

  /** A run; a step that is not enabled is skipped. */
  function Exec(c: Config, steps: seq<Step>): Config
    decreases |steps|
  {
    if steps == [] then c
    else Exec(if Enabled(c, steps[0]) then Next(c, steps[0]) else c, steps[1..])
  }

  // ---- what every run keeps ----------------------------------------------------------------

  function Messages(hs: seq<Holder>): (ms: seq<seq<byte>>)
    ensures |ms| == |hs|
  {
    seq(|hs|, i requires 0 <= i < |hs| => hs[i].message)
  }

  /** What the socket has still to take of the messages in the queue. */
  function Remaining(c: Config): seq<byte> {
    if c.s.queue == [] || c.sent > |c.s.queue[0].message| then []
    else c.s.queue[0].message[c.sent..] + Flatten(Messages(c.s.queue[1..]))
  }

  function SendCalls(log: seq<Event>): seq<Event> {
    if log == [] then []
    else SendCalls(log[..|log| - 1]) + (if log[|log| - 1].SendCall? then [log[|log| - 1]] else [])
  }

  function CompletedCalls(done: seq<Holder>): seq<Event> {
    if done == [] then [] else CompletedCalls(done[..|done| - 1]) + SendEvents(done[|done| - 1], true)
  }

  function Done(c: Config): seq<Holder>
    requires |c.s.queue| <= |c.posted|
  {
    c.posted[..|c.posted| - |c.s.queue|]
  }

  /** The queue is the tail of what was posted, and an outstanding write covers the unsent part of its front. */
  ghost predicate Shape(c: Config) {
    && |c.s.queue| <= |c.posted|
    && c.s.queue == c.posted[|c.posted| - |c.s.queue|..]
    && (forall i :: 0 <= i < |c.posted| ==> c.posted[i].id == i && c.posted[i].message != [])
    && (c.s.queue == [] ==> c.sent == 0 && c.s.writing == Idle)
    && (c.s.queue != [] ==> c.sent < |c.s.queue[0].message|)
    && (c.s.writing.InFlight? ==> c.s.writing == InFlight(|c.s.queue[0].message| - c.sent, c.sent))
  }

  /** While the transport is open a non-empty queue is being written; a failed one never is again. */
  ghost predicate Progress(c: Config) {
    && (!c.s.closed && c.s.queue != [] ==> c.s.writing.InFlight?)
    && (c.failed ==> c.s.closed && c.s.writing == Idle && c.s.queue != [])
  }

  /** No octet is lost, repeated or reordered. */
  ghost predicate Conserved(c: Config) {
    c.accepted + Remaining(c) == Flatten(Messages(c.posted))
  }

  /**
   * The on-send closures called are those of the completed messages, in order and with success,
   * then that of the front message if its write failed.
   */
  ghost predicate SendsOnce(c: Config) {
    |c.s.queue| <= |c.posted| &&
    SendCalls(c.s.log) == CompletedCalls(Done(c))
      + (if c.failed && c.s.queue != [] then SendEvents(c.s.queue[0], false) else [])
  }

  /** Entry `k` is a packing followed by its post closure if it has one, or such a closure preceded by its packing. */
  ghost predicate Paired(posted: seq<Holder>, log: seq<Event>, k: nat)
    requires k < |log|
  {
    match log[k]
    case Packed(id) =>
      id < |posted| && (posted[id].closure == OnPost ==> k + 1 < |log| && log[k + 1] == PostCall(id))
    case PostCall(id) =>
      id < |posted| && posted[id].closure == OnPost && k > 0 && log[k - 1] == Packed(id)
    case SendCall(_, _) => true
  }

  /** A not-on-send closure is called right after its own message is packed, so before the next is. */
  ghost predicate PostsAtOnce(c: Config) {
    forall k :: 0 <= k < |c.s.log| ==> Paired(c.posted, c.s.log, k)
  }

  ghost predicate Inv(c: Config) {
    Shape(c) && Progress(c) && Conserved(c) && SendsOnce(c) && PostsAtOnce(c)
  }

  // ---- proofs ------------------------------------------------------------------------------

  lemma SendCallsAppend(log: seq<Event>, e: Event)
    ensures SendCalls(log + [e]) == SendCalls(log) + (if e.SendCall? then [e] else [])
  {
    assert (log + [e])[..|log|] == log;
  }

  lemma SendCallsPost(log: seq<Event>, h: Holder)
    ensures SendCalls(log + PostEvents(h)) == SendCalls(log)
  {
    SendCallsAppend(log, Packed(h.id));
    if h.closure == OnPost {
      SendCallsAppend(log + [Packed(h.id)], PostCall(h.id));
      assert log + PostEvents(h) == log + [Packed(h.id)] + [PostCall(h.id)];
    }
  }

  lemma SendCallsSend(log: seq<Event>, h: Holder, ok: bool)
    ensures SendCalls(log + SendEvents(h, ok)) == SendCalls(log) + SendEvents(h, ok)
  {
    if h.closure == OnSend {
      SendCallsAppend(log, SendCall(h.id, ok));
    } else {
      assert log + [] == log;
    }
  }

  lemma MessagesConcat(a: seq<Holder>, b: seq<Holder>)
    ensures Messages(a + b) == Messages(a) + Messages(b)
  {
  }

  lemma DonePost(c: Config, message: seq<byte>, closure: Closure)
    requires |c.s.queue| <= |c.posted| && message != []
    ensures
      var n := Next(c, Post(message, closure));
      |n.s.queue| <= |n.posted| && Done(n) == Done(c)
  {
    hide PostEvents;
  }

  lemma TailPost(c: Config, h: Holder)
    requires |c.s.queue| <= |c.posted| && c.s.queue == c.posted[|c.posted| - |c.s.queue|..]
    ensures c.s.queue + [h] == (c.posted + [h])[|c.posted| - |c.s.queue|..]
  {
  }

  lemma ShapePost(c: Config, message: seq<byte>, closure: Closure)
    requires Shape(c) && message != []
    ensures Shape(Next(c, Post(message, closure)))
  {
    hide PostEvents;
    var n, h := Next(c, Post(message, closure)), Holder(|c.posted|, message, closure);
    TailPost(c, h);
    assert n.s.queue[0] == if c.s.queue == [] then h else c.s.queue[0];
  }

  lemma DoneAccept(c: Config, bytes: nat)
    requires Shape(c) && Enabled(c, Accept(bytes))
    ensures
      var n := Next(c, Accept(bytes));
      |n.s.queue| <= |n.posted|
      && Done(n) == if bytes < c.s.writing.length then Done(c) else Done(c) + [c.s.queue[0]]
  {
    hide SendEvents, Taken;
    if bytes == c.s.writing.length {
      SuffixTail(c.posted, c.s.queue);
    }
  }

  lemma ShapeAccept(c: Config, bytes: nat)
    requires Shape(c) && Enabled(c, Accept(bytes))
    ensures Shape(Next(c, Accept(bytes)))
  {
    hide SendEvents, Taken;
    if bytes == c.s.writing.length {
      SuffixTail(c.posted, c.s.queue);
      NextFront(c);
    }
  }

  /** The message behind the front, if any, is not empty. */
  lemma NextFront(c: Config)
    requires Shape(c) && c.s.queue != []
    ensures |c.s.queue| > 1 ==> |c.s.queue[1].message| > 0
  {
    if |c.s.queue| > 1 {
      assert c.s.queue[1] == c.posted[|c.posted| - |c.s.queue| + 1];
    }
  }

  lemma ShapeKept(c: Config, step: Step)
    requires Shape(c) && Enabled(c, step)
    ensures Shape(Next(c, step))
  {
    match step
    case Post(message, closure) => ShapePost(c, message, closure);
    case Accept(bytes) => ShapeAccept(c, bytes);
    case Fail => assert Done(Next(c, step)) == Done(c);
    case Close => assert Done(Next(c, step)) == Done(c);
  }

  lemma PostConserves(c: Config, h: Holder)
    requires Shape(c) && Conserved(c) && h.message != [] && h.id == |c.posted|
    ensures Conserved(Next(c, Post(h.message, h.closure)))
  {
    var n := Next(c, Post(h.message, h.closure));
    MessagesConcat(c.posted, [h]);
    FlattenConcat(Messages(c.posted), [h.message]);
    FlattenOne(h.message);
    assert Messages([h]) == [h.message];
    assert Flatten(Messages(n.posted)) == Flatten(Messages(c.posted)) + h.message;
    if c.s.queue == [] {
      EmptyLeft([h]);
      assert n.s.queue[1..] == [] && h.message[0..] == h.message;
      EmptyRight(h.message);
      EmptyRight(c.accepted);
    } else {
      TailConcat(c.s.queue, [h]);
      MessagesConcat(c.s.queue[1..], [h]);
      FlattenConcat(Messages(c.s.queue[1..]), [h.message]);
      var x, y := c.s.queue[0].message[c.sent..], Flatten(Messages(c.s.queue[1..]));
      Assoc(x, y, h.message);
      Assoc(c.accepted, x + y, h.message);
    }
  }

  /** What is left of a non-empty queue whose front is untouched. */
  lemma RemainingWhole(c: Config)
    requires Shape(c) && c.sent == 0
    ensures Remaining(c) == Flatten(Messages(c.s.queue))
  {
    if c.s.queue != [] {
      var ms := Messages(c.s.queue);
      assert ms[0] == c.s.queue[0].message && ms[1..] == Messages(c.s.queue[1..]);
      assert ms[0][0..] == ms[0];
    }
  }

  lemma FrontSplit(m: seq<byte>, sent: nat, bytes: nat, rest: seq<byte>)
    requires sent + bytes <= |m|
    ensures m[sent..] + rest == m[sent..sent + bytes] + (m[sent + bytes..] + rest)
  {
    DropDrop(m, sent, bytes);
    SplitAt(m[sent..], bytes);
    Assoc(m[sent..sent + bytes], m[sent + bytes..], rest);
  }

  lemma PartialTakes(c: Config, bytes: nat)
    requires Shape(c) && Enabled(c, Accept(bytes)) && bytes < c.s.writing.length
    ensures Remaining(c) == Taken(c, bytes) + Remaining(Next(c, Accept(bytes)))
  {
    hide Flatten, Messages, SendEvents, AsyncWrite;
    var m, rest := c.s.queue[0].message, Flatten(Messages(c.s.queue[1..]));
    var n := Next(c, Accept(bytes));
    assert c.s.writing == InFlight(|m| - c.sent, c.sent);
    assert n.s.queue == c.s.queue && n.sent == c.sent + bytes;
    hide Shape, Accepted;
    FrontSplit(m, c.sent, bytes, rest);
  }

  lemma CompleteTakes(c: Config, bytes: nat)
    requires Shape(c) && Enabled(c, Accept(bytes)) && bytes == c.s.writing.length
    ensures Remaining(c) == Taken(c, bytes) + Remaining(Next(c, Accept(bytes)))
  {
    ShapeAccept(c, bytes);
    RemainingWhole(Next(c, Accept(bytes)));
    hide Flatten, Messages;
    assert c.s.queue[0].message[c.sent..] == Taken(c, bytes);
  }

  lemma AcceptTakes(c: Config, bytes: nat)
    requires Shape(c) && Enabled(c, Accept(bytes))
    ensures Remaining(c) == Taken(c, bytes) + Remaining(Next(c, Accept(bytes)))
  {
    if bytes < c.s.writing.length {
      PartialTakes(c, bytes);
    } else {
      CompleteTakes(c, bytes);
    }
  }

  lemma AcceptConserves(c: Config, bytes: nat)
    requires Shape(c) && Conserved(c) && Enabled(c, Accept(bytes))
    ensures Conserved(Next(c, Accept(bytes)))
  {
    hide Remaining, Shape;
    var n := Next(c, Accept(bytes));
    AcceptTakes(c, bytes);
    Assoc(c.accepted, Taken(c, bytes), Remaining(n));
  }

  lemma SendsOncePost(c: Config, message: seq<byte>, closure: Closure)
    requires Shape(c) && Progress(c) && SendsOnce(c) && message != []
    ensures SendsOnce(Next(c, Post(message, closure)))
  {
    hide Shape, SendCalls, CompletedCalls, SendEvents, PostEvents, Done;
    assert |c.s.queue| <= |c.posted|;
    DonePost(c, message, closure);
    SendCallsPost(c.s.log, Holder(|c.posted|, message, closure));
  }

  lemma CompletedOne(done: seq<Holder>, h: Holder)
    ensures CompletedCalls(done + [h]) == CompletedCalls(done) + SendEvents(h, true)
  {
    assert (done + [h])[..|done|] == done;
  }

  lemma SendsOnceAccept(c: Config, bytes: nat)
    requires Shape(c) && Progress(c) && SendsOnce(c) && Enabled(c, Accept(bytes))
    ensures SendsOnce(Next(c, Accept(bytes)))
  {
    DoneAccept(c, bytes);
    hide Shape, SendCalls, CompletedCalls, SendEvents, Done, Taken;
    assert !c.failed;
    EmptyRight(CompletedCalls(Done(c)));
    if bytes == c.s.writing.length {
      SendCallsSend(c.s.log, c.s.queue[0], true);
      CompletedOne(Done(c), c.s.queue[0]);
      EmptyRight(CompletedCalls(Done(c) + [c.s.queue[0]]));
    }
  }

  lemma SendsOnceFail(c: Config)
    requires Progress(c) && SendsOnce(c) && Enabled(c, Fail)
    ensures SendsOnce(Next(c, Fail))
  {
    assert Done(Next(c, Fail)) == Done(c);
    hide SendCalls, CompletedCalls, SendEvents, Done;
    assert !c.failed;
    EmptyRight(CompletedCalls(Done(c)));
    SendCallsSend(c.s.log, c.s.queue[0], false);
  }

  lemma SendsOnceClose(c: Config)
    requires SendsOnce(c)
    ensures SendsOnce(Next(c, Close))
  {
    assert Done(Next(c, Close)) == Done(c);
    hide SendCalls, CompletedCalls, SendEvents, Done;
  }

  lemma SendsOnceKept(c: Config, step: Step)
    requires Shape(c) && Progress(c) && SendsOnce(c) && Enabled(c, step)
    ensures SendsOnce(Next(c, step))
  {
    hide Shape, Progress, SendsOnce, Next;
    match step
    case Post(message, closure) => SendsOncePost(c, message, closure);
    case Accept(bytes) => SendsOnceAccept(c, bytes);
    case Fail => SendsOnceFail(c);
    case Close => SendsOnceClose(c);
  }

  lemma LogsKept(c: Config, posted: seq<Holder>, more: seq<Event>)
    requires PostsAtOnce(c) && c.posted <= posted
    requires forall k :: 0 <= k < |more| ==> more[k].SendCall?
    ensures PostsAtOnce(c.(posted := posted, s := c.s.(log := c.s.log + more)))
  {
    var log, longer := c.s.log, c.s.log + more;
    forall k | 0 <= k < |longer| ensures Paired(posted, longer, k) {
      if k < |log| {
        assert Paired(c.posted, log, k);
        assert k + 1 < |log| ==> longer[k + 1] == log[k + 1];
      } else {
        assert longer[k] == more[k - |log|];
      }
    }
  }

  lemma PostsAtOnceKept(c: Config, step: Step)
    requires Shape(c) && PostsAtOnce(c) && Enabled(c, step)
    ensures PostsAtOnce(Next(c, step))
  {
    match step
    case Post(message, closure) =>
      var h := Holder(|c.posted|, message, closure);
      var log, n := c.s.log, Next(c, step);
      forall k | 0 <= k < |n.s.log| ensures Paired(n.posted, n.s.log, k) {
        if k < |log| {
          assert Paired(c.posted, log, k);
          assert n.s.log[k] == log[k];
          assert k + 1 < |log| ==> n.s.log[k + 1] == log[k + 1];
        } else {
          assert n.posted[h.id] == h;
        }
      }
    case Accept(bytes) =>
      if bytes == c.s.writing.length {
        LogsKept(c, c.posted, SendEvents(c.s.queue[0], true));
      }
    case Fail => LogsKept(c, c.posted, SendEvents(c.s.queue[0], false));
    case Close =>
  }

  lemma Kept(c: Config, step: Step)
    requires Inv(c) && Enabled(c, step)
    ensures Inv(Next(c, step))
  {
    hide Shape, Conserved, SendsOnce, PostsAtOnce;
    ShapeKept(c, step);
    SendsOnceKept(c, step);
    PostsAtOnceKept(c, step);
    ProgressKept(c, step);
    ConservedKept(c, step);
  }

  lemma ProgressKept(c: Config, step: Step)
    requires Shape(c) && Progress(c) && Enabled(c, step)
    ensures Progress(Next(c, step))
  {
  }

  lemma ConservedKept(c: Config, step: Step)
    requires Shape(c) && Conserved(c) && Enabled(c, step)
    ensures Conserved(Next(c, step))
  {
    match step
    case Post(message, closure) => PostConserves(c, Holder(|c.posted|, message, closure));
    case Accept(bytes) => AcceptConserves(c, bytes);
    case Fail =>
    case Close =>
  }

  /** Every run from the start keeps all of it. */
  lemma {:induction false} EveryRun(c: Config, steps: seq<Step>)
    requires Inv(c)
    ensures Inv(Exec(c, steps))
    decreases |steps|
  {
    hide Inv;
    if steps != [] {
      if Enabled(c, steps[0]) {
        Kept(c, steps[0]);
        EveryRun(Next(c, steps[0]), steps[1..]);
      } else {
        EveryRun(c, steps[1..]);
      }
    }
  }

  lemma StartsRight()
    ensures Inv(INITIAL)
  {
  }

  // ---- the transport object ----------------------------------------------------------------

  class Transport {
    const protocol: Protocol
    var closed: bool
    var queue: seq<Holder>
    var writing: Writing
    var log: seq<Event>

    constructor (protocol: Protocol)
      ensures this.protocol == protocol && Value() == START
    {
      this.protocol := protocol;
      closed, queue, writing, log := false, [], Idle, [];
    }

    function Value(): State
      reads this
    {
      State(closed, queue, writing, log)
    }

    method StartWrite()
      requires queue != [] && writing == Idle
      modifies this`writing
      ensures writing == if closed then Idle else InFlight(|queue[0].message|, 0)
    {
      if !closed {
        writing := InFlight(|queue[0].message|, 0);
      }
    }

    /** Runs on the strand; the message is packed here, in queue order. */
    method Write(id: nat, data: seq<byte>, closure: Closure)
      requires |data| + protocol.hashMaker.Size() < WORD
      requires queue == [] ==> writing == Idle
      modifies this, protocol`transformer
      ensures Value() == WriteImpl(old(Value()), Holder(id, old(protocol.Sending()).Packed(data), closure))
      ensures protocol.Sending() == old(protocol.Sending()).After(|old(protocol.Sending()).Seal(data)|)
    {
      var empty := queue == [];
      var message := protocol.PackMessage(data);
      log := log + [Packed(id)];
      queue := queue + [Holder(id, message, closure)];
      if closure == OnPost {
        log := log + [PostCall(id)];
      }
      if empty {
        StartWrite();
      }
    }

    method WriteHandler(error: bool, bytes: nat)
      requires writing.InFlight? && queue != []
      requires bytes <= writing.length && writing.total + bytes <= |queue[0].message|
      modifies this
      ensures Value() == if error then WriteFailed(old(Value())) else Accepted(old(Value()), bytes)
    {
      var top, length, total := queue[0], writing.length, writing.total;
      writing := Idle;
      if !error {
        if bytes < length {
          total := total + bytes;
          if !closed {
            writing := InFlight(|top.message| - total, total);
          }
        } else {
          if top.closure == OnSend {
            log := log + [SendCall(top.id, true)];
          }
          queue := queue[1..];
          if queue != [] {
            StartWrite();
          }
        }
      } else {
        if top.closure == OnSend {
          log := log + [SendCall(top.id, false)];
        }
        CloseTransport();
      }
    }

    method CloseTransport()
      modifies this`closed
      ensures closed
    {
      closed := true;
    }
  }
}
