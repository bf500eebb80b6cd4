/**
 * Calls between two nodes over one connection: lib/vtrc/common/protocol-layer.cpp,
 * lib/vtrc/common/rpc-channel.cpp and the dispatch loops of lib/vtrc/client/protocol-layer-c.cpp and
 * lib/vtrc/server/protocol-layer-s.cpp. A step is what one thread does under one lock; threads,
 * pool and read handler interleave freely.
 */
module Rpc {
  import opened Wrappers

  datatype Side = Client | Server

  datatype MessageType = MessageNone | ClientCall | ServerCall | ClientCallback | ServerCallback

  function DirectType(side: Side): MessageType {
    if side == Client then ClientCall else ServerCall
  }

  function CallbackType(side: Side): MessageType {
    if side == Client then ClientCallback else ServerCallback
  }

  predicate OwnType(side: Side, t: MessageType) {
    t == DirectType(side) || t == CallbackType(side)
  }

  function Other(side: Side): Side {
    if side == Client then Server else Client
  }

  datatype Body = NoBody | Request(data: int) | Response(data: int)

  /** `lowlevel_unit`; error 0 is ERR_NO_ERROR. */
  datatype Msg = Msg(id: nat, target: nat, mtype: MessageType, wait: bool, accept: bool, alone: bool,
                     error: nat, body: Body)

  const ERR_BUSY: nat := 16
  const ERR_CONTEXT: nat := 1005
  const ERR_OVERFLOW: nat := 1004

  // ---- ids ---------------------------------------------------------------------------------

  const WORD: nat := 0x1_0000_0000_0000_0000

  /** The id of a side's `n`-th call: the 64-bit counter starts at 101 or 100 and steps by two. */
  function CallId(side: Side, n: nat): nat {
    ((if side == Client then 101 else 100) + 2 * n) % WORD
  }

  /** How many calls a side makes in the runs considered. */
  function CallLimit(side: Side): nat {
    if side == Client then 0x8000_0000_0000_0000 - 1 else 0x8000_0000_0000_0000 - 51
  }

  lemma CallIdsDiffer(side: Side, i: nat, j: nat)
    requires i < j <= CallLimit(Client)
    ensures CallId(side, i) != CallId(side, j)
  {
  }

  /** Only the server's counter reaches 0, at call number 2^63 - 50, and so is never 0 within the limit. */
  lemma ServerIdZero(n: nat)
    requires n <= CallLimit(Client)
    ensures CallId(Server, n) == 0 <==> n == CallLimit(Server) + 1
  {
  }

  // ---- a node ------------------------------------------------------------------------------

  datatype Stage = Configured | Registered | Waiting

  /** An entry of a thread's context stack: a message being handled, or a call being waited for. */
  datatype Frame = Handling(m: Msg) | Calling(m: Msg, stage: Stage, raw: bool)

  datatype Delivery = Delivery(slot: nat, m: Msg)

  datatype Place = Place(thread: nat, depth: nat)

  /**
   * The first fields are the node's state: its limits, the id counter, the slots of `rpc_queue_`, the context
   * stack of each thread (top last), the calls posted to the pool, the closures handlers hold, and
   * the message the read handler found a slot for but has not pushed yet. The others record what
   * happened: requests made, where each is waited for, which of them were sent, requests taken from the
   * peer, requests whose handling began or was refused, the answer sent to each, what each wait returned,
   * and the requests whose service method ran and those an answer was sent to, in order.
   */
  datatype Node = Node(side: Side, maxDepth: nat, limit: nat, calls: nat,
                       slots: map<nat, seq<Msg>>, threads: map<nat, seq<Frame>>,
                       queued: map<nat, Msg>, closures: map<nat, Msg>, pushing: Option<Delivery>,
                       sent: map<nat, Msg>, places: map<nat, Place>,
                       transmitted: set<nat>, received: set<nat>, started: set<nat>, answers: map<nat, Msg>,
                       returned: map<nat, Msg>,
                       executed: seq<nat>, replied: seq<nat>)

  function NewNode(side: Side, maxDepth: nat, limit: nat): Node {
    Node(side, maxDepth, limit, 0, map[], map[], map[], map[], None, map[], map[], {}, {}, {}, map[], map[], [], [])
  }

  function Stack(n: Node, t: nat): seq<Frame> {
    if t in n.threads then n.threads[t] else []
  }

  /** A thread runs user code when it handles a message or has no context at all. */
  predicate Running(n: Node, t: nat) {
    var s := Stack(n, t);
    s == [] || s[|s| - 1].Handling?
  }

  function Top(n: Node, t: nat): Frame
    requires Stack(n, t) != []
  {
    Stack(n, t)[|Stack(n, t)| - 1]
  }

  function SetStack(n: Node, t: nat, s: seq<Frame>): Node {
    n.(threads := n.threads[t := s])
  }

  function PopFrame(n: Node, t: nat): Node
    requires Stack(n, t) != []
  {
    SetStack(n, t, Stack(n, t)[..|Stack(n, t)| - 1])
  }

  // ---- steps -------------------------------------------------------------------------------

  /** How a channel chooses type and target: a direct call, a call in the current context, or in a stored one. */
  datatype How = Direct | InContext | StaticContext(target: nat)

  /** `outer` counts the frames on the thread that belong to other connections. */
  datatype Step =
    | Begin(t: nat, how: How, wait: bool, accept: bool, alone: bool, raw: bool, data: int)
    | Register(t: nat)
    | Transmit(t: nat)
    | Leave(t: nat)
    | Read(t: nat, outer: nat)
    | Deliver(admit: bool)
    | Push
    | StartQueued(t: nat, id: nat)
    | RunClosure(id: nat, error: nat, data: int)
    | Return(t: nat)
    | Throw(t: nat, error: nat)
    | SystemError(error: nat)

  /** A node with its incoming and outgoing channel. */
  datatype View = View(me: Node, inbox: seq<Msg>, outbox: seq<Msg>)

  /** `configure_message`. */
  function Configure(n: Node, t: nat, step: Step): Msg
    requires step.Begin?
  {
    var id := CallId(n.side, n.calls + 1);
    var context := Stack(n, t) != [] && Top(n, t).m.wait && Top(n, t).m.accept;
    var (mtype, target) :=
      match step.how
      case Direct => (DirectType(n.side), 0)
      case StaticContext(target) => (CallbackType(n.side), target)
      case InContext => if context then (CallbackType(n.side), Top(n, t).m.id) else (DirectType(n.side), 0);
    Msg(id, target, mtype, step.wait, step.accept, step.alone, 0, Request(step.data))
  }

  function Begun(v: View, step: Step): View
    requires step.Begin?
  {
    var n, t := v.me, step.t;
    var m := Configure(n, t, step);
    var counted := n.(calls := n.calls + 1, sent := n.sent[m.id := m]);
    if step.wait then
      v.(me := SetStack(counted, t, Stack(n, t) + [Calling(m, Configured, step.raw)])
              .(places := n.places[m.id := Place(t, |Stack(n, t)|)]))
    else v.(me := counted.(transmitted := n.transmitted + {m.id}), outbox := v.outbox + [m])
  }

  /** The caller's slot goes when it leaves, however it leaves. */
  function Left(n: Node, t: nat): Node
    requires Stack(n, t) != []
  {
    PopFrame(n, t).(slots := n.slots - {Top(n, t).m.id})
  }

  function Answer(m: Msg, error: nat, data: int): Msg {
    m.(error := error, body := if error == 0 then Response(data) else NoBody)
  }

  /** An answer leaves: the message goes back with its id and type. */
  function Answered(v: View, a: Msg): View {
    v.(me := v.me.(answers := v.me.answers[a.id := a], started := v.me.started + {a.id},
                   replied := v.me.replied + [a.id]),
       outbox := v.outbox + [a])
  }

  /** A request that fails before its service runs: an error goes back if the caller waits. */
  function Refused(v: View, m: Msg, error: nat): View {
    if m.wait then Answered(v, Answer(m, error, 0)) else v.(me := v.me.(started := v.me.started + {m.id}))
  }

  /** A callback for a call nobody waits for any more: the error goes back without the request's options. */
  function NoContext(v: View, m: Msg): View {
    if m.wait then Answered(v, Answer(m, ERR_CONTEXT, 0).(wait := false, accept := false))
    else v.(me := v.me.(started := v.me.started + {m.id}))
  }

  /** `make_local_call`: the depth counts the context just pushed. */
  function MakeLocalCall(v: View, t: nat, outer: nat, m: Msg): View {
    var n := v.me;
    if outer + |Stack(n, t)| + 1 > n.maxDepth then Refused(v, m, ERR_OVERFLOW)
    else
      v.(me := SetStack(n, t, Stack(n, t) + [Handling(m)])
              .(closures := n.closures[m.id := m], started := n.started + {m.id},
                executed := n.executed + [m.id]))
  }

  /** One message taken from the caller's own slot by `call_and_wait`. */
  function ReadSlot(v: View, t: nat, outer: nat): View
    requires Stack(v.me, t) != [] && Top(v.me, t).Calling?
    requires Top(v.me, t).m.id in v.me.slots && v.me.slots[Top(v.me, t).m.id] != []
  {
    var n, f := v.me, Top(v.me, t);
    var m := n.slots[f.m.id][0];
    var taken := n.(slots := n.slots[f.m.id := n.slots[f.m.id][1..]]);
    if m.error != 0 then v.(me := Left(taken, t))
    else if m.mtype == f.m.mtype then v.(me := Left(taken, t).(returned := n.returned[f.m.id := m]))
    else if f.raw then v.(me := taken.(started := n.started + {m.id}))
    else MakeLocalCall(v.(me := taken), t, outer, m)
  }

  /** The call is posted to the pool. */
  function Posted(v: View, m: Msg): View {
    v.(me := v.me.(queued := v.me.queued[m.id := m]))
  }

  /** `push_rpc_message_all`. */
  function ToAllSlots(v: View, m: Msg): View {
    v.(me := v.me.(slots := Broadcast(v.me.slots, m)))
  }

  function ProcessCall(v: View, m: Msg, admit: bool): View {
    if v.me.side == Client && m.id == 0 then ToAllSlots(v, m)
    else if v.me.side == Server && !admit then Refused(v, m, ERR_BUSY)
    else Posted(v, m)
  }

  /** The next message is taken from the wire; `Received` also notes that it is a request. */
  function Popped(v: View): View
    requires v.inbox != []
  {
    v.(inbox := v.inbox[1..])
  }

  function Received(v: View): View
    requires v.inbox != []
  {
    v.(inbox := v.inbox[1..], me := v.me.(received := v.me.received + {v.inbox[0].id}))
  }

  /** A slot was found for the message. */
  function Aimed(v: View, slot: nat, m: Msg): View {
    v.(me := v.me.(pushing := Some(Delivery(slot, m))))
  }

  /** The message is pushed, if its slot is still there. */
  function Pushed(slots: map<nat, seq<Msg>>, d: Delivery): map<nat, seq<Msg>> {
    if d.slot in slots then slots[d.slot := slots[d.slot] + [d.m]] else slots
  }

  /** The dispatch loop's next message. */
  function Dispatch(v: View, admit: bool): View
    requires v.inbox != []
  {
    var m, peer := v.inbox[0], Other(v.me.side);
    if m.mtype == DirectType(peer) then ProcessCall(Received(v), m, admit)
    else if m.mtype == CallbackType(peer) then
      if m.target in v.me.slots then Aimed(Received(v), m.target, m)
      else if m.alone then ProcessCall(Received(v), m, admit)
      else NoContext(Received(v), m)
    else if OwnType(v.me.side, m.mtype) && m.id in v.me.slots then Aimed(Popped(v), m.id, m)
    else Popped(v)
  }

  /** `write_all`. */
  function Broadcast(slots: map<nat, seq<Msg>>, m: Msg): map<nat, seq<Msg>> {
    map k | k in slots :: slots[k] + [m]
  }

  function SystemErrorMessage(error: nat): Msg {
    Msg(0, 0, MessageNone, false, false, false, error, NoBody)
  }

  predicate Enabled(v: View, step: Step) {
    var n := v.me;
    match step
    case Begin(t, _, _, _, _, _, _) => Running(n, t) && n.calls < n.limit
    case Register(t) => Stack(n, t) != [] && Top(n, t).Calling? && Top(n, t).stage == Configured
    case Transmit(t) => Stack(n, t) != [] && Top(n, t).Calling? && Top(n, t).stage == Registered
    case Leave(t) => Stack(n, t) != [] && Top(n, t).Calling?
    case Read(t, _) =>
      Stack(n, t) != [] && Top(n, t).Calling? && Top(n, t).stage == Waiting
      && Top(n, t).m.id in n.slots && n.slots[Top(n, t).m.id] != []
    case Deliver(_) => v.inbox != [] && n.pushing == None
    case Push => n.pushing != None
    case StartQueued(t, id) => Stack(n, t) == [] && id in n.queued
    case RunClosure(id, _, _) => id in n.closures
    case Return(t) => Stack(n, t) != [] && Top(n, t).Handling?
    case Throw(t, error) =>
      Stack(n, t) != [] && Top(n, t).Handling? && Top(n, t).m.id in n.closures && error != 0
    case SystemError(error) => error != 0
  }

  function Next(v: View, step: Step): View
    requires Enabled(v, step)
  {
    var n := v.me;
    match step
    case Begin(_, _, _, _, _, _, _) => Begun(v, step)
    case Register(t) =>
      var f := Top(n, t);
      // insert keeps a queue that is already there
      v.(me := SetStack(n, t, Stack(n, t)[..|Stack(n, t)| - 1] + [f.(stage := Registered)])
              .(slots := if f.m.id in n.slots then n.slots else n.slots[f.m.id := []]))
    case Transmit(t) =>
      var f := Top(n, t);
      v.(me := SetStack(n, t, Stack(n, t)[..|Stack(n, t)| - 1] + [f.(stage := Waiting)])
              .(transmitted := n.transmitted + {f.m.id}),
         outbox := v.outbox + [f.m])
    case Leave(t) => v.(me := Left(n, t))
    case Read(t, outer) => ReadSlot(v, t, outer)
    case Deliver(admit) => Dispatch(v, admit)
    case Push =>
      v.(me := n.(pushing := None, slots := Pushed(n.slots, n.pushing.value)))
    case StartQueued(t, id) =>
      MakeLocalCall(v.(me := n.(queued := n.queued - {id})), t, 0, n.queued[id])
    case RunClosure(id, error, data) =>
      Answered(v.(me := n.(closures := n.closures - {id})), Answer(n.closures[id], error, data))
    case Return(t) => v.(me := PopFrame(n, t))
    case Throw(t, error) =>
      var m := Top(n, t).m;
      Refused(v.(me := PopFrame(n, t).(closures := n.closures - {m.id})), m, error)
    case SystemError(error) => ToAllSlots(v, SystemErrorMessage(error))
  }

  // ---- the two nodes -----------------------------------------------------------------------

  datatype System = System(client: Node, server: Node, toServer: seq<Msg>, toClient: seq<Msg>)

  function At(s: System, side: Side): View {
    if side == Client then View(s.client, s.toClient, s.toServer) else View(s.server, s.toServer, s.toClient)
  }

  function Put(s: System, side: Side, v: View): System {
    if side == Client then System(v.me, s.server, v.outbox, v.inbox) else System(s.client, v.me, v.inbox, v.outbox)
  }

  datatype Move = Move(side: Side, step: Step)

  /** A step that cannot happen changes nothing. */
  function Moved(s: System, m: Move): System {
    if Enabled(At(s, m.side), m.step) then Put(s, m.side, Next(At(s, m.side), m.step)) else s
  }

  function Exec(s: System, moves: seq<Move>): System
    decreases |moves|
  {
    if moves == [] then s else Exec(Moved(s, moves[0]), moves[1..])
  }

  /** Both nodes new, each with the number of calls it may make. */
  function StartWith(clientDepth: nat, serverDepth: nat, clientLimit: nat, serverLimit: nat): System {
    System(NewNode(Client, clientDepth, clientLimit), NewNode(Server, serverDepth, serverLimit), [], [])
  }

  function Start(clientDepth: nat, serverDepth: nat): System {
    StartWith(clientDepth, serverDepth, CallLimit(Client), CallLimit(Server))
  }
}
