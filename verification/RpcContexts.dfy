/**
 * A server with any number of clients: `configure_message` of lib/vtrc/common/rpc-channel.cpp with the channels of
 * lib/vtrc/server/channels.cpp. The call context is a thread's, not a connection's, so a thread that handles a
 * call of one client may make a callback over another client's connection. The server's threads are shared: each
 * has one stack, in which the frames of all connections stand in the order in which they were pushed.
 */
module RpcContexts {
  import opened Rpc
  import opened RpcSafety
  import opened RpcSteps
  import opened RpcResults
  import opened RpcWaits
  import opened Wrappers

  /** The call number `id` made by the client of the connection `conn`. */
  datatype Origin = Origin(conn: nat, id: nat)

  /**
   * A channel over the connection `over`. `source` is the context it was constructed in, if that accepts
   * callbacks: `static_target_` and `accept_callbacks_`.
   */
  datatype Channel = Channel(over: nat, source: Option<Origin>)

  /** A frame of a server thread: whose it is, and whether a call waits there or a message is handled. */
  datatype Entry = Entry(conn: nat, calling: bool)

  /** `origins` records for the callbacks made over each connection, by their ids, the context that gave the target. */
  datatype Hub = Hub(conns: seq<System>, threads: map<nat, seq<Entry>>, channels: seq<Channel>,
                     origins: map<(nat, nat), Origin>)

  /** Where a call takes its type and target from: nowhere, the thread's context, or the channel's own. */
  datatype Use = Plain | Current | Stored(channel: nat)

  /** What callers choose of a call. */
  datatype Options = Options(wait: bool, accept: bool, alone: bool, raw: bool, data: int)

  /** `Serve` is any step of the server in one connection but the beginning of a call. */
  datatype HubStep =
    | Visit(conn: nat, step: Step)
    | Serve(conn: nat, step: Step)
    | Construct(t: nat, over: nat)
    | Call(t: nat, over: nat, use: Use, options: Options)

  function ServerOf(s: System): Node {
    At(s, Server).me
  }

  function Entries(h: Hub, t: nat): seq<Entry> {
    if t in h.threads then h.threads[t] else []
  }

  /** The thread runs user code. */
  predicate Free(h: Hub, t: nat) {
    var s := Entries(h, t);
    s == [] || !s[|s| - 1].calling
  }

  /** `call_context::get` with `can_accept_callbacks`. */
  function Context(h: Hub, t: nat): Option<Origin> {
    var s := Entries(h, t);
    if s == [] || s[|s| - 1].conn >= |h.conns| then None
    else
      var n := ServerOf(h.conns[s[|s| - 1].conn]);
      if Stack(n, t) != [] && Top(n, t).m.wait && Top(n, t).m.accept then
        Some(Origin(s[|s| - 1].conn, Top(n, t).m.id))
      else None
  }

  predicate OnThread(step: Step) {
    step.Begin? || step.Register? || step.Transmit? || step.Leave? || step.Read? || step.StartQueued? || step.Return?
    || step.Throw?
  }

  /** A server thread works on the connection of its last frame; a queued call starts on an idle thread. */
  predicate InTurn(h: Hub, c: nat, step: Step)
    requires c < |h.conns|
  {
    OnThread(step) ==>
      var s := Entries(h, step.t);
      if step.StartQueued? then s == []
      else if step.Begin? then Free(h, step.t)
      else
        && s != [] && s[|s| - 1].conn == c
        && (step.Read? ==> step.outer + |Stack(ServerOf(h.conns[c]), step.t)| == |s|)
  }

  predicate Allowed(h: Hub, step: HubStep) {
    match step
    case Visit(conn, step) => conn < |h.conns|
    case Serve(conn, step) => conn < |h.conns| && !step.Begin? && InTurn(h, conn, step)
    case Construct(t, over) => over < |h.conns| && Free(h, t)
    case Call(t, over, use, _) =>
      && over < |h.conns| && Free(h, t) && ServerOf(h.conns[over]).calls < ServerOf(h.conns[over]).limit
      && (use.Stored? ==>
            use.channel < |h.channels| && h.channels[use.channel].over == over && h.channels[use.channel].source.Some?)
  }

  /** A frame more or less on a thread of the server. */
  function Merge(s: seq<Entry>, c: nat, before: seq<Frame>, after: seq<Frame>): seq<Entry> {
    if |after| > |before| then s + [Entry(c, after[|after| - 1].Calling?)]
    else if |after| < |before| && s != [] then s[..|s| - 1]
    else s
  }

  function Served(h: Hub, c: nat, step: Step): Hub
    requires c < |h.conns|
  {
    var s := Moved(h.conns[c], Move(Server, step));
    var n, now := ServerOf(h.conns[c]), ServerOf(s);
    h.(conns := h.conns[c := s],
       threads :=
         if OnThread(step) then
           h.threads[step.t := Merge(Entries(h, step.t), c, Stack(n, step.t), Stack(now, step.t))]
         else h.threads)
  }

  /** The context whose call a callback is aimed at. */
  function Source(h: Hub, t: nat, use: Use): Option<Origin> {
    match use
    case Plain => None
    case Current => Context(h, t)
    case Stored(channel) => if channel < |h.channels| then h.channels[channel].source else None
  }

  /** `configure_message`: without a context that accepts callbacks the call is a direct one. */
  function Beginning(t: nat, source: Option<Origin>, o: Options): Step {
    Begin(t, if source.Some? then StaticContext(source.value.id) else Direct, o.wait, o.accept, o.alone, o.raw, o.data)
  }

  function NextId(h: Hub, c: nat): nat
    requires c < |h.conns|
  {
    CallId(Server, ServerOf(h.conns[c]).calls + 1)
  }

  function HubNext(h: Hub, step: HubStep): Hub
    requires Allowed(h, step)
  {
    match step
    case Visit(conn, step) => h.(conns := h.conns[conn := Moved(h.conns[conn], Move(Client, step))])
    case Serve(conn, step) => Served(h, conn, step)
    case Construct(t, over) => h.(channels := h.channels + [Channel(over, Context(h, t))])
    case Call(t, over, use, o) =>
      var source := Source(h, t, use);
      var h' := Served(h, over, Beginning(t, source, o));
      if source.Some? then h'.(origins := h.origins[(over, NextId(h, over)) := source.value]) else h'
  }

  function HubMoved(h: Hub, step: HubStep): Hub {
    if Allowed(h, step) then HubNext(h, step) else h
  }

  function HubExec(h: Hub, steps: seq<HubStep>): Hub
    decreases |steps|
  {
    if steps == [] then h else HubExec(HubMoved(h, steps[0]), steps[1..])
  }

  /** One connection to each client, all new. */
  function HubStart(clientDepths: seq<nat>, serverDepth: nat): Hub {
    Hub(seq(|clientDepths|, i requires 0 <= i < |clientDepths| => Start(clientDepths[i], serverDepth)),
        map[], [], map[])
  }

  // ---- what a step does to stacks and requests ---------------------------------------------

  predicate SameKinds(a: seq<Frame>, b: seq<Frame>) {
    |a| == |b| && forall i | 0 <= i < |a| :: a[i].Calling? == b[i].Calling?
  }

  predicate Pushes(a: seq<Frame>, b: seq<Frame>) {
    b != [] && b[..|b| - 1] == a
  }

  /** What the step of a node may do to the stack of its thread; a handler starts only within the depth. */
  predicate Shifts(maxDepth: nat, step: Step, a: seq<Frame>, b: seq<Frame>) {
    || SameKinds(a, b)
    || (Pushes(b, a) && !step.Begin? && !step.StartQueued?)
    || (Pushes(a, b) && step.Begin? && b[|b| - 1].Calling?)
    || (Pushes(a, b) && step.Read? && b[|b| - 1].Handling? && a != [] && a[|a| - 1].Calling?
        && step.outer + |b| <= maxDepth)
    || (Pushes(a, b) && step.StartQueued? && b[|b| - 1].Handling? && |b| <= maxDepth)
  }

  /** Nothing but a stack, or more, is as it was. */
  predicate Steady(n: Node, now: Node) {
    now.sent == n.sent && now.maxDepth == n.maxDepth && now.limit == n.limit && now.calls == n.calls
  }

  lemma RefusedSteady(v: View, m: Msg, error: nat)
    ensures Steady(v.me, Refused(v, m, error).me) && Refused(v, m, error).me.threads == v.me.threads
  {
  }

  lemma NoContextSteady(v: View, m: Msg)
    ensures Steady(v.me, NoContext(v, m).me) && NoContext(v, m).me.threads == v.me.threads
  {
  }

  /** A message begins to be handled on the thread, within the depth. */
  ghost predicate Enters(n: Node, now: Node, t: nat, outer: nat) {
    && outer + |Stack(n, t)| + 1 <= n.maxDepth
    && exists m :: now.threads == n.threads[t := Stack(n, t) + [Handling(m)]]
  }

  lemma LocalCallShifts(v: View, t: nat, outer: nat, m: Msg)
    ensures
      var now := MakeLocalCall(v, t, outer, m).me;
      && Steady(v.me, now)
      && (now.threads == v.me.threads || Enters(v.me, now, t, outer))
  {
  }

  lemma BegunShifts(v: View, step: Step)
    requires step.Begin?
    ensures
      var n, now, m := v.me, Begun(v, step).me, Configure(v.me, step.t, step);
      && now.sent == n.sent[m.id := m] && now.maxDepth == n.maxDepth && now.limit == n.limit
      && (now.threads == n.threads
          || now.threads == n.threads[step.t := Stack(n, step.t) + [Calling(m, Configured, step.raw)]])
  {
    BegunIs(v, step);
    hide Configure, Begun;
  }

  lemma SteadyThrough(n: Node, w: Node, now: Node)
    requires Steady(n, w) && Steady(w, now) && w.threads == n.threads && now.threads == w.threads
    ensures Steady(n, now) && now.threads == n.threads
  {
  }

  lemma ReceivedSteady(v: View)
    requires v.inbox != []
    ensures Steady(v.me, Received(v).me) && Received(v).me.threads == v.me.threads && Popped(v).me == v.me
  {
  }

  lemma AimedSteady(v: View, m: Msg)
    ensures Steady(v.me, Aimed(v, m.target, m).me) && Aimed(v, m.target, m).me.threads == v.me.threads
  {
  }

  lemma ProcessCallSteady(v: View, m: Msg, admit: bool)
    ensures Steady(v.me, ProcessCall(v, m, admit).me) && ProcessCall(v, m, admit).me.threads == v.me.threads
  {
    RefusedSteady(v, m, ERR_BUSY);
    hide Refused, Broadcast;
  }

  lemma DeliverSteady(v: View, admit: bool)
    requires Enabled(v, Deliver(admit))
    ensures Steady(v.me, Dispatch(v, admit).me) && Dispatch(v, admit).me.threads == v.me.threads
  {
    var m, w := v.inbox[0], Received(v);
    ReceivedSteady(v);
    if OwnType(v.me.side, m.mtype) {
      AnswerDispatch(v, admit);
      hide Dispatch;
    } else {
      RequestDispatch(v, admit);
      AimedSteady(w, m);
      ProcessCallSteady(w, m, admit);
      NoContextSteady(w, m);
      hide Dispatch, ProcessCall, NoContext, Received, Aimed, Popped, Steady;
      if Dispatch(v, admit) == Popped(v) {
        SteadySame(v.me);
      } else {
        SteadyThrough(v.me, w.me, Dispatch(v, admit).me);
      }
    }
  }

  lemma SteadySame(n: Node)
    ensures Steady(n, n)
  {
  }

  lemma LeftSteady(n: Node, t: nat, k: nat, m: Msg)
    requires Stack(n, t) != []
    ensures
      && Steady(n, Left(n, t)) && Steady(n, Left(n, t).(returned := n.returned[k := m]))
      && Left(n, t).threads == n.threads[t := Stack(n, t)[..|Stack(n, t)| - 1]]
  {
  }

  lemma ReadShifts(v: View, t: nat, outer: nat)
    requires Enabled(v, Read(t, outer))
    ensures
      var n, now := v.me, Next(v, Read(t, outer)).me;
      && Steady(n, now)
      && (now.threads == n.threads
          || now.threads == n.threads[t := Stack(n, t)[..|Stack(n, t)| - 1]]
          || Enters(n, now, t, outer))
  {
    var n, f := v.me, Top(v.me, t);
    var m := n.slots[f.m.id][0];
    LeftSteady(n, t, f.m.id, m);
    if m.error != 0 {
      ReadsError(v, t, outer);
      hide Left, Next, Steady;
    } else if m.mtype == f.m.mtype {
      ReadsAnswer(v, t, outer);
      hide Left, Next, Steady;
    } else {
      CallbackShifts(v, t, outer);
      hide Left, Next, Steady;
    }
  }

  lemma TakenSteady(n: Node, k: nat)
    requires k in n.slots && n.slots[k] != []
    ensures
      var w := Taken(n, k);
      && Steady(n, w) && w.threads == n.threads
      && forall id: nat :: Steady(w, w.(started := w.started + {id}))
          && w.(started := w.started + {id}).threads == w.threads
  {
  }

  lemma CallbackShifts(v: View, t: nat, outer: nat)
    requires Enabled(v, Read(t, outer))
    requires
      var f := Top(v.me, t);
      v.me.slots[f.m.id][0].error == 0 && v.me.slots[f.m.id][0].mtype != f.m.mtype
    ensures
      var n, now := v.me, Next(v, Read(t, outer)).me;
      && Steady(n, now)
      && (now.threads == n.threads
          || Enters(n, now, t, outer))
  {
    var n, f := v.me, Top(v.me, t);
    var m := n.slots[f.m.id][0];
    var w := v.(me := Taken(n, f.m.id));
    TakenSteady(n, f.m.id);
    LocalCallShifts(w, t, outer, m);
    assert Next(v, Read(t, outer)) ==
      if f.raw then w.(me := w.me.(started := w.me.started + {m.id})) else MakeLocalCall(w, t, outer, m);
    hide MakeLocalCall, Next, Taken, Enabled;
  }

  lemma RegisterShifts(v: View, t: nat)
    requires Enabled(v, Register(t))
    ensures
      var n, now := v.me, Next(v, Register(t)).me;
      && Steady(n, now)
      && now.threads == n.threads[t := Stack(n, t)[..|Stack(n, t)| - 1] + [Top(n, t).(stage := Registered)]]
  {
  }

  lemma TransmitShifts(v: View, t: nat)
    requires Enabled(v, Transmit(t))
    ensures
      var n, now := v.me, Next(v, Transmit(t)).me;
      && Steady(n, now)
      && now.threads == n.threads[t := Stack(n, t)[..|Stack(n, t)| - 1] + [Top(n, t).(stage := Waiting)]]
  {
  }

  lemma HandlersShift(v: View, step: Step)
    requires Enabled(v, step) && (step.Return? || step.Throw?)
    ensures
      var n, now := v.me, Next(v, step).me;
      && Steady(n, now)
      && now.threads == n.threads[step.t := Stack(n, step.t)[..|Stack(n, step.t)| - 1]]
  {
    if step.Throw? {
      var m := Top(v.me, step.t).m;
      var w := v.(me := PopFrame(v.me, step.t).(closures := v.me.closures - {m.id}));
      RefusedSteady(w, m, step.error);
      hide Refused;
    }
  }

  lemma StartShifts(v: View, t: nat, id: nat)
    requires Enabled(v, StartQueued(t, id))
    ensures
      var n, now := v.me, Next(v, StartQueued(t, id)).me;
      && Steady(n, now)
      && (now.threads == n.threads
          || Enters(n, now, t, 0))
  {
    LocalCallShifts(v.(me := v.me.(queued := v.me.queued - {id})), t, 0, v.me.queued[id]);
    hide MakeLocalCall;
  }

  lemma OthersSteady(v: View, step: Step)
    requires Enabled(v, step) && !OnThread(step)
    ensures Steady(v.me, Next(v, step).me) && Next(v, step).me.threads == v.me.threads
  {
    match step
    case Deliver(admit) => DeliverSteady(v, admit); hide Dispatch;
    case Push =>
    case RunClosure(_, _, _) =>
    case SystemError(_) => hide Broadcast;
  }

  /** A stack with its last frame exchanged for one of the same kind. */
  lemma SameTop(a: seq<Frame>, f: Frame)
    requires a != [] && a[|a| - 1].Calling? == f.Calling?
    ensures SameKinds(a, a[..|a| - 1] + [f])
  {
  }

  lemma PushesOne(a: seq<Frame>, f: Frame)
    ensures Pushes(a, a + [f]) && (a + [f])[|a + [f]| - 1] == f
  {
  }

  lemma ShiftsSame(maxDepth: nat, step: Step, a: seq<Frame>)
    ensures Shifts(maxDepth, step, a, a)
  {
  }

  /** What a step on a thread of its own leaves. */
  predicate MovesThread(n: Node, now: Node, step: Step)
    requires OnThread(step)
  {
    && now.maxDepth == n.maxDepth && now.limit == n.limit && (!step.Begin? ==> now.sent == n.sent)
    && (now.threads == n.threads || now.threads == n.threads[step.t := Stack(now, step.t)])
    && Shifts(n.maxDepth, step, Stack(n, step.t), Stack(now, step.t))
  }

  lemma MovesTo(n: Node, now: Node, step: Step, stack: seq<Frame>)
    requires OnThread(step) && Shifts(n.maxDepth, step, Stack(n, step.t), stack)
    requires now.maxDepth == n.maxDepth && now.limit == n.limit && (!step.Begin? ==> now.sent == n.sent)
    requires now.threads == n.threads[step.t := stack]
    ensures MovesThread(n, now, step)
  {
    hide Shifts;
  }

  lemma MovesNot(n: Node, now: Node, step: Step)
    requires OnThread(step)
    requires now.maxDepth == n.maxDepth && now.limit == n.limit && (!step.Begin? ==> now.sent == n.sent)
    requires now.threads == n.threads
    ensures MovesThread(n, now, step)
  {
    ShiftsSame(n.maxDepth, step, Stack(n, step.t));
    hide Shifts;
  }

  lemma MovesEnter(n: Node, now: Node, step: Step, outer: nat)
    requires (step.StartQueued? && outer == 0)
             || (step.Read? && outer == step.outer && Stack(n, step.t) != [] && Top(n, step.t).Calling?)
    requires Steady(n, now) && (now.threads == n.threads || Enters(n, now, step.t, outer))
    ensures MovesThread(n, now, step)
  {
    hide MovesThread;
    if now.threads == n.threads {
      MovesNot(n, now, step);
    } else {
      var m :| now.threads == n.threads[step.t := Stack(n, step.t) + [Handling(m)]];
      PushesOne(Stack(n, step.t), Handling(m));
      hide SameKinds;
      MovesTo(n, now, step, Stack(n, step.t) + [Handling(m)]);
    }
  }

  lemma MovesDown(n: Node, now: Node, step: Step)
    requires Steady(n, now) && OnThread(step) && Stack(n, step.t) != [] && !step.Begin? && !step.StartQueued?
    requires now.threads == n.threads[step.t := Stack(n, step.t)[..|Stack(n, step.t)| - 1]]
    ensures MovesThread(n, now, step)
  {
    hide MovesThread, SameKinds;
    MovesTo(n, now, step, Stack(n, step.t)[..|Stack(n, step.t)| - 1]);
  }

  lemma BeginMoves(v: View, step: Step)
    requires step.Begin?
    ensures MovesThread(v.me, Begun(v, step).me, step)
  {
    var n, now, f := v.me, Begun(v, step).me, Calling(Configure(v.me, step.t, step), Configured, step.raw);
    BegunShifts(v, step);
    PushesOne(Stack(n, step.t), f);
    hide Begun, Configure, SameKinds, MovesThread;
    if now.threads == n.threads {
      MovesNot(n, now, step);
    } else {
      MovesTo(n, now, step, Stack(n, step.t) + [f]);
    }
  }

  lemma StageMoves(v: View, step: Step)
    requires Enabled(v, step) && (step.Register? || step.Transmit?)
    ensures MovesThread(v.me, Next(v, step).me, step)
  {
    var n, now := v.me, Next(v, step).me;
    var f := Top(n, step.t).(stage := if step.Register? then Registered else Waiting);
    if step.Register? { RegisterShifts(v, step.t); } else { TransmitShifts(v, step.t); }
    SameTop(Stack(n, step.t), f);
    hide Next, SameKinds, MovesThread;
    MovesTo(n, now, step, Stack(n, step.t)[..|Stack(n, step.t)| - 1] + [f]);
  }

  lemma ReadMoves(v: View, t: nat, outer: nat)
    requires Enabled(v, Read(t, outer))
    ensures MovesThread(v.me, Next(v, Read(t, outer)).me, Read(t, outer))
  {
    ReadShifts(v, t, outer);
    hide Next, MovesThread, Enters;
    if v.me.threads == Next(v, Read(t, outer)).me.threads || Enters(v.me, Next(v, Read(t, outer)).me, t, outer) {
      MovesEnter(v.me, Next(v, Read(t, outer)).me, Read(t, outer), outer);
    } else {
      MovesDown(v.me, Next(v, Read(t, outer)).me, Read(t, outer));
    }
  }

  lemma ThreadShifts(v: View, step: Step)
    requires Enabled(v, step) && OnThread(step)
    ensures MovesThread(v.me, Next(v, step).me, step)
  {
    hide MovesThread, Steady, Enters;
    match step
    case Begin(_, _, _, _, _, _, _) => BeginMoves(v, step);
    case Register(t) => StageMoves(v, step);
    case Transmit(t) => StageMoves(v, step);
    case Leave(t) =>
      LeftSteady(v.me, t, 0, Top(v.me, t).m);
      hide Left;
      MovesDown(v.me, Next(v, step).me, step);
    case Read(t, outer) => ReadMoves(v, t, outer);
    case StartQueued(t, id) =>
      StartShifts(v, t, id);
      hide Next;
      MovesEnter(v.me, Next(v, step).me, step, 0);
    case Return(t) => HandlersShift(v, step); hide Next; MovesDown(v.me, Next(v, step).me, step);
    case Throw(t, error) => HandlersShift(v, step); hide Next; MovesDown(v.me, Next(v, step).me, step);
  }

  lemma StepShifts(v: View, step: Step, u: nat)
    requires Enabled(v, step)
    ensures
      var n, now := v.me, Next(v, step).me;
      && now.maxDepth == n.maxDepth && now.limit == n.limit && (!step.Begin? ==> now.sent == n.sent)
      && if OnThread(step) && u == step.t then Shifts(n.maxDepth, step, Stack(n, u), Stack(now, u))
         else Stack(now, u) == Stack(n, u)
  {
    if OnThread(step) {
      ThreadShifts(v, step);
    } else {
      OthersSteady(v, step);
    }
    hide Next, Enabled, Shifts;
  }

  // ---- one stack for all connections -------------------------------------------------------

  /** The frames of the connection `c` among the entries are those of its own stack, in order. */
  predicate Matches(s: seq<Entry>, c: nat, stack: seq<Frame>)
    decreases |s|
  {
    if s == [] then stack == []
    else if s[|s| - 1].conn == c then
      && stack != [] && stack[|stack| - 1].Calling? == s[|s| - 1].calling
      && Matches(s[..|s| - 1], c, stack[..|stack| - 1])
    else Matches(s[..|s| - 1], c, stack)
  }

  lemma {:induction false} MatchesSame(s: seq<Entry>, c: nat, a: seq<Frame>, b: seq<Frame>)
    requires Matches(s, c, a) && SameKinds(a, b)
    ensures Matches(s, c, b)
    decreases |s|
  {
    if s != [] {
      var r := s[..|s| - 1];
      if s[|s| - 1].conn == c {
        MatchesSame(r, c, a[..|a| - 1], b[..|b| - 1]);
      } else {
        MatchesSame(r, c, a, b);
      }
    }
  }

  lemma MatchesSnoc(s: seq<Entry>, e: Entry, c: nat, stack: seq<Frame>)
    ensures
      Matches(s + [e], c, stack) <==>
        if e.conn == c then
          stack != [] && stack[|stack| - 1].Calling? == e.calling && Matches(s, c, stack[..|stack| - 1])
        else Matches(s, c, stack)
  {
    assert (s + [e])[..|s + [e]| - 1] == s;
  }

  lemma {:induction false} MatchesShorter(s: seq<Entry>, c: nat, stack: seq<Frame>)
    requires Matches(s, c, stack)
    ensures |stack| <= |s|
    decreases |s|
  {
    if s != [] {
      MatchesShorter(s[..|s| - 1], c, if s[|s| - 1].conn == c then stack[..|stack| - 1] else stack);
    }
  }

  /** Above a waiting call stands nothing but a message of its own connection being handled. */
  predicate Above(s: seq<Entry>) {
    forall i | 0 < i < |s| :: s[i - 1].calling ==> s[i] == Entry(s[i - 1].conn, false)
  }

  /** So a call that is last on the stack of its connection is last on the thread. */
  lemma {:induction false} LastCalling(s: seq<Entry>, c: nat, stack: seq<Frame>)
    requires Above(s) && Matches(s, c, stack) && stack != [] && stack[|stack| - 1].Calling?
    ensures s != [] && s[|s| - 1] == Entry(c, true)
    decreases |s|
  {
    if s[|s| - 1].conn != c {
      LastCalling(s[..|s| - 1], c, stack);
    }
  }

  /** A thread's entries: of known connections, and handlers within the depth, whatever connections they are of. */
  predicate ThreadOk(s: seq<Entry>, conns: nat, maxDepth: nat) {
    && Above(s)
    && forall i | 0 <= i < |s| :: s[i].conn < conns && (!s[i].calling ==> i + 1 <= maxDepth)
  }

  lemma ThreadPush(s: seq<Entry>, e: Entry, conns: nat, maxDepth: nat)
    requires ThreadOk(s, conns, maxDepth) && e.conn < conns && (!e.calling ==> |s| + 1 <= maxDepth)
    requires s != [] && s[|s| - 1].calling ==> e == Entry(s[|s| - 1].conn, false)
    ensures ThreadOk(s + [e], conns, maxDepth)
  {
  }

  lemma ThreadPop(s: seq<Entry>, conns: nat, maxDepth: nat)
    requires ThreadOk(s, conns, maxDepth) && s != []
    ensures ThreadOk(s[..|s| - 1], conns, maxDepth)
  {
  }

  /** What a step of the connection `c` makes of the entries of its thread. */
  lemma MergeKept(s: seq<Entry>, conns: nat, maxDepth: nat, c: nat, step: Step, a: seq<Frame>, b: seq<Frame>)
    requires ThreadOk(s, conns, maxDepth) && Matches(s, c, a) && Shifts(maxDepth, step, a, b) && c < conns
    requires
      if step.StartQueued? then s == []
      else if step.Begin? then s == [] || !s[|s| - 1].calling
      else s != [] && s[|s| - 1].conn == c && (step.Read? ==> step.outer + |a| == |s|)
    ensures ThreadOk(Merge(s, c, a, b), conns, maxDepth) && Matches(Merge(s, c, a, b), c, b)
  {
    if |b| > |a| {
      var e := Entry(c, b[|b| - 1].Calling?);
      ThreadPush(s, e, conns, maxDepth);
      MatchesSnoc(s, e, c, b);
    } else if |b| < |a| {
      ThreadPop(s, conns, maxDepth);
    } else {
      MatchesSame(s, c, a, b);
    }
  }

  lemma MergeOther(s: seq<Entry>, c: nat, a: seq<Frame>, b: seq<Frame>, d: nat, stack: seq<Frame>)
    requires Matches(s, d, stack) && d != c && (|b| < |a| ==> s != [] && s[|s| - 1].conn == c)
    ensures Matches(Merge(s, c, a, b), d, stack)
  {
    if |b| > |a| {
      MatchesSnoc(s, Entry(c, b[|b| - 1].Calling?), d, stack);
    }
  }

  // ---- what every run keeps ----------------------------------------------------------------

  /** The client of the connection made that call. */
  predicate Known(conns: seq<System>, o: Origin) {
    o.conn < |conns| && o.id in conns[o.conn].client.sent
  }

  ghost predicate ConnsOk(conns: seq<System>, maxDepth: nat) {
    forall c | 0 <= c < |conns| :: Inv(conns[c]) && ServerOf(conns[c]).maxDepth == maxDepth
  }

  ghost predicate StacksMatch(conns: seq<System>, t: nat, s: seq<Entry>) {
    forall c | 0 <= c < |conns| :: Matches(s, c, Stack(ServerOf(conns[c]), t))
  }

  ghost predicate ThreadsOk(h: Hub, maxDepth: nat) {
    forall t: nat :: ThreadOk(Entries(h, t), |h.conns|, maxDepth) && StacksMatch(h.conns, t, Entries(h, t))
  }

  ghost predicate ChannelsOk(conns: seq<System>, channels: seq<Channel>) {
    forall i | 0 <= i < |channels| && channels[i].source.Some? :: Known(conns, channels[i].source.value)
  }

  /** A callback carries the number of the call in whose context it was made. */
  predicate OriginOk(conns: seq<System>, origins: map<(nat, nat), Origin>, c: nat, id: nat, m: Msg) {
    m.mtype == ServerCallback ==>
      (c, id) in origins && origins[(c, id)].id == m.target && Known(conns, origins[(c, id)])
  }

  ghost predicate OriginsOk(conns: seq<System>, origins: map<(nat, nat), Origin>) {
    forall c, id: nat | 0 <= c < |conns| && id in ServerOf(conns[c]).sent ::
      OriginOk(conns, origins, c, id, ServerOf(conns[c]).sent[id])
  }

  ghost predicate HubInv(h: Hub, maxDepth: nat) {
    && ConnsOk(h.conns, maxDepth) && ThreadsOk(h, maxDepth)
    && ChannelsOk(h.conns, h.channels) && OriginsOk(h.conns, h.origins)
  }

  /** Requests once made are known for ever. */
  predicate Later(s: System, now: System) {
    s.client.sent.Keys <= now.client.sent.Keys
  }

  lemma KnownLater(conns: seq<System>, c: nat, now: System, o: Origin)
    requires c < |conns| && Later(conns[c], now) && Known(conns, o)
    ensures Known(conns[c := now], o)
  {
  }

  lemma ChannelsLater(conns: seq<System>, channels: seq<Channel>, c: nat, now: System)
    requires c < |conns| && Later(conns[c], now) && ChannelsOk(conns, channels)
    ensures ChannelsOk(conns[c := now], channels)
  {
    forall i | 0 <= i < |channels| && channels[i].source.Some?
      ensures Known(conns[c := now], channels[i].source.value)
    {
      KnownLater(conns, c, now, channels[i].source.value);
    }
  }

  lemma OriginLater(conns: seq<System>, origins: map<(nat, nat), Origin>, c: nat, now: System, d: nat, id: nat, m: Msg)
    requires c < |conns| && Later(conns[c], now) && OriginOk(conns, origins, d, id, m)
    ensures OriginOk(conns[c := now], origins, d, id, m)
  {
    if m.mtype == ServerCallback {
      KnownLater(conns, c, now, origins[(d, id)]);
    }
  }

  /** A connection whose server made no request since. */
  lemma OriginsLater(conns: seq<System>, origins: map<(nat, nat), Origin>, c: nat, now: System)
    requires c < |conns| && Later(conns[c], now) && OriginsOk(conns, origins)
    requires ServerOf(now).sent == ServerOf(conns[c]).sent
    ensures OriginsOk(conns[c := now], origins)
  {
    hide OriginOk, Later;
    var conns' := conns[c := now];
    forall d, id: nat | 0 <= d < |conns| && id in ServerOf(conns'[d]).sent
      ensures OriginOk(conns', origins, d, id, ServerOf(conns'[d]).sent[id])
    {
      OriginLater(conns, origins, c, now, d, id, ServerOf(conns[d]).sent[id]);
    }
  }

  /** A connection whose server made the request `m`, with the origin recorded if it is a callback. */
  lemma OriginsMore(conns: seq<System>, origins: map<(nat, nat), Origin>, c: nat, now: System, m: Msg,
                    source: Option<Origin>)
    requires c < |conns| && Later(conns[c], now) && OriginsOk(conns, origins)
    requires ServerOf(now).sent == ServerOf(conns[c]).sent[m.id := m]
    requires source.Some? ==> Known(conns, source.value) && m.target == source.value.id
    requires source.None? ==> m.mtype != ServerCallback
    ensures OriginsOk(conns[c := now], if source.Some? then origins[(c, m.id) := source.value] else origins)
  {
    var conns', origins' := conns[c := now], if source.Some? then origins[(c, m.id) := source.value] else origins;
    if source.Some? {
      KnownLater(conns, c, now, source.value);
    }
    forall d, id: nat | 0 <= d < |conns| && id in ServerOf(conns'[d]).sent
      ensures OriginOk(conns', origins', d, id, ServerOf(conns'[d]).sent[id])
    {
      if (d, id) != (c, m.id) {
        assert id in ServerOf(conns[d]).sent && ServerOf(conns[d]).sent[id] == ServerOf(conns'[d]).sent[id];
        OriginLater(conns, origins, c, now, d, id, ServerOf(conns[d]).sent[id]);
      }
    }
  }

  // ---- every step keeps it -----------------------------------------------------------------

  lemma ClientMoves(s: System, step: Step)
    ensures
      var now := Moved(s, Move(Client, step));
      ServerOf(now) == ServerOf(s) && Later(s, now)
  {
    var v := At(s, Client);
    if Enabled(v, step) {
      StepShifts(v, step, 0);
      if step.Begin? {
        BegunShifts(v, step);
      }
    }
    hide Next, Enabled, Begun, Configure;
  }

  lemma ServerMoves(s: System, step: Step)
    ensures
      var now := Moved(s, Move(Server, step));
      && now.client == s.client && Later(s, now)
      && ServerOf(now) == (if Enabled(At(s, Server), step) then Next(At(s, Server), step).me else ServerOf(s))
  {
    hide Next, Enabled;
  }

  lemma ConnsKept(conns: seq<System>, maxDepth: nat, c: nat, m: Move)
    requires c < |conns| && ConnsOk(conns, maxDepth)
    ensures ConnsOk(conns[c := Moved(conns[c], m)], maxDepth)
  {
    var s := conns[c];
    MovedKept(s, m);
    if m.side == Client {
      ClientMoves(s, m.step);
    } else {
      ServerMoves(s, m.step);
      if Enabled(At(s, Server), m.step) {
        StepShifts(At(s, Server), m.step, 0);
      }
    }
    hide Inv, Moved, ServerOf, Next, Enabled;
  }

  lemma VisitKept(h: Hub, maxDepth: nat, c: nat, step: Step)
    requires HubInv(h, maxDepth) && c < |h.conns|
    ensures HubInv(HubNext(h, Visit(c, step)), maxDepth)
  {
    var now := Moved(h.conns[c], Move(Client, step));
    ConnsKept(h.conns, maxDepth, c, Move(Client, step));
    ClientMoves(h.conns[c], step);
    hide ConnsOk, ChannelsOk, OriginsOk, Moved, Later;
    ChannelsLater(h.conns, h.channels, c, now);
    OriginsLater(h.conns, h.origins, c, now);
    hide ThreadsOk;
    ThreadsAlike(h, HubNext(h, Visit(c, step)), maxDepth, c, now);
  }

  lemma ThreadsAlike(h: Hub, h': Hub, maxDepth: nat, c: nat, now: System)
    requires ThreadsOk(h, maxDepth) && c < |h.conns| && ServerOf(now) == ServerOf(h.conns[c])
    requires h'.conns == h.conns[c := now] && h'.threads == h.threads
    ensures ThreadsOk(h', maxDepth)
  {
    hide ThreadOk, Matches, Stack, ServerOf;
    forall t: nat ensures ThreadOk(Entries(h', t), |h'.conns|, maxDepth) && StacksMatch(h'.conns, t, Entries(h', t)) {
      assert StacksMatch(h.conns, t, Entries(h, t));
    }
  }

  /** The thread's stack and the connections' own stacks move together. */
  lemma ServedThread(h: Hub, maxDepth: nat, c: nat, step: Step, t: nat)
    requires ConnsOk(h.conns, maxDepth) && ThreadsOk(h, maxDepth) && c < |h.conns| && InTurn(h, c, step)
    ensures
      var h' := Served(h, c, step);
      ThreadOk(Entries(h', t), |h.conns|, maxDepth) && StacksMatch(h'.conns, t, Entries(h', t))
  {
    var v, now := At(h.conns[c], Server), Moved(h.conns[c], Move(Server, step));
    var s, a, b := Entries(h, t), Stack(v.me, t), Stack(ServerOf(now), t);
    assert ThreadOk(s, |h.conns|, maxDepth) && StacksMatch(h.conns, t, s);
    ServerMoves(h.conns[c], step);
    if Enabled(v, step) {
      StepShifts(v, step, t);
    } else {
      ShiftsSame(maxDepth, step, a);
    }
    ServerDepth(h, maxDepth, c);
    hide Inv, Next, Enabled, Moved, ThreadOk, Shifts, ConnsOk, ThreadsOk, StacksMatch, Stack, InTurn, Merge;
    if OnThread(step) && t == step.t {
      ServedOn(h, maxDepth, c, step, s, a, b);
    } else {
      StacksSame(h.conns, t, s, c, now);
    }
  }

  lemma StacksSame(conns: seq<System>, t: nat, s: seq<Entry>, c: nat, now: System)
    requires StacksMatch(conns, t, s) && c < |conns| && Stack(ServerOf(now), t) == Stack(ServerOf(conns[c]), t)
    ensures StacksMatch(conns[c := now], t, s)
  {
    hide Matches, Stack;
  }

  lemma ServerDepth(h: Hub, maxDepth: nat, c: nat)
    requires ConnsOk(h.conns, maxDepth) && c < |h.conns|
    ensures ServerOf(h.conns[c]).maxDepth == maxDepth && Inv(h.conns[c])
  {
  }

  lemma ServedOn(h: Hub, maxDepth: nat, c: nat, step: Step, s: seq<Entry>, a: seq<Frame>, b: seq<Frame>)
    requires c < |h.conns| && OnThread(step) && InTurn(h, c, step) && s == Entries(h, step.t)
    requires a == Stack(ServerOf(h.conns[c]), step.t) && b == Stack(ServerOf(Served(h, c, step).conns[c]), step.t)
    requires ThreadOk(s, |h.conns|, maxDepth) && StacksMatch(h.conns, step.t, s) && Shifts(maxDepth, step, a, b)
    ensures ThreadOk(Merge(s, c, a, b), |h.conns|, maxDepth)
    ensures StacksMatch(Served(h, c, step).conns, step.t, Merge(s, c, a, b))
  {
    hide Moved, ThreadOk, Matches, Stack;
    MergeKept(s, |h.conns|, maxDepth, c, step, a, b);
    hide Merge;
    var conns' := Served(h, c, step).conns;
    forall d | 0 <= d < |conns'| ensures Matches(Merge(s, c, a, b), d, Stack(ServerOf(conns'[d]), step.t)) {
      if d != c {
        MergeOther(s, c, a, b, d, Stack(ServerOf(h.conns[d]), step.t));
      }
    }
  }

  lemma ServedKept(h: Hub, maxDepth: nat, c: nat, step: Step)
    requires ConnsOk(h.conns, maxDepth) && ThreadsOk(h, maxDepth) && c < |h.conns| && InTurn(h, c, step)
    ensures
      var h' := Served(h, c, step);
      && |h'.conns| == |h.conns| && ConnsOk(h'.conns, maxDepth) && ThreadsOk(h', maxDepth)
      && h'.channels == h.channels && h'.origins == h.origins
  {
    var h' := Served(h, c, step);
    ConnsKept(h.conns, maxDepth, c, Move(Server, step));
    hide ConnsOk, Moved, ThreadOk, StacksMatch, InTurn, Merge;
    assert |h'.conns| == |h.conns|;
    forall t: nat ensures ThreadOk(Entries(h', t), |h'.conns|, maxDepth) && StacksMatch(h'.conns, t, Entries(h', t)) {
      hide ThreadsOk, Served, Entries;
      ServedThread(h, maxDepth, c, step, t);
    }
  }

  lemma ServeKept(h: Hub, maxDepth: nat, c: nat, step: Step)
    requires HubInv(h, maxDepth) && Allowed(h, Serve(c, step))
    ensures HubInv(HubNext(h, Serve(c, step)), maxDepth)
  {
    var now := Moved(h.conns[c], Move(Server, step));
    ServedKept(h, maxDepth, c, step);
    ServerMoves(h.conns[c], step);
    if Enabled(At(h.conns[c], Server), step) {
      StepShifts(At(h.conns[c], Server), step, 0);
    }
    assert Served(h, c, step).conns == h.conns[c := now];
    hide ConnsOk, ThreadsOk, ChannelsOk, OriginsOk, Moved, Later, Next, Enabled, Served, InTurn;
    ChannelsLater(h.conns, h.channels, c, now);
    OriginsLater(h.conns, h.origins, c, now);
  }

  /** Where user code runs on a thread, every connection's own stack says so too. */
  lemma FreeRuns(h: Hub, maxDepth: nat, t: nat, c: nat)
    requires ThreadsOk(h, maxDepth) && Free(h, t) && c < |h.conns|
    ensures Running(ServerOf(h.conns[c]), t)
  {
    var stack := Stack(ServerOf(h.conns[c]), t);
    assert ThreadOk(Entries(h, t), |h.conns|, maxDepth) && StacksMatch(h.conns, t, Entries(h, t));
    if stack != [] && stack[|stack| - 1].Calling? {
      LastCalling(Entries(h, t), c, stack);
    }
  }

  /** The context is a call that its connection's client made. */
  lemma ContextKnown(h: Hub, maxDepth: nat, t: nat)
    requires HubInv(h, maxDepth) && Free(h, t) && Context(h, t).Some?
    ensures Known(h.conns, Context(h, t).value)
  {
    var c := Context(h, t).value.conn;
    FreeRuns(h, maxDepth, t, c);
    ServerDepth(h, maxDepth, c);
    hide ThreadsOk, ChannelsOk, OriginsOk, ConnsOk;
    HandledKnown(h.conns[c], t);
  }

  lemma HandledKnown(s: System, t: nat)
    requires Inv(s) && Stack(ServerOf(s), t) != [] && Top(ServerOf(s), t).Handling?
    ensures Top(ServerOf(s), t).m.id in s.client.sent
  {
    SafeEverywhere(s, Server);
    hide Inv, Safe;
    HandledGenuine(At(s, Server), PeerOf(s, Server), t);
  }

  lemma SourceKnown(h: Hub, maxDepth: nat, t: nat, use: Use)
    requires HubInv(h, maxDepth) && Free(h, t) && Source(h, t, use).Some?
    ensures Known(h.conns, Source(h, t, use).value)
  {
    if use.Current? {
      ContextKnown(h, maxDepth, t);
    }
  }

  lemma ChannelsMore(conns: seq<System>, channels: seq<Channel>, channel: Channel)
    requires ChannelsOk(conns, channels) && (channel.source.Some? ==> Known(conns, channel.source.value))
    ensures ChannelsOk(conns, channels + [channel])
  {
  }

  lemma ConstructKept(h: Hub, maxDepth: nat, t: nat, over: nat)
    requires HubInv(h, maxDepth) && Allowed(h, Construct(t, over))
    ensures HubInv(HubNext(h, Construct(t, over)), maxDepth)
  {
    if Context(h, t).Some? {
      ContextKnown(h, maxDepth, t);
    }
    var channel := Channel(over, Context(h, t));
    hide ConnsOk, ThreadsOk, ChannelsOk, OriginsOk, Context, Known;
    ChannelsMore(h.conns, h.channels, channel);
    SameThreads(h, h.(channels := h.channels + [channel]), maxDepth);
  }

  /** What `configure_message` makes of a source. */
  lemma BeginningRight(n: Node, t: nat, source: Option<Origin>, o: Options)
    requires n.side == Server
    ensures
      var m := Configure(n, t, Beginning(t, source, o));
      && m.id == CallId(Server, n.calls + 1)
      && m == Msg(m.id, m.target, m.mtype, o.wait, o.accept, o.alone, 0, Request(o.data))
      && if source.Some? then m.mtype == ServerCallback && m.target == source.value.id else m.mtype == ServerCall
  {
    hide CallId;
  }

  /** A call that is allowed happens. */
  lemma CallEnabled(h: Hub, maxDepth: nat, t: nat, over: nat, use: Use, o: Options)
    requires HubInv(h, maxDepth) && Allowed(h, Call(t, over, use, o))
    ensures Enabled(At(h.conns[over], Server), Beginning(t, Source(h, t, use), o))
    ensures ServerOf(h.conns[over]).side == Server
  {
    FreeRuns(h, maxDepth, t, over);
    ServerDepth(h, maxDepth, over);
    ServerSide(h.conns[over]);
    hide ConnsOk, ThreadsOk, ChannelsOk, OriginsOk, Inv, Running, Source;
  }

  lemma BeginSends(s: System, step: Step)
    requires step.Begin? && Enabled(At(s, Server), step)
    ensures
      var m := Configure(ServerOf(s), step.t, step);
      ServerOf(Moved(s, Move(Server, step))).sent == ServerOf(s).sent[m.id := m]
  {
    ServerMoves(s, step);
    BegunShifts(At(s, Server), step);
    hide Begun, Configure, Moved, Enabled;
  }

  /** It is made under the next id, with the target its context gives. */
  lemma CallMade(h: Hub, maxDepth: nat, t: nat, over: nat, use: Use, o: Options)
    requires HubInv(h, maxDepth) && Allowed(h, Call(t, over, use, o))
    ensures
      var source := Source(h, t, use);
      var step := Beginning(t, source, o);
      var n := ServerOf(h.conns[over]);
      var m := Configure(n, t, step);
      && m.id == NextId(h, over)
      && m == Msg(m.id, m.target, m.mtype, o.wait, o.accept, o.alone, 0, Request(o.data))
      && (if source.Some? then m.mtype == ServerCallback && m.target == source.value.id else m.mtype == ServerCall)
      && ServerOf(Moved(h.conns[over], Move(Server, step))).sent == n.sent[m.id := m]
  {
    CallEnabled(h, maxDepth, t, over, use, o);
    hide HubInv, Enabled, Moved, Source, Configure, CallId;
    var source := Source(h, t, use);
    BeginningRight(ServerOf(h.conns[over]), t, source, o);
    BeginSends(h.conns[over], Beginning(t, source, o));
  }

  lemma ServerSide(s: System)
    requires Inv(s)
    ensures ServerOf(s).side == Server
  {
    hide Local, EntriesOk, ChannelOk, Keyed, StacksOk, AnswersOk, ReturnedOk, NothingLost;
  }

  lemma CallInTurn(h: Hub, t: nat, over: nat, use: Use, o: Options)
    requires Allowed(h, Call(t, over, use, o))
    ensures InTurn(h, over, Beginning(t, Source(h, t, use), o))
  {
    hide Source, Free;
  }

  lemma CallOrigins(h: Hub, maxDepth: nat, t: nat, over: nat, use: Use, o: Options)
    requires HubInv(h, maxDepth) && Allowed(h, Call(t, over, use, o))
    ensures
      var h' := HubNext(h, Call(t, over, use, o));
      ChannelsOk(h'.conns, h'.channels) && OriginsOk(h'.conns, h'.origins)
  {
    var source := Source(h, t, use);
    var step := Beginning(t, source, o);
    var now := Moved(h.conns[over], Move(Server, step));
    CallMade(h, maxDepth, t, over, use, o);
    if source.Some? {
      SourceKnown(h, maxDepth, t, use);
    }
    var m := Configure(ServerOf(h.conns[over]), t, step);
    hide ConnsOk, ThreadsOk, ChannelsOk, OriginsOk, Moved, Later, Beginning, Source, Enabled, Next, Configure;
    hide NextId, Known, Merge;
    ServerMoves(h.conns[over], step);
    ChannelsLater(h.conns, h.channels, over, now);
    OriginsMore(h.conns, h.origins, over, now, m, source);
  }

  lemma CallKept(h: Hub, maxDepth: nat, t: nat, over: nat, use: Use, o: Options)
    requires HubInv(h, maxDepth) && Allowed(h, Call(t, over, use, o))
    ensures HubInv(HubNext(h, Call(t, over, use, o)), maxDepth)
  {
    var step := Beginning(t, Source(h, t, use), o);
    CallInTurn(h, t, over, use, o);
    CallOrigins(h, maxDepth, t, over, use, o);
    ServedKept(h, maxDepth, over, step);
    hide ConnsOk, ChannelsOk, OriginsOk, Beginning, Source, NextId, ThreadsOk, Served;
    assert HubNext(h, Call(t, over, use, o)).conns == Served(h, over, step).conns;
    SameThreads(Served(h, over, step), HubNext(h, Call(t, over, use, o)), maxDepth);
  }

  lemma SameThreads(h: Hub, h': Hub, maxDepth: nat)
    requires ThreadsOk(h, maxDepth) && h'.conns == h.conns && h'.threads == h.threads
    ensures ThreadsOk(h', maxDepth)
  {
    hide ThreadOk, StacksMatch;
    forall t: nat ensures ThreadOk(Entries(h', t), |h'.conns|, maxDepth) && StacksMatch(h'.conns, t, Entries(h', t)) {
      assert Entries(h', t) == Entries(h, t);
    }
  }

  lemma HubKept(h: Hub, maxDepth: nat, step: HubStep)
    requires HubInv(h, maxDepth)
    ensures HubInv(HubMoved(h, step), maxDepth)
  {
    hide HubInv, HubNext;
    if Allowed(h, step) {
      match step
      case Visit(conn, step) => VisitKept(h, maxDepth, conn, step);
      case Serve(conn, step) => ServeKept(h, maxDepth, conn, step);
      case Construct(t, over) => ConstructKept(h, maxDepth, t, over);
      case Call(t, over, use, options) => CallKept(h, maxDepth, t, over, use, options);
    }
  }

  lemma {:induction false} HubRunKept(h: Hub, maxDepth: nat, steps: seq<HubStep>)
    requires HubInv(h, maxDepth)
    ensures HubInv(HubExec(h, steps), maxDepth)
    decreases |steps|
  {
    hide HubInv, HubMoved;
    if steps != [] {
      HubKept(h, maxDepth, steps[0]);
      HubRunKept(HubMoved(h, steps[0]), maxDepth, steps[1..]);
    }
  }

  lemma HubStartsRight(clientDepths: seq<nat>, serverDepth: nat)
    ensures HubInv(HubStart(clientDepths, serverDepth), serverDepth)
  {
    var h := HubStart(clientDepths, serverDepth);
    forall c | 0 <= c < |h.conns|
      ensures Inv(h.conns[c]) && ServerOf(h.conns[c]) == NewNode(Server, serverDepth, CallLimit(Server))
    {
      StartsRight(clientDepths[c], serverDepth);
    }
    hide Inv, CallLimit;
  }

  /** In every run of a server and its clients each thread's stack, each channel and each callback is in order. */
  lemma EveryHubRun(clientDepths: seq<nat>, serverDepth: nat, steps: seq<HubStep>)
    ensures HubInv(HubExec(HubStart(clientDepths, serverDepth), steps), serverDepth)
  {
    HubStartsRight(clientDepths, serverDepth);
    hide HubInv, HubStart;
    HubRunKept(HubStart(clientDepths, serverDepth), serverDepth, steps);
  }

  // ---- what holds of every run -------------------------------------------------------------

  lemma Connections(h: Hub, step: HubStep)
    ensures |HubMoved(h, step).conns| == |h.conns|
  {
    hide Moved, Merge, Source, Context;
  }

  /** A connection makes at most one move of the two-node system in each step. */
  lemma ConnectionMoves(h: Hub, step: HubStep, c: nat) returns (moves: seq<Move>)
    requires c < |h.conns|
    ensures |HubMoved(h, step).conns| == |h.conns| && HubMoved(h, step).conns[c] == Exec(h.conns[c], moves)
  {
    hide Moved, Merge, Source, Context, Exec;
    Connections(h, step);
    var m := match step
      case Visit(conn, step) => if conn == c then [Move(Client, step)] else []
      case Serve(conn, step) => if conn == c then [Move(Server, step)] else []
      case Construct(_, _) => []
      case Call(t, over, use, o) => if over == c then [Move(Server, Beginning(t, Source(h, t, use), o))] else [];
    moves := if Allowed(h, step) then m else [];
    if moves == [] {
      ExecNothing(h.conns[c]);
    } else {
      ExecOne(h.conns[c], moves[0]);
    }
  }

  lemma {:induction false} ConnectionRun(h: Hub, steps: seq<HubStep>, c: nat) returns (moves: seq<Move>)
    requires c < |h.conns|
    ensures |HubExec(h, steps).conns| == |h.conns| && HubExec(h, steps).conns[c] == Exec(h.conns[c], moves)
    decreases |steps|
  {
    if steps == [] {
      ExecNothing(h.conns[c]);
      moves := [];
    } else {
      hide HubMoved, Exec;
      var first := ConnectionMoves(h, steps[0], c);
      var rest := ConnectionRun(HubMoved(h, steps[0]), steps[1..], c);
      ExecConcat(h.conns[c], first, rest);
      moves := first + rest;
    }
  }

  /** Each connection of a server runs as if it were alone: what holds of every run of two nodes holds of it. */
  lemma EachConnection(clientDepths: seq<nat>, serverDepth: nat, steps: seq<HubStep>, c: nat)
    requires c < |clientDepths|
    ensures
      var h := HubExec(HubStart(clientDepths, serverDepth), steps);
      c < |h.conns| && exists moves :: h.conns[c] == Exec(Start(clientDepths[c], serverDepth), moves)
  {
    hide HubExec, Exec, Start;
    var moves := ConnectionRun(HubStart(clientDepths, serverDepth), steps, c);
  }

  /**
   * The depth limit holds across connections: a thread's entries are the frames of all its connections, and
   * no handler stands deeper than `max_stack_size`, counted over all of them.
   */
  lemma SharedDepth(clientDepths: seq<nat>, serverDepth: nat, steps: seq<HubStep>, t: nat, c: nat, i: nat)
    ensures
      var h := HubExec(HubStart(clientDepths, serverDepth), steps);
      var s := Entries(h, t);
      && (c < |h.conns| ==> Matches(s, c, Stack(ServerOf(h.conns[c]), t)))
      && (i < |s| && !s[i].calling ==> i + 1 <= serverDepth)
      && (0 < i < |s| && s[i - 1].calling ==> s[i] == Entry(s[i - 1].conn, false))
  {
    EveryHubRun(clientDepths, serverDepth, steps);
    var h := HubExec(HubStart(clientDepths, serverDepth), steps);
    hide HubExec, HubStart, Stack, Matches, ConnsOk, ChannelsOk, OriginsOk;
    assert ThreadOk(Entries(h, t), |h.conns|, serverDepth) && StacksMatch(h.conns, t, Entries(h, t));
  }

  // ---- whose callback is in whose slot -----------------------------------------------------

  /** The callback was made in the context of the call `k` of its own connection. */
  predicate Meant(h: Hub, c: nat, k: nat, m: Msg) {
    (c, m.id) in h.origins && h.origins[(c, m.id)] == Origin(c, k)
  }

  /** The channel a callback was made over was one to the connection of its context. */
  predicate OverOwn(h: Hub, c: nat, id: nat) {
    (c, id) in h.origins && h.origins[(c, id)].conn == c
  }

  /**
   * In every run, a callback in the slot of a client's call was made in the context of a call of that number,
   * which some client made. It is the call that waits there if and only if the channel's connection was the
   * context's.
   */
  lemma MeantIff(clientDepths: seq<nat>, serverDepth: nat, steps: seq<HubStep>, c: nat, k: nat, i: nat)
    requires
      var h := HubExec(HubStart(clientDepths, serverDepth), steps);
      && c < |h.conns| && k in h.conns[c].client.slots && i < |h.conns[c].client.slots[k]|
      && h.conns[c].client.slots[k][i].mtype == ServerCallback
    ensures
      var h := HubExec(HubStart(clientDepths, serverDepth), steps);
      var m := h.conns[c].client.slots[k][i];
      && (c, m.id) in h.origins && h.origins[(c, m.id)].id == k && Known(h.conns, h.origins[(c, m.id)])
      && (Meant(h, c, k, m) <==> OverOwn(h, c, m.id))
  {
    EveryHubRun(clientDepths, serverDepth, steps);
    var h := HubExec(HubStart(clientDepths, serverDepth), steps);
    hide HubExec, HubStart, Known;
    CallbackIn(h.conns[c], k, i) by { ServerDepth(h, serverDepth, c); }
    var m := h.conns[c].client.slots[k][i];
    assert OriginOk(h.conns, h.origins, c, m.id, m);
  }

  lemma CallbackIn(s: System, k: nat, i: nat)
    requires Inv(s) && k in s.client.slots && i < |s.client.slots[k]| && s.client.slots[k][i].mtype == ServerCallback
    ensures
      var m := s.client.slots[k][i];
      m.target == k && m.id in ServerOf(s).sent && ServerOf(s).sent[m.id] == m
  {
    hide Local, ChannelOk, Keyed, StacksOk, ReturnedOk, NothingLost, AnswersOk;
    assert EntryOk(Client, s.server.sent, s.server.answers, k, s.client.slots[k][i]);
  }

  /** Every origin recorded is that of a callback that was made. */
  ghost predicate Recorded(conns: seq<System>, origins: map<(nat, nat), Origin>) {
    forall c, id | (c, id) in origins ::
      && c < |conns| && id in ServerOf(conns[c]).sent
      && ServerOf(conns[c]).sent[id].mtype == ServerCallback
  }

  lemma RecordedSame(conns: seq<System>, origins: map<(nat, nat), Origin>, c: nat, now: System)
    requires Recorded(conns, origins) && c < |conns| && ServerOf(now).sent == ServerOf(conns[c]).sent
    ensures Recorded(conns[c := now], origins)
  {
  }

  lemma RecordedMore(conns: seq<System>, origins: map<(nat, nat), Origin>, c: nat, now: System, m: Msg,
                     source: Option<Origin>)
    requires Recorded(conns, origins) && c < |conns| && m.id !in ServerOf(conns[c]).sent
    requires ServerOf(now).sent == ServerOf(conns[c]).sent[m.id := m] && (source.Some? ==> m.mtype == ServerCallback)
    ensures Recorded(conns[c := now], if source.Some? then origins[(c, m.id) := source.value] else origins)
  {
    hide ServerOf;
  }

  lemma NextIdFresh(h: Hub, maxDepth: nat, t: nat, over: nat, use: Use, o: Options)
    requires HubInv(h, maxDepth) && Allowed(h, Call(t, over, use, o))
    ensures NextId(h, over) !in ServerOf(h.conns[over]).sent
  {
    ServerDepth(h, maxDepth, over);
    ServerSide(h.conns[over]);
    assert Local(ServerOf(h.conns[over])) by { hide Local, Link; }
    hide HubInv, CallId, Inv, Source, Context;
    FreshId(ServerOf(h.conns[over]));
  }

  lemma RecordedKept(h: Hub, maxDepth: nat, step: HubStep)
    requires HubInv(h, maxDepth) && Recorded(h.conns, h.origins)
    ensures Recorded(HubMoved(h, step).conns, HubMoved(h, step).origins)
  {
    if Allowed(h, step) {
      match step
      case Visit(conn, step) =>
        ClientMoves(h.conns[conn], step);
        hide HubInv, Moved, ServerOf, Recorded;
        RecordedSame(h.conns, h.origins, conn, Moved(h.conns[conn], Move(Client, step)));
      case Serve(conn, step) => ServeRecorded(h, conn, step);
      case Construct(_, _) => hide HubInv, Context, Recorded;
      case Call(t, over, use, o) => CallRecorded(h, maxDepth, t, over, use, o);
    }
  }

  lemma ServeRecorded(h: Hub, c: nat, step: Step)
    requires Recorded(h.conns, h.origins) && Allowed(h, Serve(c, step))
    ensures Recorded(HubNext(h, Serve(c, step)).conns, HubNext(h, Serve(c, step)).origins)
  {
    var now := Moved(h.conns[c], Move(Server, step));
    ServerMoves(h.conns[c], step);
    if Enabled(At(h.conns[c], Server), step) {
      StepShifts(At(h.conns[c], Server), step, 0);
    }
    hide Moved, Recorded, Next, Enabled, Merge, InTurn;
    RecordedSame(h.conns, h.origins, c, now);
  }

  lemma CallRecorded(h: Hub, maxDepth: nat, t: nat, over: nat, use: Use, o: Options)
    requires HubInv(h, maxDepth) && Recorded(h.conns, h.origins) && Allowed(h, Call(t, over, use, o))
    ensures
      var h' := HubNext(h, Call(t, over, use, o));
      Recorded(h'.conns, h'.origins)
  {
    var source := Source(h, t, use);
    var step := Beginning(t, source, o);
    var m := Configure(ServerOf(h.conns[over]), t, step);
    NextIdFresh(h, maxDepth, t, over, use, o);
    CallMade(h, maxDepth, t, over, use, o);
    hide HubInv, Moved, Recorded, Source, Configure, NextId, ServerOf, Merge, Enabled;
    RecordedMore(h.conns, h.origins, over, Moved(h.conns[over], Move(Server, step)), m, source);
  }

  /** All callbacks so far were made over channels to their contexts' own connections. */
  ghost predicate Home(origins: map<(nat, nat), Origin>) {
    forall c, id | (c, id) in origins :: origins[(c, id)].conn == c
  }

  /** What a caller can check: the channel leads to the connection of the context it takes its target from. */
  predicate OwnContext(h: Hub, step: HubStep) {
    step.Call? && Allowed(h, step) ==>
      var source := Source(h, step.t, step.use);
      source.Some? ==> source.value.conn == step.over
  }

  predicate OwnContexts(h: Hub, steps: seq<HubStep>)
    decreases |steps|
  {
    steps == [] || (OwnContext(h, steps[0]) && OwnContexts(HubMoved(h, steps[0]), steps[1..]))
  }

  lemma HomeMore(origins: map<(nat, nat), Origin>, c: nat, id: nat, o: Origin)
    requires (c, id) !in origins
    ensures Home(origins[(c, id) := o]) <==> Home(origins) && o.conn == c
  {
    var now := origins[(c, id) := o];
    if Home(now) {
      assert now[(c, id)].conn == c;
      forall d, i | (d, i) in origins ensures origins[(d, i)].conn == d {
        assert (d, i) in now && now[(d, i)] == origins[(d, i)];
      }
    }
  }

  lemma HomeStep(h: Hub, maxDepth: nat, step: HubStep)
    requires HubInv(h, maxDepth) && Recorded(h.conns, h.origins)
    ensures Home(HubMoved(h, step).origins) <==> Home(h.origins) && OwnContext(h, step)
  {
    if step.Call? && Allowed(h, step) {
      NextIdFresh(h, maxDepth, step.t, step.over, step.use, step.options);
      var source := Source(h, step.t, step.use);
      hide HubInv, Home, Source, NextId, Allowed, Merge, Moved;
      if source.Some? {
        HomeMore(h.origins, step.over, NextId(h, step.over), source.value);
      }
    } else {
      hide HubInv, Home, Recorded, Context, Moved, Merge;
    }
  }

  lemma {:induction false} HomeRun(h: Hub, maxDepth: nat, steps: seq<HubStep>)
    requires HubInv(h, maxDepth) && Recorded(h.conns, h.origins)
    ensures
      var now := HubExec(h, steps);
      && Recorded(now.conns, now.origins)
      && (Home(now.origins) <==> Home(h.origins) && OwnContexts(h, steps))
    decreases |steps|
  {
    if steps != [] {
      hide HubInv, HubMoved, Recorded, Home, OwnContext;
      HubKept(h, maxDepth, steps[0]);
      RecordedKept(h, maxDepth, steps[0]);
      HomeStep(h, maxDepth, steps[0]);
      HomeRun(HubMoved(h, steps[0]), maxDepth, steps[1..]);
    }
  }

  /** Every callback the server has made names the very call in whose context it was made. */
  ghost predicate AllMeant(h: Hub) {
    forall c, id: nat | 0 <= c < |h.conns| && id in ServerOf(h.conns[c]).sent ::
      var m := ServerOf(h.conns[c]).sent[id];
      m.mtype == ServerCallback ==> (c, id) in h.origins && h.origins[(c, id)] == Origin(c, m.target)
  }

  lemma HomeIsMeant(h: Hub)
    requires OriginsOk(h.conns, h.origins) && Recorded(h.conns, h.origins)
    ensures AllMeant(h) <==> Home(h.origins)
  {
    hide ServerOf, Known;
    if Home(h.origins) {
      forall c, id: nat | 0 <= c < |h.conns| && id in ServerOf(h.conns[c]).sent
          && ServerOf(h.conns[c]).sent[id].mtype == ServerCallback
        ensures (c, id) in h.origins && h.origins[(c, id)] == Origin(c, ServerOf(h.conns[c]).sent[id].target)
      {
        assert OriginOk(h.conns, h.origins, c, id, ServerOf(h.conns[c]).sent[id]);
      }
    }
  }

  /**
   * In a run all callbacks name the calls in whose contexts they were made if and only if every call was made
   * over a channel to the connection of the context it took its target from.
   */
  lemma AllMeantIff(clientDepths: seq<nat>, serverDepth: nat, steps: seq<HubStep>)
    ensures
      var start := HubStart(clientDepths, serverDepth);
      AllMeant(HubExec(start, steps)) <==> OwnContexts(start, steps)
  {
    var start := HubStart(clientDepths, serverDepth);
    HubStartsRight(clientDepths, serverDepth);
    EveryHubRun(clientDepths, serverDepth, steps);
    assert start.origins == map[];
    hide ConnsOk, ThreadsOk, ChannelsOk, OriginsOk, HubExec, HubStart, OwnContexts, AllMeant;
    HomeRun(start, serverDepth, steps);
    HomeIsMeant(HubExec(start, steps));
  }

  // ---- a callback in the wrong slot --------------------------------------------------------

  /** Every client's first call. */
  const FIRST: Msg := Msg(103, 0, ClientCall, true, true, false, 0, Request(0))

  const FIRST_CALL: seq<Step> := [Begin(0, Direct, true, true, false, false, 0), Register(0), Transmit(0)]

  /** The client waits for its first call, the message `chan` is on its way to the server. */
  predicate CallsFirst(s: System, chan: seq<Msg>) {
    && s.client.side == Client && s.client.slots == map[103 := []] && s.client.pushing == None
    && s.toClient == [] && s.toServer == chan
  }

  lemma RunThree(v: View, a: Step, b: Step, c: Step)
    ensures RunOn(v, [a, b, c]) == Stepped(Stepped(Stepped(v, a), b), c)
  {
    hide Stepped;
    assert [a, b, c] == [a] + ([b] + ([c] + []));
    RunFirst(v, a, [b] + ([c] + []));
    RunFirst(Stepped(v, a), b, [c] + []);
    RunFirst(Stepped(Stepped(v, a), b), c, []);
    RunNothing(Stepped(Stepped(Stepped(v, a), b), c));
  }

  lemma FirstBegun(depth: nat)
    ensures
      var v := Stepped(View(NewNode(Client, depth, CallLimit(Client)), [], []), FIRST_CALL[0]);
      && v.me.side == Client && v.me.slots == map[] && v.me.pushing == None && v.inbox == [] && v.outbox == []
      && Stack(v.me, 0) == [Calling(FIRST, Configured, false)]
  {
  }

  lemma FirstRegistered(v: View)
    requires v.me.side == Client && v.me.slots == map[] && v.me.pushing == None && v.inbox == [] && v.outbox == []
    requires Stack(v.me, 0) == [Calling(FIRST, Configured, false)]
    ensures
      var w := Stepped(v, Register(0));
      && w.me.side == Client && w.me.slots == map[103 := []] && w.me.pushing == None && w.inbox == [] && w.outbox == []
      && Stack(w.me, 0) == [Calling(FIRST, Registered, false)]
  {
  }

  lemma FirstTransmitted(v: View)
    requires v.me.side == Client && v.me.slots == map[103 := []] && v.me.pushing == None && v.inbox == []
             && v.outbox == []
    requires Stack(v.me, 0) == [Calling(FIRST, Registered, false)]
    ensures
      var w := Stepped(v, Transmit(0));
      && w.me.side == Client && w.me.slots == map[103 := []] && w.me.pushing == None && w.inbox == []
      && w.outbox == [FIRST]
  {
  }

  lemma FirstCall(depth: nat, serverDepth: nat)
    ensures
      var s := Exec(Start(depth, serverDepth), Lift(Client, FIRST_CALL));
      CallsFirst(s, [FIRST]) && s.server == NewNode(Server, serverDepth, CallLimit(Server))
  {
    var s := Start(depth, serverDepth);
    var v := At(s, Client);
    OwnRun(s, Client, FIRST_CALL);
    RunThree(v, FIRST_CALL[0], Register(0), Transmit(0));
    FirstBegun(depth);
    FirstRegistered(Stepped(v, FIRST_CALL[0]));
    FirstTransmitted(Stepped(Stepped(v, FIRST_CALL[0]), Register(0)));
    hide Exec, Stepped, RunOn, Lift;
    assert FIRST_CALL == [FIRST_CALL[0], Register(0), Transmit(0)];
  }

  lemma HubNothing(h: Hub)
    ensures HubExec(h, []) == h
  {
  }

  lemma HubFirst(h: Hub, step: HubStep, more: seq<HubStep>)
    ensures HubExec(h, [step] + more) == HubExec(HubMoved(h, step), more)
  {
    assert ([step] + more)[1..] == more;
  }

  lemma {:induction false} HubConcat(h: Hub, a: seq<HubStep>, b: seq<HubStep>)
    ensures HubExec(h, a + b) == HubExec(HubExec(h, a), b)
    decreases |a|
  {
    if a == [] {
      assert a + b == b;
    } else {
      hide HubMoved;
      assert (a + b)[1..] == a[1..] + b;
      HubConcat(HubMoved(h, a[0]), a[1..], b);
    }
  }

  function Visits(c: nat, steps: seq<Step>): seq<HubStep> {
    if steps == [] then [] else [Visit(c, steps[0])] + Visits(c, steps[1..])
  }

  lemma LiftFirst(s: System, step: Step, more: seq<Step>)
    ensures Exec(s, [Move(Client, step)] + Lift(Client, more)) == Exec(Moved(s, Move(Client, step)), Lift(Client, more))
  {
    RpcWaits.ExecFirst(s, Move(Client, step), Lift(Client, more));
  }

  lemma {:induction false} VisitsRun(h: Hub, c: nat, steps: seq<Step>)
    requires c < |h.conns|
    ensures HubExec(h, Visits(c, steps)) == h.(conns := h.conns[c := Exec(h.conns[c], Lift(Client, steps))])
    decreases |steps|
  {
    if steps == [] {
      HubNothing(h);
      ExecNothing(h.conns[c]);
    } else {
      hide Exec, Moved, HubExec;
      HubFirst(h, Visit(c, steps[0]), Visits(c, steps[1..]));
      LiftFirst(h.conns[c], steps[0], steps[1..]);
      VisitsRun(HubMoved(h, Visit(c, steps[0])), c, steps[1..]);
    }
  }

  /** A callback nobody waits for. */
  const EVENT: Options := Options(false, false, false, false, 0)

  /** What the server sends over connection 1 from the handler of connection 0's first call. */
  const STRAY: Msg := Msg(102, 103, ServerCallback, false, false, false, 0, Request(0))

  lemma ServerTakes(v: View)
    requires v.me.side == Server && v.inbox == [FIRST] && v.me.pushing == None && v.me.queued == map[]
    ensures
      var w := Next(v, Deliver(true));
      && Enabled(v, Deliver(true))
      && w.me.queued == map[103 := FIRST] && w.me.threads == v.me.threads && w.me.maxDepth == v.me.maxDepth
      && w.me.side == Server && w.me.calls == v.me.calls && w.me.limit == v.me.limit
  {
  }

  lemma ServerStarts(v: View)
    requires v.me.side == Server && v.me.queued == map[103 := FIRST] && v.me.threads == map[] && v.me.maxDepth > 0
    ensures
      var w := Next(v, StartQueued(0, 103));
      Enabled(v, StartQueued(0, 103)) && w.me.threads == map[0 := [Handling(FIRST)]]
  {
    assert Stack(v.me, 0) == [] && [] + [Handling(FIRST)] == [Handling(FIRST)];
  }

  /** The two clients wait for their first calls; nothing else has happened. */
  predicate BothCall(h: Hub, serverDepth: nat) {
    && |h.conns| >= 2 && h.threads == map[] && h.origins == map[]
    && CallsFirst(h.conns[0], [FIRST]) && CallsFirst(h.conns[1], [FIRST])
    && h.conns[0].server == NewNode(Server, serverDepth, CallLimit(Server)) == h.conns[1].server
  }

  /** The first client's call is being handled on thread 0. */
  predicate Handles(h: Hub) {
    && |h.conns| >= 2 && h.threads == map[0 := [Entry(0, false)]] && h.origins == map[]
    && CallsFirst(h.conns[1], [FIRST])
    && ServerOf(h.conns[0]).threads == map[0 := [Handling(FIRST)]]
    && ServerOf(h.conns[1]).side == Server && ServerOf(h.conns[1]).threads == map[]
    && ServerOf(h.conns[1]).calls == 0 && ServerOf(h.conns[1]).limit > 0
  }

  lemma BothCalled(clientDepths: seq<nat>, serverDepth: nat)
    requires |clientDepths| >= 2
    ensures
      var h := HubExec(HubStart(clientDepths, serverDepth), Visits(0, FIRST_CALL) + Visits(1, FIRST_CALL));
      BothCall(h, serverDepth)
  {
    var h := HubStart(clientDepths, serverDepth);
    assert h.conns[0] == Start(clientDepths[0], serverDepth) && h.conns[1] == Start(clientDepths[1], serverDepth);
    FirstCall(clientDepths[0], serverDepth);
    FirstCall(clientDepths[1], serverDepth);
    hide Exec, Lift, Visits, HubExec, HubStart, Start, CallsFirst, NewNode, CallLimit;
    assert h.threads == map[] && h.origins == map[] by { StartsEmpty(clientDepths, serverDepth); }
    HubConcat(h, Visits(0, FIRST_CALL), Visits(1, FIRST_CALL));
    VisitsRun(h, 0, FIRST_CALL);
    VisitsRun(HubExec(h, Visits(0, FIRST_CALL)), 1, FIRST_CALL);
  }

  lemma StartsEmpty(clientDepths: seq<nat>, serverDepth: nat)
    ensures
      var h := HubStart(clientDepths, serverDepth);
      h.threads == map[] && h.origins == map[] && h.channels == [] && |h.conns| == |clientDepths|
  {
  }

  lemma ServeMoves(h: Hub, c: nat, step: Step)
    requires Allowed(h, Serve(c, step)) && Enabled(At(h.conns[c], Server), step)
    ensures
      var h', v := HubMoved(h, Serve(c, step)), At(h.conns[c], Server);
      && |h'.conns| == |h.conns| && h'.origins == h.origins
      && (forall d | 0 <= d < |h.conns| && d != c :: h'.conns[d] == h.conns[d])
      && At(h'.conns[c], Server) == Next(v, step)
      && h'.threads == (
           if OnThread(step) then
             h.threads[step.t := Merge(Entries(h, step.t), c, Stack(v.me, step.t), Stack(Next(v, step).me, step.t))]
           else h.threads)
  {
    hide Next, Enabled, Merge;
  }

  lemma CallTaken(h: Hub, serverDepth: nat)
    requires BothCall(h, serverDepth) && serverDepth > 0
    ensures
      var h' := HubMoved(h, Serve(0, Deliver(true)));
      && |h'.conns| == |h.conns| && h'.threads == map[] && h'.origins == map[] && h'.conns[1] == h.conns[1]
      && var n := ServerOf(h'.conns[0]);
      && n.side == Server && n.queued == map[103 := FIRST] && n.threads == map[] && n.maxDepth > 0
  {
    ServerTakes(At(h.conns[0], Server));
    hide Next, Enabled, CallLimit;
    ServeMoves(h, 0, Deliver(true));
  }

  lemma CallStarted(h: Hub)
    requires |h.conns| >= 2 && h.threads == map[] && h.origins == map[]
    requires
      var n := ServerOf(h.conns[0]);
      n.side == Server && n.queued == map[103 := FIRST] && n.threads == map[] && n.maxDepth > 0
    requires CallsFirst(h.conns[1], [FIRST])
    requires ServerOf(h.conns[1]).side == Server && ServerOf(h.conns[1]).threads == map[]
    requires ServerOf(h.conns[1]).calls == 0 && ServerOf(h.conns[1]).limit > 0
    ensures Handles(HubMoved(h, Serve(0, StartQueued(0, 103))))
  {
    ServerStarts(At(h.conns[0], Server));
    hide Next, Enabled, CallsFirst;
    ServeMoves(h, 0, StartQueued(0, 103));
    assert [] + [Entry(0, false)] == [Entry(0, false)];
  }

  lemma StrayBegun(s: System)
    requires ServerOf(s).side == Server && ServerOf(s).threads == map[] && ServerOf(s).calls == 0
             && ServerOf(s).limit > 0
    requires CallsFirst(s, [FIRST])
    ensures
      var now := Moved(s, Move(Server, Begin(0, StaticContext(103), false, false, false, false, 0)));
      && now.client == s.client && now.toClient == [STRAY]
  {
  }

  lemma StrayMade(h: Hub)
    requires Handles(h)
    ensures
      var h' := HubMoved(h, Call(0, 1, Current, EVENT));
      && |h'.conns| >= 2 && h'.origins == map[(1, 102) := Origin(0, 103)]
      && h'.conns[1].client == h.conns[1].client && h'.conns[1].toClient == [STRAY]
  {
    StrayBegun(h.conns[1]);
    assert Context(h, 0) == Some(Origin(0, 103));
    assert NextId(h, 1) == 102;
    hide Moved, Context, NextId, Merge;
  }

  lemma StrayPushed(s: System)
    requires CallsFirst(s.(toClient := []), s.toServer) && s.toClient == [STRAY]
    ensures
      var now := Moved(Moved(s, Move(Client, Deliver(true))), Move(Client, Push));
      now.client.slots == map[103 := [STRAY]]
  {
    var v := At(s, Client);
    assert Next(v, Deliver(true)) == Aimed(Received(v), 103, STRAY);
    var t := Moved(s, Move(Client, Deliver(true)));
    assert t.client.slots == map[103 := []] && t.client.pushing == Some(Delivery(103, STRAY))
        && t.client.side == Client;
    hide Dispatch;
    assert At(t, Client).me == t.client;
    assert [] + [STRAY] == [STRAY];
    assert Pushed(t.client.slots, Delivery(103, STRAY)) == map[103 := [STRAY]];
  }

  lemma RunTwo(h: Hub, a: HubStep, b: HubStep)
    ensures HubExec(h, [a, b]) == HubMoved(HubMoved(h, a), b)
  {
    hide HubMoved;
    assert [a, b] == [a] + ([b] + []);
    HubFirst(h, a, [b] + []);
    HubFirst(HubMoved(h, a), b, []);
    HubNothing(HubMoved(HubMoved(h, a), b));
  }

  lemma RunHandler(h: Hub, serverDepth: nat)
    requires BothCall(h, serverDepth) && serverDepth > 0
    ensures Handles(HubExec(h, [Serve(0, Deliver(true)), Serve(0, StartQueued(0, 103))]))
  {
    CallTaken(h, serverDepth);
    FirstServer(h, serverDepth);
    hide BothCall, Handles, CallsFirst, ServerOf, HubExec, HubMoved;
    RunTwo(h, Serve(0, Deliver(true)), Serve(0, StartQueued(0, 103)));
    CallStarted(HubMoved(h, Serve(0, Deliver(true))));
  }

  lemma FirstServer(h: Hub, serverDepth: nat)
    requires BothCall(h, serverDepth)
    ensures |h.conns| >= 2 && CallsFirst(h.conns[1], [FIRST])
    ensures ServerOf(h.conns[1]).side == Server && ServerOf(h.conns[1]).threads == map[]
    ensures ServerOf(h.conns[1]).calls == 0 && ServerOf(h.conns[1]).limit > 0
  {
  }

  lemma Arrived(h: Hub, h': Hub)
    requires Handles(h) && |h'.conns| >= 2
    requires h'.conns[1].client == h.conns[1].client && h'.conns[1].toClient == [STRAY]
    ensures CallsFirst(h'.conns[1].(toClient := []), h'.conns[1].toServer)
  {
  }

  lemma VisitMoves(h: Hub, c: nat, step: Step)
    requires c < |h.conns|
    ensures HubMoved(h, Visit(c, step)) == h.(conns := h.conns[c := Moved(h.conns[c], Move(Client, step))])
  {
    hide Moved;
  }

  /** From the call over the wrong channel to the slot. */
  lemma RunStray(h: Hub)
    requires Handles(h)
    ensures
      var h' := HubExec(h, [Call(0, 1, Current, EVENT)] + [Visit(1, Deliver(true)), Visit(1, Push)]);
      && |h'.conns| >= 2 && h'.conns[1].client.slots == map[103 := [STRAY]]
      && h'.origins == map[(1, 102) := Origin(0, 103)]
  {
    StrayMade(h);
    var made := HubMoved(h, Call(0, 1, Current, EVENT));
    Arrived(h, made);
    StrayPushed(made.conns[1]);
    hide Handles, CallsFirst, HubExec, HubMoved, Moved;
    HubFirst(h, Call(0, 1, Current, EVENT), [Visit(1, Deliver(true)), Visit(1, Push)]);
    RunTwo(made, Visit(1, Deliver(true)), Visit(1, Push));
    VisitMoves(made, 1, Deliver(true));
    VisitMoves(HubMoved(made, Visit(1, Deliver(true))), 1, Push);
  }

  /** Both clients wait for their first calls; the handler of one makes a callback over the connection of the other. */
  function StrayRun(): seq<HubStep> {
    ((Visits(0, FIRST_CALL) + Visits(1, FIRST_CALL)) + [Serve(0, Deliver(true)), Serve(0, StartQueued(0, 103))])
    + ([Call(0, 1, Current, EVENT)] + [Visit(1, Deliver(true)), Visit(1, Push)])
  }

  lemma TheStrayRun()
    ensures
      StrayRun() ==
        ((Visits(0, FIRST_CALL) + Visits(1, FIRST_CALL)) + [Serve(0, Deliver(true)), Serve(0, StartQueued(0, 103))])
        + ([Call(0, 1, Current, EVENT)] + [Visit(1, Deliver(true)), Visit(1, Push)])
  {
    hide Visits;
  }

  /**
   * Otherwise a callback can be taken for another call's: with two clients or more, some run puts a callback
   * made in the context of one client's first call into the slot of another client's first call.
   */
  lemma StrayLands(clientDepths: seq<nat>, serverDepth: nat)
    requires |clientDepths| >= 2 && serverDepth > 0
    ensures
      var h := HubExec(HubStart(clientDepths, serverDepth), StrayRun());
      && |h.conns| >= 2 && h.conns[1].client.slots == map[103 := [STRAY]]
      && h.origins == map[(1, STRAY.id) := Origin(0, 103)] && !Meant(h, 1, 103, STRAY)
  {
    var start := HubStart(clientDepths, serverDepth);
    BothCalled(clientDepths, serverDepth);
    TheStrayRun();
    hide BothCall, Handles, Visits, HubExec, HubStart, StrayRun;
    var visits := Visits(0, FIRST_CALL) + Visits(1, FIRST_CALL);
    var serves := [Serve(0, Deliver(true)), Serve(0, StartQueued(0, 103))];
    var h := HubExec(start, visits);
    RunHandler(h, serverDepth);
    HubConcat(start, visits, serves);
    HubConcat(start, visits + serves, [Call(0, 1, Current, EVENT)] + [Visit(1, Deliver(true)), Visit(1, Push)]);
    RunStray(HubExec(h, serves));
  }
}
