/**
 * How a wait ends: `call_and_wait` of lib/vtrc/common/rpc-channel.cpp against what the peer has answered. Once
 * it has, the caller's own side alone can end the wait, and what is in the slot decides how.
 */
module RpcWaits {
  import opened Rpc
  import opened RpcSafety
  import opened RpcSteps
  import opened RpcResults
  import opened Wrappers

  // ---- what a slot says --------------------------------------------------------------------

  /** A system error stands in the slot with no answer before it. */
  predicate ErrorFirst(side: Side, q: seq<Msg>) {
    q != [] && (q[0].mtype == MessageNone || (!OwnType(side, q[0].mtype) && ErrorFirst(side, q[1..])))
  }

  /** What is appended changes nothing, unless it is the first system error. */
  lemma {:induction false} ErrorFirstSnoc(side: Side, q: seq<Msg>, m: Msg)
    ensures ErrorFirst(side, q) ==> ErrorFirst(side, q + [m])
    ensures m.mtype != MessageNone ==> ErrorFirst(side, q + [m]) == ErrorFirst(side, q)
    decreases |q|
  {
    if q == [] {
      assert (q + [m])[1..] == [];
    } else {
      assert (q + [m])[1..] == q[1..] + [m];
      ErrorFirstSnoc(side, q[1..], m);
    }
  }

  /** A slot to which at most one message was added. */
  predicate Extends(q: seq<Msg>, r: seq<Msg>) {
    r == q || (r != [] && r[..|r| - 1] == q)
  }

  lemma ErrorFirstExtends(side: Side, q: seq<Msg>, r: seq<Msg>)
    requires Extends(q, r) && ErrorFirst(side, q)
    ensures ErrorFirst(side, r)
  {
    if r != q {
      assert r == q + [r[|r| - 1]];
      hide ErrorFirst;
      ErrorFirstSnoc(side, q, r[|r| - 1]);
    }
  }

  // ---- what a step leaves alone ------------------------------------------------------------

  /** Slots of sent calls at most grow, answers stay, and no wait returns. */
  ghost predicate Mild(n: Node, now: Node) {
    && now.side == n.side && now.returned == n.returned && n.transmitted <= now.transmitted
    && (forall k | k in n.transmitted && k in now.slots :: k in n.slots && Extends(n.slots[k], now.slots[k]))
    && (now.pushing.Some? ==> now.pushing == n.pushing || now.pushing.value.m.mtype != MessageNone)
  }

  /** Everything but requests made, requests taken and answers given. */
  predicate Alike(n: Node, now: Node) {
    && now.side == n.side && now.slots == n.slots && now.pushing == n.pushing && now.places == n.places
    && now.returned == n.returned && now.transmitted == n.transmitted
  }

  lemma AlikeIsMild(n: Node, now: Node)
    requires Alike(n, now)
    ensures Mild(n, now)
  {
  }

  lemma RefusedAlike(v: View, m: Msg, error: nat)
    ensures Alike(v.me, Refused(v, m, error).me) && Refused(v, m, error).me.threads == v.me.threads
  {
  }

  lemma NoContextAlike(v: View, m: Msg)
    ensures Alike(v.me, NoContext(v, m).me) && NoContext(v, m).me.threads == v.me.threads
  {
  }

  lemma LocalCallAlike(v: View, t: nat, outer: nat, m: Msg)
    ensures
      var now := MakeLocalCall(v, t, outer, m).me;
      && Alike(v.me, now)
      && (now.threads == v.me.threads || now.threads == v.me.threads[t := Stack(v.me, t) + [Handling(m)]])
  {
  }

  lemma BroadcastExtends(slots: map<nat, seq<Msg>>, m: Msg, k: nat)
    requires k in slots
    ensures k in Broadcast(slots, m) && Broadcast(slots, m)[k] == slots[k] + [m]
            && Extends(slots[k], Broadcast(slots, m)[k])
  {
  }

  lemma BegunMild(v: View, step: Step)
    requires step.Begin?
    ensures Mild(v.me, Begun(v, step).me) && Begun(v, step).me.answers == v.me.answers
  {
    BegunIs(v, step);
    hide Begun, Configure, Stack;
  }

  /** A slot that is registered is that of a call not sent yet. */
  lemma RegisterMild(v: View, p: Node, t: nat)
    requires Safe(v, p) && Enabled(v, Register(t))
    ensures Mild(v.me, Next(v, Register(t)).me) && Next(v, Register(t)).me.answers == v.me.answers
  {
    hide Link, SentOk, SlotsOk, InsertionsOk, StagesOk, OnceOk;
    TopFrame(v.me, t);
  }

  lemma TransmitMild(v: View, t: nat)
    requires Enabled(v, Transmit(t))
    ensures Mild(v.me, Next(v, Transmit(t)).me) && Next(v, Transmit(t)).me.answers == v.me.answers
  {
  }

  lemma LeaveMild(v: View, t: nat)
    requires Enabled(v, Leave(t))
    ensures Mild(v.me, Next(v, Leave(t)).me) && Next(v, Leave(t)).me.answers == v.me.answers
  {
  }

  lemma BroadcastMild(v: View, m: Msg)
    ensures Mild(v.me, ToAllSlots(v, m).me) && ToAllSlots(v, m).me.answers == v.me.answers
  {
    forall k | k in v.me.slots ensures Extends(v.me.slots[k], Broadcast(v.me.slots, m)[k]) {
      BroadcastExtends(v.me.slots, m, k);
    }
  }

  lemma PushMild(v: View)
    requires Enabled(v, Push)
    ensures Mild(v.me, Next(v, Push).me) && Next(v, Push).me.answers == v.me.answers
  {
  }

  lemma PostedAlike(v: View, m: Msg)
    ensures Alike(v.me, Posted(v, m).me)
  {
  }

  lemma ProcessCallMild(v: View, m: Msg, admit: bool)
    ensures Mild(v.me, ProcessCall(v, m, admit).me)
  {
    BroadcastMild(v, m);
    RefusedAlike(v, m, ERR_BUSY);
    PostedAlike(v, m);
    hide Refused, ToAllSlots, Posted, Alike, Mild;
    if ProcessCall(v, m, admit) != ToAllSlots(v, m) {
      AlikeIsMild(v.me, ProcessCall(v, m, admit).me);
    }
  }

  lemma ReceivedSame(v: View)
    requires v.inbox != []
    ensures
      var w := Received(v).me;
      && Alike(v.me, w) && w.threads == v.me.threads && w.answers == v.me.answers
      && Popped(v).me == v.me
  {
  }

  lemma MildFrom(n: Node, w: Node, now: Node)
    requires Alike(n, w) && Mild(w, now)
    ensures Mild(n, now)
  {
  }

  lemma DeliverMild(v: View, admit: bool)
    requires Enabled(v, Deliver(admit))
    ensures Mild(v.me, Dispatch(v, admit).me)
  {
    var m, w := v.inbox[0], Received(v);
    ReceivedSame(v);
    ProcessCallMild(w, m, admit);
    NoContextAlike(w, m);
    if OwnType(v.me.side, m.mtype) {
      AnswerDispatch(v, admit);
    } else if m.mtype == CallbackType(Other(v.me.side)) && m.target in v.me.slots {
      assert Dispatch(v, admit) == Aimed(w, m.target, m);
    } else if Dispatch(v, admit) == NoContext(w, m) {
      AlikeIsMild(w.me, NoContext(w, m).me);
      hide Mild, Alike, NoContext, Received, Dispatch;
      MildFrom(v.me, w.me, NoContext(w, m).me);
    } else {
      assert Dispatch(v, admit) in {ProcessCall(w, m, admit), Popped(v)};
      hide Alike, Mild, ProcessCall, NoContext, Received, Dispatch;
      MildFrom(v.me, w.me, ProcessCall(w, m, admit).me);
      AlikeIsMild(v.me, v.me);
      Same(v.me);
    }
  }

  lemma Same(n: Node)
    ensures Alike(n, n)
  {
  }

  lemma HandlersMild(v: View, step: Step)
    requires Enabled(v, step)
    requires step.StartQueued? || step.RunClosure? || step.Return? || step.Throw?
    ensures Mild(v.me, Next(v, step).me)
  {
    match step
    case StartQueued(t, id) =>
      var w := v.(me := v.me.(queued := v.me.queued - {id}));
      LocalCallAlike(w, t, 0, v.me.queued[id]);
      hide MakeLocalCall;
    case RunClosure(id, error, data) =>
    case Return(t) =>
    case Throw(t, error) =>
      var m := Top(v.me, t).m;
      var w := v.(me := PopFrame(v.me, t).(closures := v.me.closures - {m.id}));
      RefusedAlike(w, m, error);
      hide Refused;
  }

  /** Every step but reading a slot is mild. */
  lemma StepMild(v: View, p: Node, step: Step)
    requires Safe(v, p) && Enabled(v, step) && !step.Read?
    ensures Mild(v.me, Next(v, step).me)
  {
    hide Safe, Mild;
    match step
    case Begin(_, _, _, _, _, _, _) => BegunMild(v, step);
    case Register(t) => RegisterMild(v, p, t);
    case Transmit(t) => TransmitMild(v, t);
    case Leave(t) => LeaveMild(v, t);
    case Deliver(admit) => DeliverMild(v, admit);
    case Push => PushMild(v);
    case SystemError(error) => BroadcastMild(v, SystemErrorMessage(error));
    case StartQueued(_, _) => HandlersMild(v, step);
    case RunClosure(_, _, _) => HandlersMild(v, step);
    case Return(_) => HandlersMild(v, step);
    case Throw(_, _) => HandlersMild(v, step);
  }

  // ---- reading a slot ----------------------------------------------------------------------

  /** Reading an error ends the wait. */
  lemma ReadsError(v: View, t: nat, outer: nat)
    requires Enabled(v, Read(t, outer)) && v.me.slots[Top(v.me, t).m.id][0].error != 0
    ensures
      var n, now := v.me, Next(v, Read(t, outer)).me;
      && now == Left(n, t) && now.slots == n.slots - {Top(n, t).m.id}
      && now.returned == n.returned && now.transmitted == n.transmitted
      && now.pushing == n.pushing && now.side == n.side
  {
    LeavesReading(v, t, outer);
    hide ReadSlot;
  }

  /** Reading an answer without an error ends the wait and returns it. */
  lemma ReadsAnswer(v: View, t: nat, outer: nat)
    requires Enabled(v, Read(t, outer))
    requires
      var f := Top(v.me, t);
      v.me.slots[f.m.id][0].error == 0 && v.me.slots[f.m.id][0].mtype == f.m.mtype
    ensures
      var n, now := v.me, Next(v, Read(t, outer)).me;
      var k := Top(n, t).m.id;
      && now == Left(n, t).(returned := n.returned[k := n.slots[k][0]])
      && now.slots == n.slots - {k} && now.returned == n.returned[k := n.slots[k][0]]
      && now.transmitted == n.transmitted && now.pushing == n.pushing && now.side == n.side
  {
    LeavesReading(v, t, outer);
    hide ReadSlot;
  }

  /** Reading a callback takes it from the slot; its handling may begin above the call that waits. */
  lemma ReadsCallback(v: View, t: nat, outer: nat)
    requires Enabled(v, Read(t, outer))
    requires
      var f := Top(v.me, t);
      v.me.slots[f.m.id][0].error == 0 && v.me.slots[f.m.id][0].mtype != f.m.mtype
    ensures
      var n, now := v.me, Next(v, Read(t, outer)).me;
      var k := Top(n, t).m.id;
      && now.slots == n.slots[k := n.slots[k][1..]] && now.returned == n.returned
      && now.transmitted == n.transmitted && now.pushing == n.pushing && now.side == n.side
      && now.places == n.places
      && (now.threads == n.threads || now.threads == n.threads[t := Stack(n, t) + [Handling(n.slots[k][0])]])
  {
    var n, f := v.me, Top(v.me, t);
    var m := n.slots[f.m.id][0];
    var w := v.(me := Taken(n, f.m.id));
    LocalCallAlike(w, t, outer, m);
    assert Stack(w.me, t) == Stack(n, t);
    assert Next(v, Read(t, outer)) ==
      if f.raw then w.(me := w.me.(started := w.me.started + {m.id})) else MakeLocalCall(w, t, outer, m);
    hide MakeLocalCall, ReadSlot;
  }

  // ---- what every run keeps besides --------------------------------------------------------

  /** A wait that returned has left its slot, and no system error is on its way into a slot of its own. */
  predicate Settled(n: Node) {
    && (forall k | k in n.returned :: k in n.transmitted && k !in n.slots)
    && (n.pushing.Some? ==> n.pushing.value.m.mtype != MessageNone)
  }

  /** The wait for `k` can no longer return: it is over, or a system error will end it. */
  predicate Doomed(n: Node, k: nat) {
    && k in n.transmitted && k !in n.returned
    && (k in n.slots ==> ErrorFirst(n.side, n.slots[k]))
  }

  lemma MildSettled(n: Node, now: Node)
    requires Settled(n) && Mild(n, now)
    ensures Settled(now)
  {
  }

  lemma MildDoomed(n: Node, now: Node, k: nat)
    requires Doomed(n, k) && Mild(n, now)
    ensures Doomed(now, k)
  {
    if k in now.slots {
      hide Extends, ErrorFirst;
      ErrorFirstExtends(n.side, n.slots[k], now.slots[k]);
    }
  }

  /** A call that waits was sent. */
  lemma WaitingSent(v: View, p: Node, t: nat, outer: nat)
    requires Safe(v, p) && Enabled(v, Read(t, outer))
    ensures Top(v.me, t).m.id in v.me.transmitted && OwnType(v.me.side, Top(v.me, t).m.mtype)
  {
    hide Link, SlotsOk, InsertionsOk, StagesOk, OnceOk, Numbered;
    TopFrame(v.me, t);
  }

  lemma SettledKept(v: View, p: Node, step: Step)
    requires Safe(v, p) && Enabled(v, step) && Settled(v.me)
    ensures Settled(Next(v, step).me)
  {
    if step.Read? {
      var f := Top(v.me, step.t);
      WaitingSent(v, p, step.t, step.outer);
      hide Safe, Next;
      if v.me.slots[f.m.id][0].error != 0 {
        ReadsError(v, step.t, step.outer);
        hide Left;
      } else if v.me.slots[f.m.id][0].mtype == f.m.mtype {
        ReadsAnswer(v, step.t, step.outer);
        hide Left;
      } else {
        ReadsCallback(v, step.t, step.outer);
      }
    } else {
      StepMild(v, p, step);
      hide Next, Safe;
      MildSettled(v.me, Next(v, step).me);
    }
  }

  lemma DoomedWithout(n: Node, now: Node, k: nat, gone: nat)
    requires Doomed(n, k) && now.side == n.side && now.transmitted == n.transmitted
    requires now.slots == n.slots - {gone}
    requires now.returned == n.returned || (gone != k && now.returned.Keys == n.returned.Keys + {gone})
    ensures Doomed(now, k)
  {
    hide ErrorFirst;
  }

  lemma DoomedTail(n: Node, now: Node, k: nat, c: nat)
    requires Doomed(n, k) && now.side == n.side && now.transmitted == n.transmitted && now.returned == n.returned
    requires c in n.slots && n.slots[c] != [] && now.slots == n.slots[c := n.slots[c][1..]]
    requires ErrorFirst(n.side, n.slots[c]) == ErrorFirst(n.side, n.slots[c][1..])
    ensures Doomed(now, k)
  {
    hide ErrorFirst;
  }

  lemma DoomedAtError(v: View, t: nat, outer: nat, k: nat)
    requires Enabled(v, Read(t, outer)) && Doomed(v.me, k) && v.me.slots[Top(v.me, t).m.id][0].error != 0
    ensures Doomed(Next(v, Read(t, outer)).me, k)
  {
    ReadsError(v, t, outer);
    hide Next, Left, ErrorFirst, Doomed;
    DoomedWithout(v.me, Next(v, Read(t, outer)).me, k, Top(v.me, t).m.id);
  }

  lemma DoomedAtAnswer(v: View, p: Node, t: nat, outer: nat, k: nat)
    requires Safe(v, p) && Enabled(v, Read(t, outer)) && Doomed(v.me, k)
    requires
      var f := Top(v.me, t);
      v.me.slots[f.m.id][0].error == 0 && v.me.slots[f.m.id][0].mtype == f.m.mtype
    ensures Doomed(Next(v, Read(t, outer)).me, k)
  {
    AnswerNotDoomed(v, p, t, outer, k);
    ReadsAnswer(v, t, outer);
    hide Safe, Next, Left, ErrorFirst, Doomed;
    DoomedWithout(v.me, Next(v, Read(t, outer)).me, k, Top(v.me, t).m.id);
  }

  lemma DoomedAtCallback(v: View, p: Node, t: nat, outer: nat, k: nat)
    requires Safe(v, p) && Enabled(v, Read(t, outer)) && Doomed(v.me, k)
    requires
      var f := Top(v.me, t);
      v.me.slots[f.m.id][0].error == 0 && v.me.slots[f.m.id][0].mtype != f.m.mtype
    ensures Doomed(Next(v, Read(t, outer)).me, k)
  {
    CallbackSkipped(v, p, t, outer);
    ReadsCallback(v, t, outer);
    hide Safe, Next, ErrorFirst, Doomed;
    DoomedTail(v.me, Next(v, Read(t, outer)).me, k, Top(v.me, t).m.id);
  }

  lemma DoomedReading(v: View, p: Node, t: nat, outer: nat, k: nat)
    requires Safe(v, p) && Enabled(v, Read(t, outer)) && Doomed(v.me, k)
    ensures Doomed(Next(v, Read(t, outer)).me, k)
  {
    var f := Top(v.me, t);
    hide Safe, Next, Doomed;
    if v.me.slots[f.m.id][0].error != 0 {
      DoomedAtError(v, t, outer, k);
    } else if v.me.slots[f.m.id][0].mtype == f.m.mtype {
      DoomedAtAnswer(v, p, t, outer, k);
    } else {
      DoomedAtCallback(v, p, t, outer, k);
    }
  }

  lemma AnswerNotDoomed(v: View, p: Node, t: nat, outer: nat, k: nat)
    requires Safe(v, p) && Enabled(v, Read(t, outer)) && Doomed(v.me, k)
    requires
      var f := Top(v.me, t);
      v.me.slots[f.m.id][0].error == 0 && v.me.slots[f.m.id][0].mtype == f.m.mtype
    ensures Top(v.me, t).m.id != k
  {
    WaitingSent(v, p, t, outer);
    hide Safe;
  }

  lemma CallbackSkipped(v: View, p: Node, t: nat, outer: nat)
    requires Safe(v, p) && Enabled(v, Read(t, outer))
    requires
      var f := Top(v.me, t);
      v.me.slots[f.m.id][0].error == 0 && v.me.slots[f.m.id][0].mtype != f.m.mtype
    ensures
      var q := v.me.slots[Top(v.me, t).m.id];
      ErrorFirst(v.me.side, q) == ErrorFirst(v.me.side, q[1..])
  {
    HeadKinds(v, p, t, outer);
    hide Safe;
  }

  lemma DoomedKept(v: View, p: Node, step: Step, k: nat)
    requires Safe(v, p) && Enabled(v, step) && Doomed(v.me, k)
    ensures Doomed(Next(v, step).me, k)
  {
    if step.Read? {
      hide Safe, Next, Doomed, Enabled;
      DoomedReading(v, p, step.t, step.outer, k);
    } else {
      StepMild(v, p, step);
      hide Next, Safe;
      MildDoomed(v.me, Next(v, step).me, k);
    }
  }

  // ---- an answer, once given, stays --------------------------------------------------------

  lemma RefusedGrows(v: View, m: Msg, error: nat)
    requires m.id !in v.me.answers
    ensures Grown(v.me.answers, Refused(v, m, error).me.answers)
  {
  }

  lemma NoContextGrows(v: View, m: Msg)
    requires m.id !in v.me.answers
    ensures Grown(v.me.answers, NoContext(v, m).me.answers)
  {
  }

  lemma LocalCallGrows(v: View, p: Node, t: nat, outer: nat, m: Msg)
    requires Safe(v, p) && Loose(v.me, p, m)
    ensures Grown(v.me.answers, MakeLocalCall(v, t, outer, m).me.answers)
  {
    LooseParts(v, p, m);
    RefusedGrows(v, m, ERR_OVERFLOW);
    hide Safe, Loose, Refused;
  }

  lemma ProcessCallGrows(v: View, m: Msg, admit: bool)
    requires m.id !in v.me.answers
    ensures Grown(v.me.answers, ProcessCall(v, m, admit).me.answers)
  {
    RefusedGrows(v, m, ERR_BUSY);
    hide Refused;
  }

  lemma AimedGrows(v: View, m: Msg)
    ensures Grown(v.me.answers, Aimed(v, m.target, m).me.answers)
  {
  }

  lemma RequestGrows(v: View, admit: bool)
    requires v.inbox != [] && !OwnType(v.me.side, v.inbox[0].mtype) && v.inbox[0].id !in v.me.answers
    ensures Grown(v.me.answers, Dispatch(v, admit).me.answers)
  {
    var m, w := v.inbox[0], Received(v);
    ReceivedSame(v);
    RequestDispatch(v, admit);
    hide Dispatch, ProcessCall, NoContext, Received, Aimed, Popped;
    ProcessCallGrows(w, m, admit);
    NoContextGrows(w, m);
    AimedGrows(w, m);
  }

  lemma DeliverGrows(v: View, p: Node, admit: bool)
    requires Safe(v, p) && Enabled(v, Deliver(admit))
    ensures Grown(v.me.answers, Dispatch(v, admit).me.answers)
  {
    HeadInFlight(v, p);
    if OwnType(v.me.side, v.inbox[0].mtype) {
      AnswerDispatch(v, admit);
      hide Dispatch;
    } else {
      ReceivedKept(v, p);
      LooseParts(Received(v), p, v.inbox[0]);
      ReceivedSame(v);
      hide Safe, Loose, Received, Dispatch;
      RequestGrows(v, admit);
    }
  }

  lemma ReadGrows(v: View, p: Node, t: nat, outer: nat)
    requires Safe(v, p) && Enabled(v, Read(t, outer))
    ensures Grown(v.me.answers, ReadSlot(v, t, outer).me.answers)
  {
    var n, f := v.me, Top(v.me, t);
    var m := n.slots[f.m.id][0];
    HeadKinds(v, p, t, outer);
    if m.error != 0 || m.mtype == f.m.mtype {
      LeavesReading(v, t, outer);
      hide Safe, ReadSlot;
    } else {
      TakenKept(v, p, f.m.id);
      var w := v.(me := Taken(n, f.m.id));
      hide Safe, Loose;
      LocalCallGrows(w, p, t, outer, m);
      hide MakeLocalCall;
    }
  }

  lemma StartGrows(v: View, p: Node, t: nat, id: nat)
    requires Safe(v, p) && Enabled(v, StartQueued(t, id))
    ensures Grown(v.me.answers, Next(v, StartQueued(t, id)).me.answers)
  {
    UnqueuedKept(v, p, id);
    hide Safe, Loose;
    LocalCallGrows(v.(me := v.me.(queued := v.me.queued - {id})), p, t, 0, v.me.queued[id]);
    hide MakeLocalCall;
  }

  lemma ClosureGrows(v: View, p: Node, id: nat, error: nat, data: int)
    requires Safe(v, p) && Enabled(v, RunClosure(id, error, data))
    ensures Grown(v.me.answers, Next(v, RunClosure(id, error, data)).me.answers)
  {
    ClosureGone(v, p, id);
    hide Safe;
  }

  lemma ThrowGrows(v: View, p: Node, t: nat, error: nat)
    requires Safe(v, p) && Enabled(v, Throw(t, error))
    ensures Grown(v.me.answers, Next(v, Throw(t, error)).me.answers)
  {
    var m := Top(v.me, t).m;
    ClosureGone(v, p, m.id);
    hide Safe;
    RefusedGrows(v.(me := PopFrame(v.me, t).(closures := v.me.closures - {m.id})), m, error);
    hide Refused;
  }

  lemma AnswersStay(v: View, p: Node, step: Step)
    requires Safe(v, p) && Enabled(v, step)
    ensures Grown(v.me.answers, Next(v, step).me.answers)
  {
    hide Safe, Grown;
    if Next(v, step).me.answers == v.me.answers {
      GrownSame(v.me.answers);
    }
    match step
    case Begin(_, _, _, _, _, _, _) => BegunMild(v, step);
    case Register(t) => RegisterMild(v, p, t);
    case Transmit(t) => TransmitMild(v, t);
    case Leave(t) => LeaveMild(v, t);
    case Read(t, outer) => ReadGrows(v, p, t, outer);
    case Deliver(admit) => DeliverGrows(v, p, admit);
    case Push => PushMild(v);
    case SystemError(error) => BroadcastMild(v, SystemErrorMessage(error));
    case StartQueued(t, id) => StartGrows(v, p, t, id);
    case RunClosure(id, error, data) => ClosureGrows(v, p, id, error, data);
    case Return(t) => ReturnsThere(v, t);
    case Throw(t, error) => ThrowGrows(v, p, t, error);
  }

  lemma GrownSame(messages: Messages)
    ensures Grown(messages, messages)
  {
  }

  // ---- steps towards the end of a wait -----------------------------------------------------

  function Stepped(v: View, step: Step): View {
    if Enabled(v, step) then Next(v, step) else v
  }

  /** What one side does on its own. */
  function RunOn(v: View, steps: seq<Step>): View
    decreases |steps|
  {
    if steps == [] then v else RunOn(Stepped(v, steps[0]), steps[1..])
  }

  lemma RunFirst(v: View, step: Step, more: seq<Step>)
    ensures RunOn(v, [step] + more) == RunOn(Stepped(v, step), more)
  {
    assert ([step] + more)[1..] == more;
  }

  lemma RunNothing(v: View)
    ensures RunOn(v, []) == v
  {
  }

  /** A call that waits was sent, has its slot, and is alone with its id on its stack. */
  lemma Waits(n: Node, k: nat)
    requires Local(n) && Awaiting(n, k)
    ensures k in n.transmitted && k in n.slots && Held(n.places, n.threads, k)
    ensures
      var t, d := n.places[k].thread, n.places[k].depth;
      forall e | d < e < |Stack(n, t)| && Stack(n, t)[e].Calling? :: Stack(n, t)[e].m.id != k
  {
    hide SentOk, SlotsOk, InsertionsOk, StagesOk, OnceOk;
    HeldHasSlot(n, k);
    var t, d := n.places[k].thread, n.places[k].depth;
    assert FrameOk(n.maxDepth, n.sent, n.places, n.slots.Keys, n.transmitted, t, d, n.threads[t][d]);
    forall e | d < e < |Stack(n, t)| && Stack(n, t)[e].Calling? ensures Stack(n, t)[e].m.id != k {
      assert FrameOk(n.maxDepth, n.sent, n.places, n.slots.Keys, n.transmitted, t, e, n.threads[t][e]);
    }
  }

  /** Nothing changes for the call `k` but what its slot holds, and no first system error comes. */
  predicate Nearer(n: Node, now: Node, k: nat) {
    && now.side == n.side && now.threads == n.threads && now.places == n.places
    && k in n.slots && k in now.slots && ErrorFirst(n.side, now.slots[k]) == ErrorFirst(n.side, n.slots[k])
  }

  lemma PushNearer(v: View, k: nat)
    requires v.me.pushing != None && v.me.pushing.value.m.mtype != MessageNone && k in v.me.slots
    ensures
      var w := Stepped(v, Push);
      Nearer(v.me, w.me, k) && w.inbox == v.inbox && w.me.pushing == None
  {
    ErrorFirstSnoc(v.me.side, v.me.slots[k], v.me.pushing.value.m);
    hide ErrorFirst;
  }

  lemma BroadcastNearer(v: View, m: Msg, k: nat)
    requires m.mtype != MessageNone && k in v.me.slots
    ensures Nearer(v.me, ToAllSlots(v, m).me, k)
  {
    BroadcastExtends(v.me.slots, m, k);
    ErrorFirstSnoc(v.me.side, v.me.slots[k], m);
    hide ErrorFirst, Broadcast;
  }

  lemma ProcessCallNearer(v: View, m: Msg, admit: bool, k: nat)
    requires m.mtype != MessageNone && k in v.me.slots
    ensures Nearer(v.me, ProcessCall(v, m, admit).me, k) && ProcessCall(v, m, admit).inbox == v.inbox
  {
    BroadcastNearer(v, m, k);
    RefusedAlike(v, m, ERR_BUSY);
    hide ErrorFirst, Broadcast;
  }

  /** What becomes of a request. */
  lemma RequestDispatch(v: View, admit: bool)
    requires v.inbox != [] && !OwnType(v.me.side, v.inbox[0].mtype)
    ensures
      var m, w := v.inbox[0], Received(v);
      || (m.mtype != MessageNone && Dispatch(v, admit) == ProcessCall(w, m, admit))
      || Dispatch(v, admit) == NoContext(w, m)
      || Dispatch(v, admit) == Aimed(w, m.target, m)
      || Dispatch(v, admit) == Popped(v)
  {
    hide Received, ProcessCall, NoContext, Aimed, Popped;
  }

  lemma NearerFrom(n: Node, w: Node, now: Node, k: nat)
    requires Alike(n, w) && w.threads == n.threads
    requires k in w.slots ==> Nearer(w, now, k)
    ensures k in n.slots ==> Nearer(n, now, k)
  {
    hide ErrorFirst;
  }

  lemma AlikeNearer(n: Node, now: Node, k: nat)
    requires Alike(n, now) && now.threads == n.threads && k in n.slots
    ensures Nearer(n, now, k)
  {
    hide ErrorFirst;
  }

  lemma AimedNearer(v: View, m: Msg, k: nat)
    requires k in v.me.slots
    ensures Nearer(v.me, Aimed(v, m.target, m).me, k) && Aimed(v, m.target, m).inbox == v.inbox
  {
    hide ErrorFirst;
  }

  lemma ReceivedInbox(v: View)
    requires v.inbox != []
    ensures Received(v).inbox == Popped(v).inbox == v.inbox[1..]
  {
  }

  lemma NoContextInbox(v: View, m: Msg)
    ensures NoContext(v, m).inbox == v.inbox
  {
  }

  lemma RequestNearer(v: View, k: nat)
    requires v.inbox != [] && k in v.me.slots && !OwnType(v.me.side, v.inbox[0].mtype)
    ensures Nearer(v.me, Dispatch(v, true).me, k) && Dispatch(v, true).inbox == v.inbox[1..]
  {
    var m, w := v.inbox[0], Received(v);
    ReceivedSame(v);
    ReceivedInbox(v);
    RequestDispatch(v, true);
    AlikeNearer(v.me, v.me, k) by { Same(v.me); }
    hide Dispatch, ProcessCall, NoContext, Received, Aimed, Popped, OwnType, Nearer;
    assert k in w.me.slots;
    if Dispatch(v, true) == NoContext(w, m) {
      NoContextAlike(w, m);
      NoContextInbox(w, m);
      hide Alike;
      AlikeNearer(w.me, NoContext(w, m).me, k);
      NearerFrom(v.me, w.me, NoContext(w, m).me, k);
    } else if Dispatch(v, true) == Aimed(w, m.target, m) {
      hide Alike;
      AimedNearer(w, m, k);
      NearerFrom(v.me, w.me, Aimed(w, m.target, m).me, k);
    } else if Dispatch(v, true) != Popped(v) {
      hide Alike;
      ProcessCallNearer(w, m, true, k);
      NearerFrom(v.me, w.me, ProcessCall(w, m, true).me, k);
    }
  }

  lemma DeliverNearer(v: View, k: nat)
    requires v.inbox != [] && v.me.pushing == None && k in v.me.slots
    ensures
      var w := Stepped(v, Deliver(true));
      Nearer(v.me, w.me, k) && w.inbox == v.inbox[1..]
  {
    assert Stepped(v, Deliver(true)) == Dispatch(v, true);
    if OwnType(v.me.side, v.inbox[0].mtype) {
      AnswerDispatch(v, true);
      hide ErrorFirst, Dispatch;
    } else {
      hide Dispatch, Nearer;
      RequestNearer(v, k);
    }
  }

  lemma StillAwaiting(n: Node, now: Node, k: nat)
    requires Awaiting(n, k) && now.threads == n.threads && now.places == n.places
    ensures Awaiting(now, k)
  {
  }

  lemma StillNearer(n: Node, next: Node, last: Node, k: nat)
    requires Nearer(n, next, k) && Nearer(next, last, k)
    ensures Nearer(n, last, k)
  {
    hide ErrorFirst;
  }

  /** An answer that is not in its slot is still on its way there. */
  lemma AnswerAhead(v: View, p: Node, k: nat)
    requires Safe(v, p) && Awaiting(v.me, k) && k in p.answers && k in v.me.slots && p.answers[k] !in v.me.slots[k]
    ensures v.me.pushing != None || v.inbox != []
  {
    hide EntriesOk, ChannelOk, Keyed, StacksOk, AnswersOk, ReturnedOk, Local;
    Waits(v.me, k);
    assert OnItsWay(v.inbox, v.me.pushing, v.me.slots, k, p.answers[k]);
  }

  /** The read handler brings the answer into the slot. */
  lemma {:induction false} Gathers(v: View, p: Node, k: nat) returns (steps: seq<Step>)
    requires Safe(v, p) && Settled(v.me) && Awaiting(v.me, k) && k in p.answers
    ensures
      var w := RunOn(v, steps);
      Safe(w, p) && Awaiting(w.me, k) && Nearer(v.me, w.me, k) && p.answers[k] in w.me.slots[k]
    decreases |v.inbox|, if v.me.pushing == None then 0 else 1
  {
    assert k in v.me.slots by { Waits(v.me, k); }
    hide Safe, Awaiting, ErrorFirst, RunOn;
    if p.answers[k] in v.me.slots[k] {
      RunNothing(v);
      steps := [];
    } else {
      AnswerAhead(v, p, k);
      var step := if v.me.pushing == None then Deliver(true) else Push;
      if v.me.pushing == None { DeliverNearer(v, k); } else { PushNearer(v, k); }
      assert Enabled(v, step);
      hide Enabled, Next, Nearer, Settled;
      StepKept(v, p, step);
      SettledKept(v, p, step);
      NearerWaits(v.me, Next(v, step).me, k);
      var rest := Gathers(Next(v, step), p, k);
      RunFirst(v, step, rest);
      StillNearer(v.me, Next(v, step).me, RunOn(v, [step] + rest).me, k);
      steps := [step] + rest;
    }
  }

  lemma NearerWaits(n: Node, now: Node, k: nat)
    requires Nearer(n, now, k) && Awaiting(n, k)
    ensures Awaiting(now, k)
  {
    hide Awaiting;
    StillAwaiting(n, now, k);
  }

  /** The caller reads next, and what it reads ends the wait. */
  predicate AboutToEnd(n: Node, k: nat) {
    && Awaiting(n, k) && |Stack(n, n.places[k].thread)| == n.places[k].depth + 1
    && k in n.slots && n.slots[k] != [] && !Inserted(n.side, n.slots[k][0])
  }

  /** What stands above the waiting call is left, one frame at a time. */
  function Unwinding(n: Node, t: nat): Step
    requires Stack(n, t) != []
  {
    if Top(n, t).Handling? then Return(t) else Leave(t)
  }

  lemma StackLower(n: Node, now: Node, k: nat, t: nat)
    requires Awaiting(n, k) && t == n.places[k].thread && |Stack(n, t)| > n.places[k].depth + 1
    requires now.places == n.places && now.threads == n.threads[t := Stack(n, t)[..|Stack(n, t)| - 1]]
    ensures Awaiting(now, k) && |Stack(now, t)| == |Stack(n, t)| - 1
  {
  }

  lemma StackHigher(n: Node, now: Node, k: nat, t: nat, f: Frame)
    requires Awaiting(n, k) && t == n.places[k].thread && now.places == n.places
    requires now.threads == n.threads || now.threads == n.threads[t := Stack(n, t) + [f]]
    ensures Awaiting(now, k)
  {
  }

  lemma ReturnsThere(v: View, t: nat)
    requires Stack(v.me, t) != [] && Top(v.me, t).Handling?
    ensures
      var n, now := v.me, Next(v, Return(t)).me;
      && Enabled(v, Return(t))
      && now.side == n.side && now.places == n.places && now.slots == n.slots
      && now.threads == n.threads[t := Stack(n, t)[..|Stack(n, t)| - 1]]
  {
  }

  lemma LeavesThere(v: View, t: nat)
    requires Stack(v.me, t) != [] && Top(v.me, t).Calling?
    ensures
      var n, now := v.me, Next(v, Leave(t)).me;
      && Enabled(v, Leave(t))
      && now.side == n.side && now.places == n.places && now.slots == n.slots - {Top(n, t).m.id}
      && now.threads == n.threads[t := Stack(n, t)[..|Stack(n, t)| - 1]]
  {
  }

  lemma Unwinds(v: View, k: nat)
    requires Local(v.me) && Awaiting(v.me, k)
    requires |Stack(v.me, v.me.places[k].thread)| > v.me.places[k].depth + 1
    ensures
      var t := v.me.places[k].thread;
      var step := Unwinding(v.me, t);
      && Enabled(v, step)
      && var now := Next(v, step).me;
      && now.side == v.me.side && now.places == v.me.places && Awaiting(now, k)
      && k in v.me.slots && k in now.slots && now.slots[k] == v.me.slots[k]
      && |Stack(now, t)| == |Stack(v.me, t)| - 1
  {
    var t := v.me.places[k].thread;
    Waits(v.me, k);
    if Top(v.me, t).Handling? { ReturnsThere(v, t); } else { LeavesThere(v, t); }
    hide Local, Held, Next, Enabled, Awaiting;
    StackLower(v.me, Next(v, Unwinding(v.me, t)).me, k, t);
  }

  /** With nothing above it, a waiting call reads what is in its slot. */
  lemma ReadEnabled(v: View, k: nat)
    requires Awaiting(v.me, k) && |Stack(v.me, v.me.places[k].thread)| == v.me.places[k].depth + 1
    requires k in v.me.slots && v.me.slots[k] != []
    ensures k in v.me.places
    ensures
      var t := v.me.places[k].thread;
      Enabled(v, Read(t, 0)) && Top(v.me, t).m.id == k
  {
  }

  /** A callback in front of the answer is read. */
  lemma ReadsOn(v: View, p: Node, k: nat)
    requires Safe(v, p) && Awaiting(v.me, k) && k in v.me.slots && v.me.slots[k] != []
    requires |Stack(v.me, v.me.places[k].thread)| == v.me.places[k].depth + 1
    requires Inserted(v.me.side, v.me.slots[k][0])
    ensures
      var t := v.me.places[k].thread;
      && Enabled(v, Read(t, 0))
      && var now := Next(v, Read(t, 0)).me;
      && now.side == v.me.side && now.places == v.me.places && Awaiting(now, k)
      && k in now.slots && now.slots[k] == v.me.slots[k][1..]
  {
    var t := v.me.places[k].thread;
    CallbackHead(v, p, k);
    ReadEnabled(v, k);
    WaitingSent(v, p, t, 0);
    hide Safe, Next, Enabled, Awaiting;
    ReadsCallback(v, t, 0);
    StackHigher(v.me, Next(v, Read(t, 0)).me, k, t, Handling(v.me.slots[k][0]));
  }

  lemma CallbackHead(v: View, p: Node, k: nat)
    requires Safe(v, p) && k in v.me.slots && v.me.slots[k] != [] && Inserted(v.me.side, v.me.slots[k][0])
    ensures v.me.slots[k][0].error == 0
  {
    hide ChannelOk, Keyed, ReturnedOk, StacksOk, NothingLost, InsertionsOk, SlotsOk, FramesOk, Numbered;
    var m := v.me.slots[k][0];
    assert EntryOk(v.me.side, p.sent, p.answers, k, m);
    assert RequestOk(p.side, m.id, p.sent[m.id]);
  }

  lemma CallbackFirst(side: Side, q: seq<Msg>, a: Msg)
    requires a in q && OwnType(side, a.mtype) && Inserted(side, q[0])
    ensures a in q[1..] && ErrorFirst(side, q) == ErrorFirst(side, q[1..])
  {
    assert q == [q[0]] + q[1..];
  }

  /** Something stands above the waiting call. */
  predicate Above(n: Node, k: nat) {
    k in n.places && |Stack(n, n.places[k].thread)| > n.places[k].depth + 1
  }

  /** The next step of the caller's thread towards what ends the wait. */
  function Clearing(n: Node, k: nat): Step
    requires k in n.places
  {
    var t := n.places[k].thread;
    if Above(n, k) then Unwinding(n, t) else Read(t, 0)
  }

  lemma OneClear(v: View, p: Node, k: nat)
    requires Safe(v, p) && Awaiting(v.me, k) && k in p.answers && k in v.me.slots && p.answers[k] in v.me.slots[k]
    requires !AboutToEnd(v.me, k)
    ensures Enabled(v, Clearing(v.me, k))
    ensures
      var n, now := v.me, Next(v, Clearing(v.me, k)).me;
      && now.side == n.side && now.places == n.places && Awaiting(now, k)
      && k in now.slots && p.answers[k] in now.slots[k]
      && ErrorFirst(n.side, now.slots[k]) == ErrorFirst(n.side, n.slots[k])
      && (|now.slots[k]| < |n.slots[k]|
          || (|now.slots[k]| == |n.slots[k]|
              && |Stack(now, n.places[k].thread)| < |Stack(n, n.places[k].thread)|))
  {
    if Above(v.me, k) {
      assert Local(v.me) by { hide Local, Link; }
      hide Safe, Local, Next, Enabled, Awaiting, ErrorFirst;
      Unwinds(v, k);
    } else {
      CallbackThere(v.me, k);
      assert OwnType(v.me.side, p.answers[k].mtype) by { OwnAnswer(v, p, k); }
      hide Safe, Next, Enabled, Awaiting, ErrorFirst, Stack;
      ReadsOn(v, p, k);
      CallbackFirst(v.me.side, v.me.slots[k], p.answers[k]);
    }
  }

  lemma CallbackThere(n: Node, k: nat)
    requires Awaiting(n, k) && !Above(n, k) && k in n.slots && n.slots[k] != [] && !AboutToEnd(n, k)
    ensures |Stack(n, n.places[k].thread)| == n.places[k].depth + 1 && Inserted(n.side, n.slots[k][0])
  {
  }

  /** With the answer in its slot, the caller's thread comes to what ends the wait. */
  lemma {:induction false} Clears(v: View, p: Node, k: nat) returns (steps: seq<Step>)
    requires Safe(v, p) && Awaiting(v.me, k) && k in p.answers && k in v.me.slots && p.answers[k] in v.me.slots[k]
    ensures
      var w := RunOn(v, steps);
      Safe(w, p) && AboutToEnd(w.me, k) && w.me.side == v.me.side && w.me.places == v.me.places
      && ErrorFirst(v.me.side, w.me.slots[k]) == ErrorFirst(v.me.side, v.me.slots[k])
    decreases |v.me.slots[k]|, |Stack(v.me, v.me.places[k].thread)|
  {
    if AboutToEnd(v.me, k) {
      RunNothing(v);
      hide Safe;
      steps := [];
    } else {
      var step := Clearing(v.me, k);
      OneClear(v, p, k);
      hide Safe, Awaiting, ErrorFirst, RunOn, Next, Enabled, AboutToEnd, Stack, Clearing;
      StepKept(v, p, step);
      var rest := Clears(Next(v, step), p, k);
      RunFirst(v, step, rest);
      steps := [step] + rest;
    }
  }

  lemma OwnAnswer(v: View, p: Node, k: nat)
    requires Safe(v, p) && k in p.answers
    ensures OwnType(v.me.side, p.answers[k].mtype) && p.answers[k].id == k
  {
    hide FramesOk, SlotsOk, StagesOk, InsertionsOk, EntriesOk, ChannelOk, NothingLost, ReturnedOk, StacksOk, Keyed;
    AnswerKey(v.me, p, k);
  }

  /** Once it has left, a call waits no more. */
  lemma LeftIsOver(n: Node, now: Node, k: nat)
    requires AboutToEnd(n, k) && now.places == n.places
    requires now.threads == PopFrame(n, n.places[k].thread).threads
    ensures !Awaiting(now, k)
  {
  }

  lemma LeftFields(n: Node, t: nat)
    requires Stack(n, t) != []
    ensures Left(n, t).places == n.places && Left(n, t).threads == PopFrame(n, t).threads
  {
  }

  /** The last read: an error or the call's own answer, and the wait is over. */
  lemma ReadsLast(v: View, p: Node, k: nat)
    requires Safe(v, p) && AboutToEnd(v.me, k)
    ensures
      var t, m := v.me.places[k].thread, v.me.slots[k][0];
      && Enabled(v, Read(t, 0))
      && var now := Next(v, Read(t, 0)).me;
      && !Awaiting(now, k)
      && (m.error == 0 ==> k in now.returned && now.returned[k] == m)
  {
    var t := v.me.places[k].thread;
    ReadEnabled(v, k);
    HeadKinds(v, p, t, 0);
    assert Stack(v.me, t) != [];
    LeftFields(v.me, t);
    hide Safe, Enabled, Left;
    if v.me.slots[k][0].error != 0 {
      ReadsError(v, t, 0);
    } else {
      ReadsAnswer(v, t, 0);
    }
    hide AboutToEnd, Next;
    LeftIsOver(v.me, Next(v, Read(t, 0)).me, k);
  }

  lemma HeadEntry(v: View, p: Node, k: nat)
    requires Safe(v, p) && k in v.me.slots && v.me.slots[k] != []
    ensures EntryOk(v.me.side, p.sent, p.answers, k, v.me.slots[k][0])
  {
  }

  // ---- the two nodes -----------------------------------------------------------------------

  predicate OwnMoves(side: Side, moves: seq<Move>) {
    forall i | 0 <= i < |moves| :: moves[i].side == side
  }

  function Lift(side: Side, steps: seq<Step>): (moves: seq<Move>)
    ensures OwnMoves(side, moves)
  {
    if steps == [] then [] else [Move(side, steps[0])] + Lift(side, steps[1..])
  }

  lemma OwnMove(s: System, side: Side, step: Step)
    ensures
      var t := Moved(s, Move(side, step));
      At(t, side) == Stepped(At(s, side), step) && PeerOf(t, side) == PeerOf(s, side)
  {
    hide Next, Enabled;
  }

  lemma PeerMove(s: System, side: Side, step: Step)
    ensures
      var t := Moved(s, Move(Other(side), step));
      At(t, side).me == At(s, side).me && PeerOf(t, side) == Stepped(At(s, Other(side)), step).me
  {
    hide Next, Enabled;
  }

  lemma ExecFirst(s: System, m: Move, more: seq<Move>)
    ensures Exec(s, [m] + more) == Exec(Moved(s, m), more)
  {
    assert ([m] + more)[1..] == more;
  }

  lemma ExecNothing(s: System)
    ensures Exec(s, []) == s
  {
  }

  lemma {:induction false} OwnRun(s: System, side: Side, steps: seq<Step>)
    ensures
      var t := Exec(s, Lift(side, steps));
      At(t, side) == RunOn(At(s, side), steps) && PeerOf(t, side) == PeerOf(s, side)
    decreases |steps|
  {
    if steps == [] {
      ExecNothing(s);
    } else {
      OwnMove(s, side, steps[0]);
      ExecFirst(s, Move(side, steps[0]), Lift(side, steps[1..]));
      hide Moved, Stepped, At, PeerOf, Exec;
      OwnRun(Moved(s, Move(side, steps[0])), side, steps[1..]);
    }
  }

  lemma SettledMoved(s: System, m: Move, side: Side)
    requires Inv(s) && Settled(At(s, side).me)
    ensures Settled(At(Moved(s, m), side).me)
  {
    SafeEverywhere(s, side);
    hide Inv, Safe, Settled, Next;
    if m.side == side {
      OwnMove(s, side, m.step);
      if Enabled(At(s, side), m.step) {
        SettledKept(At(s, side), PeerOf(s, side), m.step);
      }
    } else {
      PeerMove(s, side, m.step);
    }
  }

  lemma {:induction false} RunSettled(s: System, moves: seq<Move>, side: Side)
    requires Inv(s) && Settled(At(s, side).me)
    ensures Inv(Exec(s, moves)) && Settled(At(Exec(s, moves), side).me)
    decreases |moves|
  {
    if moves != [] {
      hide Inv, Settled, At, Moved;
      MovedKept(s, moves[0]);
      SettledMoved(s, moves[0], side);
      RunSettled(Moved(s, moves[0]), moves[1..], side);
    }
  }

  lemma EverySettled(clientDepth: nat, serverDepth: nat, moves: seq<Move>, side: Side)
    ensures
      var s := Exec(Start(clientDepth, serverDepth), moves);
      Inv(s) && Safe(At(s, side), PeerOf(s, side)) && Settled(At(s, side).me)
  {
    StartsRight(clientDepth, serverDepth);
    assert Settled(At(Start(clientDepth, serverDepth), side).me);
    hide Inv, Safe, Exec, Settled, Start;
    RunSettled(Start(clientDepth, serverDepth), moves, side);
    SafeEverywhere(Exec(Start(clientDepth, serverDepth), moves), side);
  }

  lemma DoomedMoved(s: System, m: Move, side: Side, k: nat)
    requires Inv(s) && Doomed(At(s, side).me, k)
    ensures Doomed(At(Moved(s, m), side).me, k)
  {
    SafeEverywhere(s, side);
    hide Inv, Safe, Doomed, Next;
    if m.side == side {
      OwnMove(s, side, m.step);
      if Enabled(At(s, side), m.step) {
        DoomedKept(At(s, side), PeerOf(s, side), m.step, k);
      }
    } else {
      PeerMove(s, side, m.step);
    }
  }

  lemma {:induction false} RunDoomed(s: System, moves: seq<Move>, side: Side, k: nat)
    requires Inv(s) && Doomed(At(s, side).me, k)
    ensures Doomed(At(Exec(s, moves), side).me, k)
    decreases |moves|
  {
    if moves != [] {
      hide Inv, Doomed, At, Moved;
      MovedKept(s, moves[0]);
      DoomedMoved(s, moves[0], side, k);
      RunDoomed(Moved(s, moves[0]), moves[1..], side, k);
    }
  }

  lemma AnswersMoved(s: System, m: Move, side: Side)
    requires Inv(s)
    ensures Grown(At(s, side).me.answers, At(Moved(s, m), side).me.answers)
  {
    SafeEverywhere(s, side);
    hide Inv, Safe, Next;
    if m.side == side {
      OwnMove(s, side, m.step);
      if Enabled(At(s, side), m.step) {
        AnswersStay(At(s, side), PeerOf(s, side), m.step);
      }
    } else {
      PeerMove(s, side, m.step);
    }
  }

  /** In every continuation the answers a side has given stay what they were. */
  lemma {:induction false} RunAnswers(s: System, moves: seq<Move>, side: Side)
    requires Inv(s)
    ensures Grown(At(s, side).me.answers, At(Exec(s, moves), side).me.answers)
    decreases |moves|
  {
    if moves != [] {
      hide Inv, At, Moved;
      MovedKept(s, moves[0]);
      AnswersMoved(s, moves[0], side);
      RunAnswers(Moved(s, moves[0]), moves[1..], side);
    }
  }

  // ---- how waits end -----------------------------------------------------------------------

  /** After `more`, all moves of its side, the caller of `k` still waits; it reads `m`, which ends the wait. */
  predicate EndsReading(s: System, more: seq<Move>, side: Side, k: nat, m: Msg) {
    var n := At(Exec(s, more), side).me;
    && OwnMoves(side, more)
    && AboutToEnd(n, k) && n.slots[k][0] == m
    && var now := At(Exec(s, more + [Move(side, Read(n.places[k].thread, 0))]), side).me;
    !Awaiting(now, k) && (m.error == 0 ==> k in now.returned && now.returned[k] == m)
  }

  /** The message a wait ends with: the answer, unless a system error stands in the slot before it. */
  predicate EndsWith(s: System, side: Side, k: nat, m: Msg) {
    && k in At(s, side).me.slots && k in PeerOf(s, side).answers
    && if ErrorFirst(side, At(s, side).me.slots[k]) then m.mtype == MessageNone && m.error != 0
       else m == PeerOf(s, side).answers[k]
  }

  /** What the two parts of the run come to, and then the last read. */
  lemma EndsAfter(s: System, side: Side, gather: seq<Step>, clear: seq<Step>, k: nat)
    requires
      var u := RunOn(RunOn(At(s, side), gather), clear);
      Safe(u, PeerOf(s, side)) && AboutToEnd(u.me, k)
    ensures
      var u := RunOn(RunOn(At(s, side), gather), clear);
      && k in u.me.slots && u.me.slots[k] != []
      && EndsReading(s, Lift(side, gather) + Lift(side, clear), side, k, u.me.slots[k][0])
  {
    hide Safe, Awaiting, Next, Exec, Lift, RunOn, At, PeerOf, OwnMoves;
    var u := RunOn(RunOn(At(s, side), gather), clear);
    ReadEnabled(u, k);
    ReadsLast(u, PeerOf(s, side), k);
    var more := Lift(side, gather) + Lift(side, clear);
    OwnRun(s, side, gather);
    OwnRun(Exec(s, Lift(side, gather)), side, clear);
    ExecConcat(s, Lift(side, gather), Lift(side, clear));
    var last := Move(side, Read(u.me.places[k].thread, 0));
    ExecConcat(s, more, [last]);
    ExecOne(Exec(s, more), last);
    OwnMove(Exec(s, more), side, last.step);
    OwnMovesConcat(side, Lift(side, gather), Lift(side, clear));
    hide Enabled;
  }

  lemma OwnMovesConcat(side: Side, a: seq<Move>, b: seq<Move>)
    requires OwnMoves(side, a) && OwnMoves(side, b)
    ensures OwnMoves(side, a + b)
  {
  }

  /** The caller's own side can bring a wait that has been answered to its end, from anywhere. */
  lemma Ends(s: System, side: Side, k: nat) returns (more: seq<Move>, m: Msg)
    requires Inv(s) && Settled(At(s, side).me) && Awaiting(At(s, side).me, k) && k in PeerOf(s, side).answers
    ensures EndsReading(s, more, side, k, m) && EndsWith(s, side, k, m)
  {
    SafeSlot(s, side, k);
    var v, p := At(s, side), PeerOf(s, side);
    SafeEverywhere(s, side);
    hide Safe, Inv, Awaiting, Settled, ErrorFirst, AboutToEnd, RunOn, At, PeerOf, EndsReading, Lift;
    var gather := Gathers(v, p, k);
    var w := RunOn(v, gather);
    var clear := Clears(w, p, k);
    var u := RunOn(w, clear);
    EndsAfter(s, side, gather, clear, k);
    LastKinds(u, p, k);
    m := u.me.slots[k][0];
    more := Lift(side, gather) + Lift(side, clear);
  }

  lemma SafeSlot(s: System, side: Side, k: nat)
    requires Inv(s) && Awaiting(At(s, side).me, k)
    ensures k in At(s, side).me.slots && At(s, side).me.side == side
  {
    SafeEverywhere(s, side);
    assert Local(At(s, side).me) by { hide Link; }
    hide Inv, Safe;
    Waits(At(s, side).me, k);
  }

  /** It is an error if and only if one was first in the slot. */
  lemma LastKinds(v: View, p: Node, k: nat)
    requires Safe(v, p) && AboutToEnd(v.me, k)
    ensures k in v.me.places && k in v.me.slots && v.me.slots[k] != []
    ensures
      var m := v.me.slots[k][0];
      if ErrorFirst(v.me.side, v.me.slots[k]) then m.mtype == MessageNone && m.error != 0
      else k in p.answers && m == p.answers[k]
  {
    HeadEntry(v, p, k);
    hide Safe;
  }

  /**
   * A wait can end: from every reachable state in which the peer has answered a call that still waits, what
   * the caller's own side does can let it read the message that ends the wait.
   */
  lemma WaitCanEnd(clientDepth: nat, serverDepth: nat, moves: seq<Move>, side: Side, k: nat)
    requires
      var s := Exec(Start(clientDepth, serverDepth), moves);
      Awaiting(At(s, side).me, k) && k in PeerOf(s, side).answers
    ensures
      var s := Exec(Start(clientDepth, serverDepth), moves);
      exists more, m :: EndsWith(s, side, k, m) && EndsReading(s, more, side, k, m)
  {
    EverySettled(clientDepth, serverDepth, moves, side);
    var s := Exec(Start(clientDepth, serverDepth), moves);
    hide Exec, Awaiting, Settled, Inv, Safe, EndsReading, ErrorFirst, Start;
    var more, m := Ends(s, side, k);
    assert EndsWith(s, side, k, m) && EndsReading(s, more, side, k, m);
  }

  /**
   * Such a wait can still return if and only if its answer carries no error and no system error stands in its
   * slot before it, whatever both sides do.
   */
  lemma CanReturnIff(clientDepth: nat, serverDepth: nat, moves: seq<Move>, side: Side, k: nat)
    requires
      var s := Exec(Start(clientDepth, serverDepth), moves);
      Awaiting(At(s, side).me, k) && k in PeerOf(s, side).answers
    ensures
      var s := Exec(Start(clientDepth, serverDepth), moves);
      && k in At(s, side).me.slots
      && ((exists more :: k in At(Exec(s, more), side).me.returned) <==>
            PeerOf(s, side).answers[k].error == 0 && !ErrorFirst(side, At(s, side).me.slots[k]))
  {
    EverySettled(clientDepth, serverDepth, moves, side);
    var s := Exec(Start(clientDepth, serverDepth), moves);
    hide *;
    SafeSlot(s, side, k);
    if PeerOf(s, side).answers[k].error == 0 && !ErrorFirst(side, At(s, side).me.slots[k]) {
      var more := Returns(s, side, k);
    }
    forall more | k in At(Exec(s, more), side).me.returned
      ensures PeerOf(s, side).answers[k].error == 0 && !ErrorFirst(side, At(s, side).me.slots[k])
    {
      ReturnsOnly(s, more, side, k);
    }
  }

  lemma Returns(s: System, side: Side, k: nat) returns (more: seq<Move>)
    requires Inv(s) && Settled(At(s, side).me) && Awaiting(At(s, side).me, k) && k in PeerOf(s, side).answers
    requires k in At(s, side).me.slots
    requires PeerOf(s, side).answers[k].error == 0 && !ErrorFirst(side, At(s, side).me.slots[k])
    ensures k in At(Exec(s, more), side).me.returned
  {
    hide Exec, Awaiting, Settled, Inv, ErrorFirst, At, AboutToEnd;
    var before, m := Ends(s, side, k);
    more := before + [Move(side, Read(At(Exec(s, before), side).me.places[k].thread, 0))] by {
      EndsThere(s, before, side, k, m);
    }
  }

  lemma EndsThere(s: System, more: seq<Move>, side: Side, k: nat, m: Msg)
    requires EndsReading(s, more, side, k, m)
    ensures k in At(Exec(s, more), side).me.places
  {
  }

  /** A wait returns nothing but an answer without an error, and only if no system error stood before it. */
  lemma ReturnsOnly(s: System, more: seq<Move>, side: Side, k: nat)
    requires Inv(s) && Settled(At(s, side).me) && Awaiting(At(s, side).me, k) && k in PeerOf(s, side).answers
    requires k in At(Exec(s, more), side).me.returned
    requires k in At(s, side).me.slots
    ensures PeerOf(s, side).answers[k].error == 0 && !ErrorFirst(side, At(s, side).me.slots[k])
  {
    var n := At(s, side).me;
    SafeEverywhere(s, side);
    assert k in n.transmitted by {
      assert Local(n) by { hide Link; }
      Waits(n, k);
    }
    NotReturned(n, k);
    RunKept(s, more);
    SafeEverywhere(Exec(s, more), side);
    RunAnswers(s, more, Other(side));
    ReturnedRight(At(Exec(s, more), side), PeerOf(Exec(s, more), side), k);
    if ErrorFirst(side, n.slots[k]) {
      hide Inv, Safe, Exec, Awaiting, ErrorFirst, Settled;
      RunDoomed(s, more, side, k);
    }
  }

  lemma NotReturned(n: Node, k: nat)
    requires Settled(n) && k in n.slots
    ensures k !in n.returned
  {
  }

  lemma ReturnedRight(v: View, p: Node, k: nat)
    requires Safe(v, p) && k in v.me.returned
    ensures k in p.answers && v.me.returned[k] == p.answers[k] && p.answers[k].error == 0
  {
    hide Local, EntriesOk, ChannelOk, Keyed, StacksOk, AnswersOk, NothingLost;
  }
}
