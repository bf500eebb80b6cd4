/**
 * No request is lost: the counterpart of `RpcResults.NoLostReply` for what a side takes from its peer, from the
 * channel through the slots, the pool and the dispatch loops to its handling.
 */
module RpcRequests {
  import opened Rpc
  import opened RpcSafety
  import opened RpcSteps
  import opened RpcResults
  import opened RpcWaits
  import opened RpcContexts
  import opened RpcFates
  import opened Wrappers

  /** The call `k` is on some stack, whatever its stage. */
  predicate OnStack(places: map<nat, Place>, threads: Stacks, k: nat) {
    && k in places && places[k].thread in threads && places[k].depth < |threads[places[k].thread]|
    && var f := threads[places[k].thread][places[k].depth];
    f.Calling? && f.m.id == k
  }

  /** A callback aimed at a call that was made and has been left. */
  predicate Gone(n: Node, m: Msg) {
    Inserted(n.side, m) && m.target in n.sent && !OnStack(n.places, n.threads, m.target)
  }

  /** In the channel, or found a slot for and not pushed yet, or in its slot. */
  predicate Coming(inbox: seq<Msg>, pushing: Option<Delivery>, slots: map<nat, seq<Msg>>, m: Msg) {
    || m in inbox
    || (m.target in slots && (pushing == Some(Delivery(m.target, m)) || m in slots[m.target]))
  }

  /** Nothing the peer sent is lost but callbacks for calls that were left meanwhile. */
  predicate Accounted(v: View, m: Msg) {
    || Coming(v.inbox, v.me.pushing, v.me.slots, m)
    || m.id in v.me.queued || m.id in v.me.started
    || Gone(v.me, m)
  }

  ghost predicate AllAccounted(v: View, p: Node) {
    forall k | k in p.transmitted :: k in p.sent && Accounted(v, p.sent[k])
  }

  // ---- calls do not come back --------------------------------------------------------------

  predicate NotBack(places: map<nat, Place>, threads: Stacks, places': map<nat, Place>, threads': Stacks, k: nat) {
    OnStack(places', threads', k) ==> OnStack(places, threads, k)
  }

  lemma PoppedNotBack(places: map<nat, Place>, threads: Stacks, t: nat, k: nat)
    requires t in threads && threads[t] != []
    ensures NotBack(places, threads, places, threads[t := threads[t][..|threads[t]| - 1]], k)
  {
  }

  lemma HandledNotBack(places: map<nat, Place>, threads: Stacks, t: nat, m: Msg, k: nat)
    ensures NotBack(places, threads, places, threads[t := StackIn(threads, t) + [Handling(m)]], k)
  {
  }

  lemma StagedNotBack(places: map<nat, Place>, threads: Stacks, t: nat, f: Frame, k: nat)
    requires t in threads && threads[t] != [] && f.Calling?
    requires threads[t][|threads[t]| - 1].Calling? && threads[t][|threads[t]| - 1].m == f.m
    ensures NotBack(places, threads, places, threads[t := threads[t][..|threads[t]| - 1] + [f]], k)
  {
  }

  lemma CalledNotBack(places: map<nat, Place>, threads: Stacks, t: nat, f: Frame, d: nat, k: nat)
    requires f.Calling? && f.m.id != k
    ensures NotBack(places, threads, places[f.m.id := Place(t, d)], threads[t := StackIn(threads, t) + [f]], k)
  {
  }

  /** The call on top of a stack is gone once the stack is popped. */
  lemma LeftGone(places: map<nat, Place>, threads: Stacks, t: nat, k: nat)
    requires t in threads && threads[t] != [] && k in places && places[k] == Place(t, |threads[t]| - 1)
    ensures !OnStack(places, threads[t := threads[t][..|threads[t]| - 1]], k)
  {
  }

  // ---- what the steps do -------------------------------------------------------------------

  predicate Within(q: seq<Msg>, r: seq<Msg>) {
    forall i | 0 <= i < |q| :: q[i] in r
  }

  /** Nothing is taken from the channel, the slots or the pool, and no call comes back. */
  ghost predicate Harmless(v: View, w: View) {
    && w.me.side == v.me.side && w.inbox == v.inbox && w.me.pushing == v.me.pushing
    && v.me.queued.Keys <= w.me.queued.Keys && v.me.started <= w.me.started && v.me.sent.Keys <= w.me.sent.Keys
    && (forall k | k in v.me.slots :: k in w.me.slots && Within(v.me.slots[k], w.me.slots[k]))
    && (forall k | k in v.me.sent :: NotBack(v.me.places, v.me.threads, w.me.places, w.me.threads, k))
  }

  lemma HarmlessKeeps(v: View, w: View, m: Msg)
    requires Harmless(v, w) && Accounted(v, m)
    ensures Accounted(w, m)
  {
    hide OnStack;
  }

  /** Slots, pool and records are as they were; calls may have been left. */
  predicate OnlyStacks(v: View, w: View) {
    && w.me.side == v.me.side && w.inbox == v.inbox && w.me.pushing == v.me.pushing && w.me.slots == v.me.slots
    && w.me.queued == v.me.queued && v.me.started <= w.me.started && w.me.sent == v.me.sent
  }

  lemma StacksHarmless(v: View, w: View)
    requires OnlyStacks(v, w)
    requires forall k | k in v.me.sent :: NotBack(v.me.places, v.me.threads, w.me.places, w.me.threads, k)
    ensures Harmless(v, w)
  {
    hide OnStack, NotBack;
  }

  lemma BeginHarmless(v: View, p: Node, step: Step)
    requires Safe(v, p) && step.Begin? && Enabled(v, step)
    ensures Harmless(v, Begun(v, step))
  {
    var m := Configure(v.me, step.t, step);
    NewCall(v.me, step.t, step) by { assert Local(v.me) by { hide Local, Link; } }
    BegunIs(v, step);
    hide Safe, Begun, Configure, OnStack, Enabled;
    forall k | k in v.me.sent
      ensures NotBack(v.me.places, v.me.threads, Begun(v, step).me.places, Begun(v, step).me.threads, k)
    {
      if step.wait {
        CalledNotBack(v.me.places, v.me.threads, step.t, Calling(m, Configured, step.raw), |Stack(v.me, step.t)|, k);
      }
    }
    hide NotBack;
  }

  lemma StageHarmless(v: View, step: Step)
    requires Enabled(v, step) && (step.Register? || step.Transmit?)
    ensures Harmless(v, Next(v, step))
  {
    var f := Top(v.me, step.t).(stage := if step.Register? then Registered else Waiting);
    forall k | k in v.me.sent
      ensures NotBack(v.me.places, v.me.threads, Next(v, step).me.places, Next(v, step).me.threads, k)
    {
      StagedNotBack(v.me.places, v.me.threads, step.t, f, k);
      hide NotBack;
    }
    hide NotBack;
  }

  lemma ReturnHarmless(v: View, t: nat)
    requires Enabled(v, Return(t))
    ensures Harmless(v, Next(v, Return(t)))
  {
    var w := Next(v, Return(t));
    assert OnlyStacks(v, w);
    forall k | k in v.me.sent ensures NotBack(v.me.places, v.me.threads, w.me.places, w.me.threads, k) {
      PoppedNotBack(v.me.places, v.me.threads, t, k);
    }
    hide NotBack, Next;
    StacksHarmless(v, w);
  }

  lemma RefusedStacks(v: View, m: Msg, error: nat)
    ensures OnlyStacks(v, Refused(v, m, error))
    ensures Refused(v, m, error).me.places == v.me.places && Refused(v, m, error).me.threads == v.me.threads
  {
  }

  lemma ThrowHarmless(v: View, t: nat, error: nat)
    requires Enabled(v, Throw(t, error))
    ensures Harmless(v, Next(v, Throw(t, error)))
  {
    var m := Top(v.me, t).m;
    var u := v.(me := PopFrame(v.me, t).(closures := v.me.closures - {m.id}));
    assert OnlyStacks(v, u);
    RefusedStacks(u, m, error);
    var w := Next(v, Throw(t, error));
    assert w == Refused(u, m, error);
    hide Refused, Next;
    forall k | k in v.me.sent ensures NotBack(v.me.places, v.me.threads, w.me.places, w.me.threads, k) {
      PoppedNotBack(v.me.places, v.me.threads, t, k);
    }
    hide NotBack;
    StacksHarmless(v, w);
  }

  lemma ClosureHarmless(v: View, id: nat, error: nat, data: int)
    requires Enabled(v, RunClosure(id, error, data))
    ensures Harmless(v, Next(v, RunClosure(id, error, data)))
  {
    var w := Next(v, RunClosure(id, error, data));
    assert OnlyStacks(v, w) && w.me.places == v.me.places && w.me.threads == v.me.threads;
    hide Next, OnStack;
    StacksHarmless(v, w);
  }

  lemma SystemErrorHarmless(v: View, error: nat)
    requires Enabled(v, SystemError(error))
    ensures Harmless(v, Next(v, SystemError(error)))
  {
    hide OnStack;
  }

  // ---- leaving a call ----------------------------------------------------------------------

  lemma LeftIs(n: Node, t: nat)
    requires Stack(n, t) != []
    ensures
      var w := Left(n, t);
      && w.side == n.side && w.pushing == n.pushing && w.queued == n.queued && w.started == n.started
      && w.sent == n.sent && w.places == n.places && w.slots == n.slots - {Top(n, t).m.id}
      && t in n.threads && w.threads == n.threads[t := n.threads[t][..|n.threads[t]| - 1]]
  {
  }

  /** One call is left: its slot goes, and what is in it or headed there. */
  lemma GoneWith(v: View, w: View, t: nat, c: nat, m: Msg)
    requires Accounted(v, m) && t in v.me.threads && v.me.threads[t] != []
    requires c in v.me.sent && c in v.me.places && v.me.places[c] == Place(t, |v.me.threads[t]| - 1)
    requires m.target in v.me.slots && (v.me.pushing == Some(Delivery(m.target, m)) || m in v.me.slots[m.target]) ==>
               Inserted(v.me.side, m)
    requires w.inbox == v.inbox && w.me.side == v.me.side && w.me.pushing == v.me.pushing && w.me.queued == v.me.queued
    requires w.me.started == v.me.started && w.me.sent == v.me.sent && w.me.places == v.me.places
    requires w.me.slots == v.me.slots - {c}
             && w.me.threads == v.me.threads[t := v.me.threads[t][..|v.me.threads[t]| - 1]]
    ensures Accounted(w, m)
  {
    PoppedNotBack(v.me.places, v.me.threads, t, m.target);
    LeftGone(v.me.places, v.me.threads, t, c);
    hide OnStack, Inserted;
  }

  /** What stands in the slot of a call, or is headed there, is gone with the call. */
  lemma LeavesGone(v: View, p: Node, t: nat, m: Msg)
    requires Safe(v, p) && Calls(v.me, t) && In(m, p.sent) && Accounted(v, m)
    ensures Accounted(v.(me := Left(v.me, t)), m)
  {
    var n, c := v.me, Top(v.me, t).m.id;
    assert c in n.places && c in n.sent && n.places[c] == Place(t, |Stack(n, t)| - 1) && t in n.threads by {
      hide Link, SentOk, SlotsOk, InsertionsOk, OnceOk, StagesOk;
      TopFrame(n, t);
    }
    LeftIs(n, t);
    if m.target in n.slots && (n.pushing == Some(Delivery(m.target, m)) || m in n.slots[m.target]) {
      InSlotInserted(v, p, m);
    }
    hide Safe, Accounted, Left, In, Inserted;
    GoneWith(v, v.(me := Left(n, t)), t, c, m);
  }

  lemma InSlotInserted(v: View, p: Node, m: Msg)
    requires Safe(v, p) && In(m, p.sent)
    requires m.target in v.me.slots && (v.me.pushing == Some(Delivery(m.target, m)) || m in v.me.slots[m.target])
    ensures Inserted(v.me.side, m)
  {
    hide ChannelOk, Keyed, ReturnedOk, StacksOk, NothingLost, AnswersOk, InsertionsOk, SlotsOk, FramesOk, Numbered;
    hide StagesOk, OnceOk;
    assert RequestOk(p.side, m.id, m);
    assert EntryOk(v.me.side, p.sent, p.answers, m.target, m);
  }

  // ---- reading, dispatching, pushing -------------------------------------------------------

  /** One message is taken from a slot and started. */
  lemma StartedFrom(v: View, w: View, c: nat, m: Msg)
    requires Accounted(v, m) && c in v.me.slots && v.me.slots[c] != []
    requires w.inbox == v.inbox && w.me.side == v.me.side && w.me.pushing == v.me.pushing && w.me.queued == v.me.queued
    requires v.me.started + {v.me.slots[c][0].id} <= w.me.started && w.me.sent == v.me.sent
    requires w.me.slots == v.me.slots[c := v.me.slots[c][1..]]
    requires NotBack(v.me.places, v.me.threads, w.me.places, w.me.threads, m.target)
    ensures Accounted(w, m)
  {
    hide OnStack;
    assert v.me.slots[c] == [v.me.slots[c][0]] + v.me.slots[c][1..];
  }

  lemma LocalCallIs(v: View, t: nat, outer: nat, m: Msg)
    ensures
      var w := MakeLocalCall(v, t, outer, m);
      && w.inbox == v.inbox && w.me.side == v.me.side && w.me.pushing == v.me.pushing && w.me.queued == v.me.queued
      && w.me.started == v.me.started + {m.id} && w.me.sent == v.me.sent && w.me.slots == v.me.slots
      && w.me.places == v.me.places
      && (w.me.threads == v.me.threads || w.me.threads == v.me.threads[t := Stack(v.me, t) + [Handling(m)]])
  {
  }

  lemma HandlesNotBack(n: Node, t: nat, threads: Stacks, m: Msg, k: nat)
    requires threads == n.threads || threads == n.threads[t := Stack(n, t) + [Handling(m)]]
    ensures NotBack(n.places, n.threads, n.places, threads, k)
  {
    HandledNotBack(n.places, n.threads, t, m, k);
  }

  lemma CallbackRead(v: View, p: Node, t: nat, outer: nat, m: Msg)
    requires Safe(v, p) && Enabled(v, Read(t, outer)) && Accounted(v, m)
    requires
      var f := Top(v.me, t);
      v.me.slots[f.m.id][0].error == 0 && v.me.slots[f.m.id][0].mtype != f.m.mtype
    ensures Accounted(Next(v, Read(t, outer)), m)
  {
    var n, f := v.me, Top(v.me, t);
    var head := n.slots[f.m.id][0];
    var u := v.(me := Taken(n, f.m.id));
    var w := Next(v, Read(t, outer));
    assert w ==
      if f.raw then u.(me := u.me.(started := u.me.started + {head.id})) else MakeLocalCall(u, t, outer, head);
    LocalCallIs(u, t, outer, head);
    hide Safe, Accounted, MakeLocalCall, Next, Enabled;
    HandlesNotBack(n, t, w.me.threads, head, m.target);
    hide NotBack;
    StartedFrom(v, w, f.m.id, m);
  }

  lemma ReturnedAccounted(v: View, k: nat, a: Msg, m: Msg)
    requires Accounted(v, m)
    ensures Accounted(v.(me := v.me.(returned := v.me.returned[k := a])), m)
  {
    hide OnStack;
  }

  lemma ReadAccounted(v: View, p: Node, t: nat, outer: nat, m: Msg)
    requires Safe(v, p) && Enabled(v, Read(t, outer)) && In(m, p.sent) && Accounted(v, m)
    ensures Accounted(Next(v, Read(t, outer)), m)
  {
    var f := Top(v.me, t);
    var head := v.me.slots[f.m.id][0];
    if head.error != 0 || head.mtype == f.m.mtype {
      LeavesGone(v, p, t, m);
      LeavesReading(v, t, outer);
      hide Safe, Accounted, Left, ReadSlot;
      if head.error == 0 {
        ReturnedAccounted(v.(me := Left(v.me, t)), f.m.id, head, m);
      }
    } else {
      hide Safe, Accounted, ReadSlot;
      CallbackRead(v, p, t, outer, m);
    }
  }

  /** One message is taken from the channel: any other is where it was. */
  lemma OthersStay(v: View, w: View, m: Msg)
    requires v.inbox != [] && Accounted(v, m) && m != v.inbox[0] && v.me.pushing == None
    requires w.inbox == v.inbox[1..] && w.me.side == v.me.side
    requires v.me.queued.Keys <= w.me.queued.Keys && v.me.started <= w.me.started && w.me.sent == v.me.sent
    requires w.me.slots == v.me.slots && w.me.places == v.me.places && w.me.threads == v.me.threads
    ensures Accounted(w, m)
  {
    hide OnStack;
    assert v.inbox == [v.inbox[0]] + v.inbox[1..];
  }

  lemma AnswerAccounted(v: View, p: Node, admit: bool, m: Msg)
    requires Safe(v, p) && Enabled(v, Deliver(admit)) && OwnType(v.me.side, v.inbox[0].mtype)
    requires In(m, p.sent) && Accounted(v, m)
    ensures Accounted(Dispatch(v, admit), m)
  {
    assert m != v.inbox[0] by {
      hide Local, EntriesOk, ChannelOk, Keyed, StacksOk, AnswersOk, ReturnedOk, NothingLost;
      PeerType(v, p, m);
    }
    AnswerDispatch(v, admit);
    hide Safe, Dispatch, Accounted;
    OthersStay(v, Dispatch(v, admit), m);
  }

  lemma PeerType(v: View, p: Node, m: Msg)
    requires Safe(v, p) && In(m, p.sent)
    ensures OwnType(Other(v.me.side), m.mtype) && !OwnType(v.me.side, m.mtype) && m.id in p.sent
  {
    hide EntriesOk, ChannelOk, Keyed, StacksOk, AnswersOk, ReturnedOk, NothingLost, FramesOk, SlotsOk, StagesOk;
    hide InsertionsOk, Numbered;
    assert RequestOk(p.side, m.id, p.sent[m.id]);
  }

  /** A request is dispatched to the pool, to its slot, or to a refusal. */
  predicate Handed(v: View, m: Msg) {
    m.id in v.me.queued || m.id in v.me.started || (m.target in v.me.slots
        && v.me.pushing == Some(Delivery(m.target, m)))
  }

  lemma HandedAccounted(v: View, m: Msg)
    requires Handed(v, m)
    ensures Accounted(v, m)
  {
  }

  /** What dispatching a request leaves alone. */
  predicate Dispatches(v: View, w: View) {
    && w.inbox == v.inbox && w.me.side == v.me.side && w.me.sent == v.me.sent && w.me.slots == v.me.slots
    && v.me.queued.Keys <= w.me.queued.Keys && v.me.started <= w.me.started
    && w.me.places == v.me.places && w.me.threads == v.me.threads
  }

  lemma RefusedHanded(v: View, m: Msg, error: nat)
    ensures Dispatches(v, Refused(v, m, error)) && Handed(Refused(v, m, error), m)
  {
  }

  lemma NoContextHanded(v: View, m: Msg)
    ensures Dispatches(v, NoContext(v, m)) && Handed(NoContext(v, m), m)
  {
  }

  lemma PostedHanded(v: View, m: Msg)
    ensures Dispatches(v, Posted(v, m)) && Handed(Posted(v, m), m)
  {
  }

  lemma AimedHanded(v: View, m: Msg)
    requires m.target in v.me.slots
    ensures Dispatches(v, Aimed(v, m.target, m)) && Handed(Aimed(v, m.target, m), m)
  {
  }

  lemma ProcessCallHanded(v: View, m: Msg, admit: bool)
    requires v.me.side == Client ==> m.id != 0
    ensures Dispatches(v, ProcessCall(v, m, admit)) && Handed(ProcessCall(v, m, admit), m)
  {
    RefusedHanded(v, m, ERR_BUSY);
    PostedHanded(v, m);
    hide Dispatches, Handed, Refused, Posted, ToAllSlots;
  }

  lemma RequestHanded(v: View, admit: bool)
    requires Enabled(v, Deliver(admit)) && OwnType(Other(v.me.side), v.inbox[0].mtype)
    requires v.me.side == Client ==> v.inbox[0].id != 0
    ensures Dispatches(Received(v), Dispatch(v, admit)) && Handed(Dispatch(v, admit), v.inbox[0])
  {
    var m, w := v.inbox[0], Received(v);
    ReceivedRecord(v);
    hide Received, ProcessCall, NoContext, Aimed, Dispatches, Handed, SameRecord;
    if m.mtype == DirectType(Other(v.me.side)) {
      ProcessCallHanded(w, m, admit);
    } else if m.target in v.me.slots {
      AimedHanded(w, m);
    } else if m.alone {
      ProcessCallHanded(w, m, admit);
    } else {
      NoContextHanded(w, m);
    }
  }

  lemma ReceivedDispatches(v: View)
    requires v.inbox != []
    ensures
      var w := Received(v);
      && w.inbox == v.inbox[1..] && w.me.side == v.me.side && w.me.sent == v.me.sent && w.me.slots == v.me.slots
      && w.me.queued == v.me.queued && w.me.started == v.me.started
      && w.me.places == v.me.places && w.me.threads == v.me.threads
  {
  }

  lemma RequestAccounted(v: View, p: Node, admit: bool, m: Msg)
    requires Safe(v, p) && Enabled(v, Deliver(admit)) && !OwnType(v.me.side, v.inbox[0].mtype)
    requires In(m, p.sent) && Accounted(v, m)
    ensures Accounted(Dispatch(v, admit), m)
  {
    HeadInFlight(v, p);
    assert v.me.side == Client ==> v.inbox[0].id != 0 by {
      if v.me.side == Client {
        IdPositive(p, v.inbox[0]) by { assert Local(p) by { hide Local, Link; } }
      }
    }
    RequestHanded(v, admit);
    ReceivedDispatches(v);
    hide Safe, Dispatch, Received, Accounted, Handed;
    if m == v.inbox[0] {
      HandedAccounted(Dispatch(v, admit), m);
    } else {
      OthersStay(v, Dispatch(v, admit), m);
    }
  }

  lemma PushAccounted(v: View, m: Msg)
    requires Enabled(v, Push) && Accounted(v, m)
    ensures Accounted(Next(v, Push), m)
  {
    hide OnStack;
    var d := v.me.pushing.value;
    if d.slot in v.me.slots {
      assert d.m in v.me.slots[d.slot] + [d.m];
    }
  }

  lemma StartAccounted(v: View, p: Node, t: nat, id: nat, m: Msg)
    requires Safe(v, p) && Enabled(v, StartQueued(t, id)) && Accounted(v, m)
    ensures Accounted(Next(v, StartQueued(t, id)), m)
  {
    var u := v.(me := v.me.(queued := v.me.queued - {id}));
    var w := Next(v, StartQueued(t, id));
    QueuedId(v, p, id);
    LocalCallIs(u, t, 0, v.me.queued[id]);
    assert w == MakeLocalCall(u, t, 0, v.me.queued[id]);
    hide Safe, MakeLocalCall, Next;
    HandlesNotBack(v.me, t, w.me.threads, v.me.queued[id], m.target);
    hide OnStack;
  }

  // ---- every step --------------------------------------------------------------------------

  lemma StepAccounted(v: View, p: Node, step: Step, m: Msg)
    requires Safe(v, p) && Enabled(v, step) && In(m, p.sent) && Accounted(v, m)
    ensures Accounted(Next(v, step), m)
  {
    hide Safe, Accounted, Harmless, Dispatch, Begun, Left;
    match step
    case Begin(_, _, _, _, _, _, _) => BeginHarmless(v, p, step); HarmlessKeeps(v, Begun(v, step), m);
    case Register(_) => StageHarmless(v, step); hide Next; HarmlessKeeps(v, Next(v, step), m);
    case Transmit(_) => StageHarmless(v, step); hide Next; HarmlessKeeps(v, Next(v, step), m);
    case Leave(t) => LeavesGone(v, p, t, m);
    case Read(t, outer) => ReadAccounted(v, p, t, outer, m);
    case Deliver(admit) =>
      if OwnType(v.me.side, v.inbox[0].mtype) {
        AnswerAccounted(v, p, admit, m);
      } else {
        RequestAccounted(v, p, admit, m);
      }
    case Push => PushAccounted(v, m);
    case StartQueued(t, id) => StartAccounted(v, p, t, id, m);
    case RunClosure(id, error, data) =>
      ClosureHarmless(v, id, error, data); hide Next; HarmlessKeeps(v, Next(v, step), m);
    case Return(t) => ReturnHarmless(v, t); hide Next; HarmlessKeeps(v, Next(v, step), m);
    case Throw(t, error) => ThrowHarmless(v, t, error); hide Next; HarmlessKeeps(v, Next(v, step), m);
    case SystemError(error) => SystemErrorHarmless(v, error); hide Next; HarmlessKeeps(v, Next(v, step), m);
  }

  // ---- every run ---------------------------------------------------------------------------

  /** What the sender has sent since is in the channel. */
  ghost predicate Sends(v: View, w: View) {
    && Within(v.outbox, w.outbox)
    && (forall k | k in w.me.transmitted && k !in v.me.transmitted :: k in w.me.sent && w.me.sent[k] in w.outbox)
  }

  lemma BeginSends(v: View, step: Step)
    requires step.Begin?
    ensures Sends(v, Begun(v, step))
  {
    BegunIs(v, step);
    hide Begun, Configure, Stack;
  }

  lemma TransmitSends(v: View, p: Node, t: nat)
    requires Safe(v, p) && Enabled(v, Transmit(t))
    ensures Sends(v, Next(v, Transmit(t)))
  {
    assert Top(v.me, t).m.id in v.me.sent && v.me.sent[Top(v.me, t).m.id] == Top(v.me, t).m by {
      hide Link, SentOk, SlotsOk, InsertionsOk, OnceOk, StagesOk;
      TopFrame(v.me, t);
    }
    hide Safe;
  }

  /** Nothing is sent but answers. */
  predicate SendsNone(v: View, w: View) {
    w.me.transmitted == v.me.transmitted && (w.outbox == v.outbox || (w.outbox != []
        && w.outbox[..|w.outbox| - 1] == v.outbox))
  }

  lemma NoneSends(v: View, w: View)
    requires SendsNone(v, w)
    ensures Sends(v, w)
  {
    forall i | 0 <= i < |v.outbox| ensures v.outbox[i] in w.outbox {
      assert v.outbox[i] == w.outbox[i];
    }
  }

  lemma RefusedSendsNone(v: View, m: Msg, error: nat)
    ensures SendsNone(v, Refused(v, m, error))
  {
  }

  lemma NoContextSendsNone(v: View, m: Msg)
    ensures SendsNone(v, NoContext(v, m))
  {
  }

  lemma LocalCallSendsNone(v: View, t: nat, outer: nat, m: Msg)
    ensures SendsNone(v, MakeLocalCall(v, t, outer, m))
  {
    RefusedSendsNone(v, m, ERR_OVERFLOW);
    hide Refused;
  }

  lemma ProcessCallSendsNone(v: View, m: Msg, admit: bool)
    ensures SendsNone(v, ProcessCall(v, m, admit))
  {
    RefusedSendsNone(v, m, ERR_BUSY);
    hide Refused, Broadcast;
  }

  lemma SendsNoneThrough(v: View, u: View, w: View)
    requires u.me.transmitted == v.me.transmitted && u.outbox == v.outbox && SendsNone(u, w)
    ensures SendsNone(v, w)
  {
  }

  lemma ReceivedSilent(v: View)
    requires v.inbox != []
    ensures Received(v).me.transmitted == v.me.transmitted && Received(v).outbox == v.outbox
    ensures Popped(v).me == v.me && Popped(v).outbox == v.outbox
  {
  }

  lemma DeliverSendsNone(v: View, admit: bool)
    requires Enabled(v, Deliver(admit))
    ensures SendsNone(v, Dispatch(v, admit))
  {
    var m, w := v.inbox[0], Received(v);
    ReceivedSilent(v);
    if OwnType(v.me.side, m.mtype) {
      AnswerDispatch(v, admit);
      hide Dispatch;
    } else {
      RequestDispatch(v, admit);
      ProcessCallSendsNone(w, m, admit);
      NoContextSendsNone(w, m);
      assert SendsNone(w, Aimed(w, m.target, m));
      assert SendsNone(v, Popped(v));
      hide Dispatch, ProcessCall, NoContext, Received, Aimed, Popped, SendsNone;
      if Dispatch(v, admit) != Popped(v) {
        SendsNoneThrough(v, w, Dispatch(v, admit));
      }
    }
  }

  lemma ReadSendsNone(v: View, t: nat, outer: nat)
    requires Enabled(v, Read(t, outer))
    ensures SendsNone(v, Next(v, Read(t, outer)))
  {
    var n, f := v.me, Top(v.me, t);
    var m := n.slots[f.m.id][0];
    if m.error != 0 || m.mtype == f.m.mtype {
      LeavesReading(v, t, outer);
      hide ReadSlot;
    } else {
      var u := v.(me := Taken(n, f.m.id));
      LocalCallSendsNone(u, t, outer, m);
      assert Next(v, Read(t, outer)) ==
        if f.raw then u.(me := u.me.(started := u.me.started + {m.id})) else MakeLocalCall(u, t, outer, m);
      hide MakeLocalCall, Next;
    }
  }

  lemma HandlersSendNone(v: View, step: Step)
    requires Enabled(v, step) && (step.StartQueued? || step.Throw?)
    ensures SendsNone(v, Next(v, step))
  {
    if step.Throw? {
      var m := Top(v.me, step.t).m;
      RefusedSendsNone(v.(me := PopFrame(v.me, step.t).(closures := v.me.closures - {m.id})), m, step.error);
    } else {
      LocalCallSendsNone(v.(me := v.me.(queued := v.me.queued - {step.id})), step.t, 0, v.me.queued[step.id]);
    }
    hide Refused, MakeLocalCall;
  }

  lemma StepSends(v: View, p: Node, step: Step)
    requires Safe(v, p) && Enabled(v, step)
    ensures Sends(v, Next(v, step))
  {
    hide Safe, Sends, SendsNone, Dispatch, Begun;
    match step
    case Begin(_, _, _, _, _, _, _) => BeginSends(v, step);
    case Transmit(t) => TransmitSends(v, p, t);
    case Read(t, outer) => ReadSendsNone(v, t, outer); hide Next; NoneSends(v, Next(v, step));
    case Deliver(admit) => DeliverSendsNone(v, admit); NoneSends(v, Next(v, step));
    case StartQueued(_, _) => HandlersSendNone(v, step); hide Next; NoneSends(v, Next(v, step));
    case Throw(_, _) => HandlersSendNone(v, step); hide Next; NoneSends(v, Next(v, step));
    case _ => OthersSendNone(v, step); hide Next; NoneSends(v, Next(v, step));
  }

  lemma OthersSendNone(v: View, step: Step)
    requires Enabled(v, step)
    requires step.Register? || step.Leave? || step.Push? || step.RunClosure? || step.Return? || step.SystemError?
    ensures SendsNone(v, Next(v, step))
  {
    hide Broadcast;
  }

  lemma OwnAccounted(v: View, p: Node, step: Step)
    requires Safe(v, p) && Enabled(v, step) && AllAccounted(v, p)
    ensures AllAccounted(Next(v, step), p)
  {
    forall k | k in p.transmitted ensures k in p.sent && Accounted(Next(v, step), p.sent[k]) {
      assert In(p.sent[k], p.sent) by { SentUnder(v, p, k); }
      hide Safe, Next, Accounted;
      StepAccounted(v, p, step, p.sent[k]);
    }
  }

  lemma SentUnder(v: View, p: Node, k: nat)
    requires Safe(v, p) && k in p.sent
    ensures p.sent[k].id == k
  {
    hide Link, FramesOk, SlotsOk, StagesOk, InsertionsOk, OnceOk, Numbered;
    assert RequestOk(p.side, k, p.sent[k]);
  }

  /** The peer sends something: it is in the channel. */
  lemma PeerAccounted(v: View, w: View, m: Msg)
    requires w.me == v.me && Accounted(v, m) && Within(v.inbox, w.inbox)
    ensures Accounted(w, m)
  {
  }

  lemma PeerAllAccounted(s: System, side: Side, step: Step)
    requires Inv(s) && AllAccounted(At(s, side), PeerOf(s, side)) && Enabled(At(s, Other(side)), step)
    ensures
      var t := Moved(s, Move(Other(side), step));
      AllAccounted(At(t, side), PeerOf(t, side))
  {
    var t := Moved(s, Move(Other(side), step));
    var v, w, p, q := At(s, side), At(t, side), PeerOf(s, side), PeerOf(t, side);
    var pv := At(s, Other(side));
    SafeEverywhere(s, Other(side));
    StepSends(pv, PeerOf(s, Other(side)), step);
    SentStay(pv, PeerOf(s, Other(side)), step);
    PeerMove(s, side, step);
    assert pv.outbox == v.inbox && Next(pv, step).outbox == w.inbox by { Channels(s, side, step); }
    hide Inv, Safe, Next, Enabled, Moved, Accounted;
    forall k | k in q.transmitted ensures k in q.sent && Accounted(w, q.sent[k]) {
      if k in p.transmitted {
        PeerAccounted(v, w, p.sent[k]);
      } else {
        NewAccounted(w, q.sent[k]);
      }
    }
  }

  lemma NewAccounted(w: View, m: Msg)
    requires m in w.inbox
    ensures Accounted(w, m)
  {
  }

  lemma Channels(s: System, side: Side, step: Step)
    requires Enabled(At(s, Other(side)), step)
    ensures At(s, Other(side)).outbox == At(s, side).inbox
    ensures Next(At(s, Other(side)), step).outbox == At(Moved(s, Move(Other(side), step)), side).inbox
  {
    hide Next, Enabled;
  }

  lemma MoveAccounted(s: System, m: Move, side: Side)
    requires Inv(s) && AllAccounted(At(s, side), PeerOf(s, side))
    ensures
      var t := Moved(s, m);
      AllAccounted(At(t, side), PeerOf(t, side))
  {
    SafeEverywhere(s, side);
    hide Inv, Safe, Next, AllAccounted;
    if m.side == side {
      OwnMove(s, side, m.step);
      if Enabled(At(s, side), m.step) {
        OwnAccounted(At(s, side), PeerOf(s, side), m.step);
      }
    } else if Enabled(At(s, m.side), m.step) {
      PeerAllAccounted(s, side, m.step);
    }
  }

  lemma {:induction false} RunAccounted(s: System, moves: seq<Move>, side: Side)
    requires Inv(s) && AllAccounted(At(s, side), PeerOf(s, side))
    ensures
      var t := Exec(s, moves);
      AllAccounted(At(t, side), PeerOf(t, side))
    decreases |moves|
  {
    hide Inv, AllAccounted, At, PeerOf, Moved;
    if moves != [] {
      MovedKept(s, moves[0]);
      MoveAccounted(s, moves[0], side);
      RunAccounted(Moved(s, moves[0]), moves[1..], side);
    }
  }

  lemma EveryAccounted(clientDepth: nat, serverDepth: nat, moves: seq<Move>, side: Side)
    ensures
      var s := Exec(Start(clientDepth, serverDepth), moves);
      AllAccounted(At(s, side), PeerOf(s, side))
  {
    StartsRight(clientDepth, serverDepth);
    var s := Start(clientDepth, serverDepth);
    assert AllAccounted(At(s, side), PeerOf(s, side));
    hide Inv, AllAccounted, Exec, Start;
    RunAccounted(s, moves, side);
  }

  /**
   * No lost request: in every run what a side has sent is in the channel, in the pool of the other side, or was
   * started there; a callback may also be on its way into the slot it is aimed at or in it, or be lost with a
   * call that was left.
   */
  lemma NoLostRequest(clientDepth: nat, serverDepth: nat, moves: seq<Move>, side: Side, k: nat)
    requires k in PeerOf(Exec(Start(clientDepth, serverDepth), moves), side).transmitted
    ensures
      var s := Exec(Start(clientDepth, serverDepth), moves);
      var v, p := At(s, side), PeerOf(s, side);
      && k in p.sent
      && var m := p.sent[k];
      || m in v.inbox || k in v.me.queued || k in v.me.started
      || (m.mtype == CallbackType(Other(side))
          && ((m.target in v.me.slots && (v.me.pushing == Some(Delivery(m.target, m)) || m in v.me.slots[m.target]))
              || (m.target in v.me.sent && !OnStack(v.me.places, v.me.threads, m.target))))
  {
    EveryAccounted(clientDepth, serverDepth, moves, side);
    EveryRun(clientDepth, serverDepth, moves, side);
    var s := Exec(Start(clientDepth, serverDepth), moves);
    var v, p := At(s, side), PeerOf(s, side);
    assert k in p.sent && Accounted(v, p.sent[k]);
    SentUnder(v, p, k);
    var m := p.sent[k];
    hide Exec, Start, OnStack, AllAccounted;
    if m.target in v.me.slots && (v.me.pushing == Some(Delivery(m.target, m)) || m in v.me.slots[m.target]) {
      InSlotInserted(v, p, m);
    }
    hide Safe;
  }
}
