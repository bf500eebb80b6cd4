/**
 * What becomes of a request, and what its answer says of it: `closure_done` and the handlers of exceptions in
 * lib/vtrc/common/protocol-layer.cpp, and the refusals of both dispatch loops. A fate is read off the step that
 * decides it, before that step has any effect.
 */
module RpcFates {
  import opened Rpc
  import opened RpcSafety
  import opened RpcSteps
  import opened RpcResults
  import opened RpcWaits
  import opened RpcContexts
  import opened Wrappers

  /**
   * `Closed`: the service ran its closure with this error, or with none and this value. `Thrown`: it threw.
   * `Busy`, `TooDeep`, `ContextLost`: it never ran. `HandedOver`: a callback given to a raw call's receiver.
   */
  datatype Fate = Closed(error: nat, data: int) | Thrown(error: nat) | Busy | TooDeep | ContextLost | HandedOver

  /** The error of a call's fate as its caller sees it, by the numbers of vtrc-errors.proto; 0 for none. */
  function ErrorOf(fate: Fate): nat {
    match fate
    case Closed(error, _) => error
    case Thrown(error) => error
    case Busy => 16
    case TooDeep => 1004
    case ContextLost => 1005
    case HandedOver => 0
  }

  /** Whether the fate of a request is told to its caller: a closure always answers, an error only if it waits. */
  predicate Told(fate: Fate, m: Msg) {
    match fate
    case Closed(_, _) => true
    case HandedOver => false
    case _ => m.wait
  }

  /** An answer that tells this fate: the error, the value exactly if there is no error, no options without context. */
  predicate Tells(a: Msg, fate: Fate) {
    match fate
    case Closed(error, data) => a.error == error && a.body == if error == 0 then Response(data) else NoBody
    case ContextLost => a.error == ErrorOf(fate) && a.body == NoBody && !a.wait && !a.accept
    case _ => ErrorOf(fate) != 0 && a.error == ErrorOf(fate) && a.body == NoBody
  }

  type Fates = map<nat, Fate>

  /** A call that arrives is refused by a busy server. */
  function OnArrival(side: Side, m: Msg, admit: bool): Fates {
    if side == Server && !admit then map[m.id := Busy] else map[]
  }

  /** The requests whose fate this step decides: one or none. */
  function Decided(v: View, step: Step): Fates
    requires Enabled(v, step)
  {
    var n := v.me;
    match step
    case RunClosure(id, error, data) => map[id := Closed(error, data)]
    case Throw(t, error) => map[Top(n, t).m.id := Thrown(error)]
    case StartQueued(t, id) => if |Stack(n, t)| + 1 > n.maxDepth then map[id := TooDeep] else map[]
    case Read(t, outer) =>
      var f := Top(n, t);
      var m := n.slots[f.m.id][0];
      if m.error != 0 || m.mtype == f.m.mtype then map[]
      else if f.raw then map[m.id := HandedOver]
      else if outer + |Stack(n, t)| + 1 > n.maxDepth then map[m.id := TooDeep]
      else map[]
    case Deliver(admit) =>
      var m, peer := v.inbox[0], Other(n.side);
      if m.mtype == DirectType(peer) then OnArrival(n.side, m, admit)
      else if m.mtype == CallbackType(peer) && m.target !in n.slots then
        if m.alone then OnArrival(n.side, m, admit) else map[m.id := ContextLost]
      else map[]
    case _ => map[]
  }

  /** The fates one side has decided in a run. */
  function FatesOf(s: System, moves: seq<Move>, side: Side, fates: Fates): Fates
    decreases |moves|
  {
    if moves == [] then fates else FatesOf(Moved(s, moves[0]), moves[1..], side, fates + DecidedBy(s, moves[0], side))
  }

  function DecidedBy(s: System, m: Move, side: Side): Fates {
    if m.side == side && Enabled(At(s, side), m.step) then Decided(At(s, side), m.step) else map[]
  }

  // ---- what fates and nodes agree on -------------------------------------------------------

  predicate AnswersFit(answers: Messages, fates: Fates) {
    forall k | k in answers :: k in fates && Tells(answers[k], fates[k])
  }

  /** Only requests the peer made and that were started have fates, and those to be told are answered. */
  predicate FatesFit(fates: Fates, started: set<nat>, closures: set<nat>, answers: set<nat>, sent: Messages) {
    forall k | k in fates :: k in started && k !in closures && k in sent && (k in answers <==> Told(fates[k], sent[k]))
  }

  /** A request that was started is being handled or has its fate. */
  predicate StartedFit(fates: Fates, started: set<nat>, closures: set<nat>) {
    forall k | k in started :: k in closures || k in fates
  }

  /** The services that ran are those with closures not run yet and those that closed or threw. */
  predicate ExecutedFit(fates: Fates, executed: seq<nat>, closures: set<nat>) {
    && (forall k | k in closures :: k in executed)
    && (forall k | k in executed :: k in closures || (k in fates && (fates[k].Closed? || fates[k].Thrown?)))
    && (forall k | k in fates && (fates[k].Closed? || fates[k].Thrown?) :: k in executed)
  }

  ghost predicate Fit(n: Node, sent: Messages, fates: Fates) {
    && AnswersFit(n.answers, fates)
    && FatesFit(fates, n.started, n.closures.Keys, n.answers.Keys, sent)
    && StartedFit(fates, n.started, n.closures.Keys)
    && ExecutedFit(fates, n.executed, n.closures.Keys)
  }

  // ---- what a step does to the records -----------------------------------------------------

  /** Nothing is started, closed or answered. */
  predicate SameRecord(n: Node, now: Node) {
    now.answers == n.answers && now.started == n.started && now.closures == n.closures && now.executed == n.executed
  }

  /** A request is refused before its service runs. */
  predicate RefusesOne(n: Node, now: Node, m: Msg, fate: Fate) {
    && now.closures == n.closures && now.executed == n.executed && now.started == n.started + {m.id}
    && (if m.wait then
          m.id in now.answers && now.answers == n.answers[m.id := now.answers[m.id]] && Tells(now.answers[m.id], fate)
        else now.answers == n.answers)
  }

  /** A request's service begins. */
  predicate EntersOne(n: Node, now: Node, m: Msg) {
    && now.closures == n.closures[m.id := m] && now.executed == n.executed + [m.id]
    && now.started == n.started + {m.id} && now.answers == n.answers
  }

  lemma RefusedRecord(v: View, m: Msg, error: nat, fate: Fate)
    requires error != 0 && !fate.Closed? && !fate.ContextLost? && ErrorOf(fate) == error
    ensures RefusesOne(v.me, Refused(v, m, error).me, m, fate)
  {
  }

  lemma NoContextRecord(v: View, m: Msg)
    ensures RefusesOne(v.me, NoContext(v, m).me, m, ContextLost)
  {
  }

  lemma LocalCallRecord(v: View, t: nat, outer: nat, m: Msg)
    ensures
      var now := MakeLocalCall(v, t, outer, m).me;
      if outer + |Stack(v.me, t)| + 1 > v.me.maxDepth then RefusesOne(v.me, now, m, TooDeep)
      else EntersOne(v.me, now, m)
  {
    RefusedRecord(v, m, ERR_OVERFLOW, TooDeep);
    hide Refused, Tells;
  }

  lemma ProcessCallRecord(v: View, m: Msg, admit: bool)
    ensures
      var now := ProcessCall(v, m, admit).me;
      if v.me.side == Server && !admit then RefusesOne(v.me, now, m, Busy) else SameRecord(v.me, now)
  {
    RefusedRecord(v, m, ERR_BUSY, Busy);
    hide Refused, Tells, Broadcast;
  }

  lemma BegunRecord(v: View, step: Step)
    requires step.Begin?
    ensures SameRecord(v.me, Begun(v, step).me)
  {
    BegunIs(v, step);
    hide Begun, Configure, Stack;
  }

  lemma QuietRecord(v: View, step: Step)
    requires Enabled(v, step)
    requires step.Register? || step.Transmit? || step.Leave? || step.Push? || step.Return? || step.SystemError?
    ensures SameRecord(v.me, Next(v, step).me)
  {
    hide Broadcast;
  }

  // ---- fates stay fitting ------------------------------------------------------------------

  lemma FitSame(n: Node, now: Node, sent: Messages, fates: Fates)
    requires Fit(n, sent, fates) && SameRecord(n, now)
    ensures Fit(now, sent, fates)
  {
  }

  /** A request of the peer's that was not started. */
  predicate Untouched(n: Node, sent: Messages, m: Msg) {
    In(m, sent) && m.id !in n.started && n.closures.Keys <= n.started && n.answers.Keys <= n.started
  }

  lemma NotExecuted(n: Node, sent: Messages, fates: Fates, id: nat)
    requires Fit(n, sent, fates) && id !in n.started && n.closures.Keys <= n.started
    ensures id !in fates && id !in n.executed && id !in n.closures
  {
  }

  /** One fate more, told by an answer or not. */
  lemma AnswersMore(answers: Messages, now: Messages, fates: Fates, k: nat, fate: Fate)
    requires AnswersFit(answers, fates) && k !in fates
    requires now == answers || (k in now && now == answers[k := now[k]] && Tells(now[k], fate))
    ensures AnswersFit(now, fates + map[k := fate])
  {
    hide Tells;
  }

  lemma FatesMore(fates: Fates, started: set<nat>, closures: set<nat>, answers: set<nat>, now: set<nat>, sent: Messages,
                  k: nat, fate: Fate)
    requires FatesFit(fates, started, closures, answers, sent) && k !in fates && k !in answers && k in sent
    requires now == if Told(fate, sent[k]) then answers + {k} else answers
    ensures FatesFit(fates + map[k := fate], started + {k}, closures - {k}, now, sent)
  {
    hide Told;
  }

  lemma StartedMore(fates: Fates, started: set<nat>, closures: set<nat>, k: nat, fate: Fate)
    requires StartedFit(fates, started, closures)
    ensures StartedFit(fates + map[k := fate], started + {k}, closures - {k})
  {
  }

  lemma ExecutedMore(fates: Fates, executed: seq<nat>, closures: set<nat>, k: nat, fate: Fate)
    requires ExecutedFit(fates, executed, closures) && k !in fates
    requires fate.Closed? || fate.Thrown? <==> k in closures
    requires k in closures <==> k in executed
    ensures ExecutedFit(fates + map[k := fate], executed, closures - {k})
  {
  }

  /** A request gets its fate: before its service ran, or when it ends. */
  lemma FitMore(n: Node, now: Node, sent: Messages, fates: Fates, m: Msg, fate: Fate)
    requires Fit(n, sent, fates) && In(m, sent) && m.id !in fates && m.id !in n.answers
    requires fate.Closed? || fate.Thrown? <==> m.id in n.closures
    requires m.id in n.closures <==> m.id in n.executed
    requires now.executed == n.executed && now.closures.Keys == n.closures.Keys - {m.id}
    requires now.started == n.started + {m.id}
    requires
      if Told(fate, m) then
        m.id in now.answers && now.answers == n.answers[m.id := now.answers[m.id]] && Tells(now.answers[m.id], fate)
      else now.answers == n.answers
    ensures Fit(now, sent, fates + map[m.id := fate])
  {
    hide AnswersFit, FatesFit, StartedFit, ExecutedFit, Told, Tells;
    assert now.answers.Keys == if Told(fate, m) then n.answers.Keys + {m.id} else n.answers.Keys;
    AnswersMore(n.answers, now.answers, fates, m.id, fate);
    FatesMore(fates, n.started, n.closures.Keys, n.answers.Keys, now.answers.Keys, sent, m.id, fate);
    StartedMore(fates, n.started, n.closures.Keys, m.id, fate);
    ExecutedMore(fates, n.executed, n.closures.Keys, m.id, fate);
  }

  lemma FitRefuses(n: Node, now: Node, sent: Messages, fates: Fates, m: Msg, fate: Fate)
    requires Fit(n, sent, fates) && Untouched(n, sent, m) && RefusesOne(n, now, m, fate)
    requires fate == Busy || fate == TooDeep || fate == ContextLost
    ensures Fit(now, sent, fates + map[m.id := fate])
  {
    NotExecuted(n, sent, fates, m.id);
    hide Fit, Tells;
    assert now.closures.Keys == n.closures.Keys - {m.id};
    FitMore(n, now, sent, fates, m, fate);
  }

  lemma FitHandedOver(n: Node, now: Node, sent: Messages, fates: Fates, m: Msg)
    requires Fit(n, sent, fates) && Untouched(n, sent, m)
    requires now.closures == n.closures && now.executed == n.executed && now.started == n.started + {m.id}
    requires now.answers == n.answers
    ensures Fit(now, sent, fates + map[m.id := HandedOver])
  {
    NotExecuted(n, sent, fates, m.id);
    hide Fit, Tells;
    assert now.closures.Keys == n.closures.Keys - {m.id};
    FitMore(n, now, sent, fates, m, HandedOver);
  }

  lemma FitEnters(n: Node, now: Node, sent: Messages, fates: Fates, m: Msg)
    requires Fit(n, sent, fates) && Untouched(n, sent, m) && EntersOne(n, now, m)
    ensures Fit(now, sent, fates)
  {
    NotExecuted(n, sent, fates, m.id);
    hide Tells;
  }

  /** A service that ran closes or throws. */
  predicate EndsOne(n: Node, now: Node, m: Msg, fate: Fate) {
    && now.executed == n.executed && now.closures == n.closures - {m.id} && now.started == n.started + {m.id}
    && (if Told(fate, m) then
          m.id in now.answers && now.answers == n.answers[m.id := now.answers[m.id]] && Tells(now.answers[m.id], fate)
        else now.answers == n.answers)
  }

  lemma FitEnds(n: Node, now: Node, sent: Messages, fates: Fates, m: Msg, fate: Fate)
    requires Fit(n, sent, fates) && In(m, sent) && m.id in n.closures && m.id !in n.answers && EndsOne(n, now, m, fate)
    requires fate.Closed? || fate.Thrown?
    ensures Fit(now, sent, fates + map[m.id := fate])
  {
    assert m.id !in fates && m.id in n.executed;
    hide Fit, Tells, Told;
    assert now.closures.Keys == n.closures.Keys - {m.id};
    FitMore(n, now, sent, fates, m, fate);
  }

  lemma ClosureEnds(v: View, id: nat, error: nat, data: int)
    requires id in v.me.closures && v.me.closures[id].id == id
    ensures EndsOne(v.me, Next(v, RunClosure(id, error, data)).me, v.me.closures[id], Closed(error, data))
  {
  }

  lemma ThrowEnds(v: View, t: nat, error: nat)
    requires Enabled(v, Throw(t, error))
    ensures EndsOne(v.me, Next(v, Throw(t, error)).me, Top(v.me, t).m, Thrown(error))
  {
    var m := Top(v.me, t).m;
    var w := v.(me := PopFrame(v.me, t).(closures := v.me.closures - {m.id}));
    RefusedRecord(w, m, error, Thrown(error));
    hide Refused, Tells;
  }

  // ---- every step --------------------------------------------------------------------------

  lemma LooseUntouched(v: View, p: Node, m: Msg)
    requires Safe(v, p) && Loose(v.me, p, m)
    ensures Untouched(v.me, p.sent, m)
  {
    hide Link, SentOk, FramesOk, SlotsOk, InsertionsOk, OnceOk, Nowhere;
  }

  lemma NoneDecided(fates: Fates)
    ensures fates + map[] == fates
  {
  }

  lemma LocalCallFits(v: View, sent: Messages, t: nat, outer: nat, m: Msg, fates: Fates)
    requires Untouched(v.me, sent, m) && Fit(v.me, sent, fates)
    ensures
      var deep := outer + |Stack(v.me, t)| + 1 > v.me.maxDepth;
      Fit(MakeLocalCall(v, t, outer, m).me, sent, if deep then fates + map[m.id := TooDeep] else fates)
  {
    LocalCallRecord(v, t, outer, m);
    hide MakeLocalCall, Fit, RefusesOne, EntersOne, Untouched;
    if outer + |Stack(v.me, t)| + 1 > v.me.maxDepth {
      FitRefuses(v.me, MakeLocalCall(v, t, outer, m).me, sent, fates, m, TooDeep);
    } else {
      FitEnters(v.me, MakeLocalCall(v, t, outer, m).me, sent, fates, m);
    }
  }

  lemma ProcessCallFits(v: View, sent: Messages, m: Msg, admit: bool, fates: Fates)
    requires Untouched(v.me, sent, m) && Fit(v.me, sent, fates)
    ensures Fit(ProcessCall(v, m, admit).me, sent, fates + OnArrival(v.me.side, m, admit))
  {
    ProcessCallRecord(v, m, admit);
    NoneDecided(fates);
    hide ProcessCall, Fit, RefusesOne, SameRecord, Untouched;
    if v.me.side == Server && !admit {
      FitRefuses(v.me, ProcessCall(v, m, admit).me, sent, fates, m, Busy);
    } else {
      FitSame(v.me, ProcessCall(v, m, admit).me, sent, fates);
    }
  }

  lemma NoContextFits(v: View, sent: Messages, m: Msg, fates: Fates)
    requires Untouched(v.me, sent, m) && Fit(v.me, sent, fates)
    ensures Fit(NoContext(v, m).me, sent, fates + map[m.id := ContextLost])
  {
    NoContextRecord(v, m);
    hide NoContext, Fit, RefusesOne, Untouched;
    FitRefuses(v.me, NoContext(v, m).me, sent, fates, m, ContextLost);
  }

  lemma ReceivedRecord(v: View)
    requires v.inbox != []
    ensures SameRecord(v.me, Received(v).me) && SameRecord(v.me, Popped(v).me)
    ensures Received(v).me.side == v.me.side && Received(v).me.slots == v.me.slots
  {
  }

  lemma AimedRecord(v: View, m: Msg)
    ensures SameRecord(v.me, Aimed(v, m.target, m).me)
  {
  }

  lemma AnswerRecord(v: View, admit: bool)
    requires v.inbox != [] && v.me.pushing == None && OwnType(v.me.side, v.inbox[0].mtype)
    ensures SameRecord(v.me, Dispatch(v, admit).me)
  {
    AnswerDispatch(v, admit);
    hide Dispatch;
  }

  /** What dispatching a request does to fates, once it is received. */
  lemma ArrivedFits(v: View, sent: Messages, admit: bool, fates: Fates)
    requires Enabled(v, Deliver(admit)) && OwnType(Other(v.me.side), v.inbox[0].mtype)
    requires Untouched(Received(v).me, sent, v.inbox[0]) && Fit(v.me, sent, fates)
    ensures Fit(Dispatch(v, admit).me, sent, fates + Decided(v, Deliver(admit)))
  {
    var m, w, peer := v.inbox[0], Received(v), Other(v.me.side);
    ReceivedRecord(v);
    NoneDecided(fates);
    hide Fit, Received, ProcessCall, NoContext, Aimed, SameRecord, Untouched;
    FitSame(v.me, w.me, sent, fates);
    if m.mtype == DirectType(peer) {
      ProcessCallFits(w, sent, m, admit, fates);
    } else if m.target in v.me.slots {
      AimedRecord(w, m);
      FitSame(w.me, Aimed(w, m.target, m).me, sent, fates);
    } else if m.alone {
      ProcessCallFits(w, sent, m, admit, fates);
    } else {
      NoContextFits(w, sent, m, fates);
    }
  }

  /** A request that arrives. */
  lemma RequestFits(v: View, p: Node, admit: bool, fates: Fates)
    requires Safe(v, p) && Enabled(v, Deliver(admit)) && !OwnType(v.me.side, v.inbox[0].mtype)
    requires Fit(v.me, p.sent, fates)
    ensures Fit(Dispatch(v, admit).me, p.sent, fates + Decided(v, Deliver(admit)))
  {
    HeadInFlight(v, p);
    assert OwnType(Other(v.me.side), v.inbox[0].mtype);
    ReceivedKept(v, p);
    LooseUntouched(Received(v), p, v.inbox[0]);
    hide Safe, Loose, Fit, Received, Dispatch, Decided, Untouched;
    ArrivedFits(v, p.sent, admit, fates);
  }

  lemma DeliverFits(v: View, p: Node, admit: bool, fates: Fates)
    requires Safe(v, p) && Enabled(v, Deliver(admit)) && Fit(v.me, p.sent, fates)
    ensures Fit(Dispatch(v, admit).me, p.sent, fates + Decided(v, Deliver(admit)))
  {
    hide Safe, Fit, Dispatch;
    if OwnType(v.me.side, v.inbox[0].mtype) {
      AnswerRecord(v, admit);
      NoneDecided(fates);
      FitSame(v.me, Dispatch(v, admit).me, p.sent, fates);
    } else {
      RequestFits(v, p, admit, fates);
    }
  }

  lemma TakenRecord(n: Node, k: nat)
    requires k in n.slots && n.slots[k] != []
    ensures SameRecord(n, Taken(n, k)) && Stack(Taken(n, k), 0) == Stack(n, 0) && Taken(n, k).maxDepth == n.maxDepth
    ensures Taken(n, k).threads == n.threads
  {
  }

  lemma LeftRecord(n: Node, t: nat, k: nat, m: Msg)
    requires Stack(n, t) != []
    ensures SameRecord(n, Left(n, t)) && SameRecord(n, Left(n, t).(returned := n.returned[k := m]))
  {
  }

  /** What a callback taken from its slot does to fates. */
  lemma CallbackTaken(v: View, sent: Messages, t: nat, outer: nat, fates: Fates)
    requires Enabled(v, Read(t, outer)) && Fit(v.me, sent, fates)
    requires
      var f := Top(v.me, t);
      var m := v.me.slots[f.m.id][0];
      m.error == 0 && m.mtype != f.m.mtype && Untouched(Taken(v.me, f.m.id), sent, m)
    ensures Fit(ReadSlot(v, t, outer).me, sent, fates + Decided(v, Read(t, outer)))
  {
    var n, f := v.me, Top(v.me, t);
    var m := n.slots[f.m.id][0];
    var w := v.(me := Taken(n, f.m.id));
    TakenRecord(n, f.m.id);
    NoneDecided(fates);
    assert ReadSlot(v, t, outer) ==
      if f.raw then w.(me := w.me.(started := w.me.started + {m.id})) else MakeLocalCall(w, t, outer, m);
    hide Fit, MakeLocalCall, ReadSlot, SameRecord, Taken, Enabled, Untouched;
    FitSame(n, w.me, sent, fates);
    if f.raw {
      HandedOverFits(w.me, sent, fates, m);
    } else {
      LocalCallFits(w, sent, t, outer, m, fates);
    }
  }

  lemma CallbackFits(v: View, p: Node, t: nat, outer: nat, fates: Fates)
    requires Safe(v, p) && Enabled(v, Read(t, outer)) && Fit(v.me, p.sent, fates)
    requires
      var f := Top(v.me, t);
      v.me.slots[f.m.id][0].error == 0 && v.me.slots[f.m.id][0].mtype != f.m.mtype
    ensures Fit(ReadSlot(v, t, outer).me, p.sent, fates + Decided(v, Read(t, outer)))
  {
    var k := Top(v.me, t).m.id;
    HeadKinds(v, p, t, outer);
    TakenKept(v, p, k);
    hide Safe, Fit, ReadSlot, Taken, Decided, Loose, Untouched;
    LooseUntouched(v.(me := Taken(v.me, k)), p, v.me.slots[k][0]);
    CallbackTaken(v, p.sent, t, outer, fates);
  }

  lemma HandedOverFits(n: Node, sent: Messages, fates: Fates, m: Msg)
    requires Fit(n, sent, fates) && Untouched(n, sent, m)
    ensures Fit(n.(started := n.started + {m.id}), sent, fates + map[m.id := HandedOver])
  {
    hide Fit, Untouched;
    FitHandedOver(n, n.(started := n.started + {m.id}), sent, fates, m);
  }

  lemma ReadFits(v: View, p: Node, t: nat, outer: nat, fates: Fates)
    requires Safe(v, p) && Enabled(v, Read(t, outer)) && Fit(v.me, p.sent, fates)
    ensures Fit(Next(v, Read(t, outer)).me, p.sent, fates + Decided(v, Read(t, outer)))
  {
    var n, f := v.me, Top(v.me, t);
    var m := n.slots[f.m.id][0];
    hide Safe, Fit;
    if m.error != 0 || m.mtype == f.m.mtype {
      LeftRecord(n, t, f.m.id, m);
      LeavesReading(v, t, outer);
      NoneDecided(fates);
      hide Left, ReadSlot, SameRecord;
      FitSame(n, ReadSlot(v, t, outer).me, p.sent, fates);
    } else {
      CallbackFits(v, p, t, outer, fates);
      hide ReadSlot;
    }
  }

  lemma StartFits(v: View, p: Node, t: nat, id: nat, fates: Fates)
    requires Safe(v, p) && Enabled(v, StartQueued(t, id)) && Fit(v.me, p.sent, fates)
    ensures Fit(Next(v, StartQueued(t, id)).me, p.sent, fates + Decided(v, StartQueued(t, id)))
  {
    var w := v.(me := v.me.(queued := v.me.queued - {id}));
    UnqueuedKept(v, p, id);
    assert v.me.queued[id].id == id by { QueuedId(v, p, id); }
    assert SameRecord(v.me, w.me);
    assert Stack(w.me, t) == Stack(v.me, t) && w.me.maxDepth == v.me.maxDepth;
    LooseUntouched(w, p, v.me.queued[id]);
    NoneDecided(fates);
    hide Safe, Loose, Fit, MakeLocalCall, SameRecord, Untouched;
    FitSame(v.me, w.me, p.sent, fates);
    LocalCallFits(w, p.sent, t, 0, v.me.queued[id], fates);
  }

  lemma QueuedId(v: View, p: Node, id: nat)
    requires Safe(v, p) && id in v.me.queued
    ensures v.me.queued[id].id == id
  {
    hide Local, EntriesOk, ChannelOk, StacksOk, AnswersOk, ReturnedOk, NothingLost;
  }

  lemma ClosureFits(v: View, p: Node, id: nat, error: nat, data: int, fates: Fates)
    requires Safe(v, p) && Enabled(v, RunClosure(id, error, data)) && Fit(v.me, p.sent, fates)
    ensures Fit(Next(v, RunClosure(id, error, data)).me, p.sent, fates + Decided(v, RunClosure(id, error, data)))
  {
    ClosureGone(v, p, id);
    ClosureEnds(v, id, error, data);
    hide Safe, Fit, Next, EndsOne, Nowhere;
    FitEnds(v.me, Next(v, RunClosure(id, error, data)).me, p.sent, fates, v.me.closures[id], Closed(error, data));
  }

  lemma ThrowFits(v: View, p: Node, t: nat, error: nat, fates: Fates)
    requires Safe(v, p) && Enabled(v, Throw(t, error)) && Fit(v.me, p.sent, fates)
    ensures Fit(Next(v, Throw(t, error)).me, p.sent, fates + Decided(v, Throw(t, error)))
  {
    var m := Top(v.me, t).m;
    HandledGenuine(v, p, t);
    ClosureGone(v, p, m.id);
    ThrowEnds(v, t, error);
    hide Safe, Fit, Next, EndsOne, Nowhere;
    FitEnds(v.me, Next(v, Throw(t, error)).me, p.sent, fates, m, Thrown(error));
  }

  lemma StepFits(v: View, p: Node, step: Step, fates: Fates)
    requires Safe(v, p) && Enabled(v, step) && Fit(v.me, p.sent, fates)
    ensures Fit(Next(v, step).me, p.sent, fates + Decided(v, step))
  {
    hide Safe, Fit, SameRecord, Dispatch;
    match step
    case Read(t, outer) => ReadFits(v, p, t, outer, fates);
    case Deliver(admit) => DeliverFits(v, p, admit, fates);
    case StartQueued(t, id) => StartFits(v, p, t, id, fates);
    case RunClosure(id, error, data) => ClosureFits(v, p, id, error, data, fates);
    case Throw(t, error) => ThrowFits(v, p, t, error, fates);
    case Begin(_, _, _, _, _, _, _) =>
      BegunRecord(v, step);
      NoneDecided(fates);
      hide Begun;
      FitSame(v.me, Next(v, step).me, p.sent, fates);
    case _ =>
      QuietRecord(v, step);
      NoneDecided(fates);
      hide Next;
      FitSame(v.me, Next(v, step).me, p.sent, fates);
  }

  // ---- every run ---------------------------------------------------------------------------

  lemma FitGrown(n: Node, sent: Messages, now: Messages, fates: Fates)
    requires Fit(n, sent, fates) && Grown(sent, now)
    ensures Fit(n, now, fates)
  {
    hide AnswersFit, StartedFit, ExecutedFit;
  }

  /** Requests once made stay as they were. */
  lemma SentStay(v: View, p: Node, step: Step)
    requires Safe(v, p) && Enabled(v, step)
    ensures Grown(v.me.sent, Next(v, step).me.sent)
  {
    StepShifts(v, step, 0);
    if step.Begin? {
      NewCall(v.me, step.t, step) by { assert Local(v.me) by { hide Local, Link; } }
      BegunShifts(v, step);
    }
    hide Safe, Next, Configure;
  }

  lemma MoveFits(s: System, m: Move, side: Side, fates: Fates)
    requires Inv(s) && Fit(At(s, side).me, PeerOf(s, side).sent, fates)
    ensures
      var t := Moved(s, m);
      Fit(At(t, side).me, PeerOf(t, side).sent, fates + DecidedBy(s, m, side))
  {
    SafeEverywhere(s, side);
    SafeEverywhere(s, Other(side));
    NoneDecided(fates);
    hide Inv, Safe, Fit, Next, Decided;
    if m.side == side {
      OwnMove(s, side, m.step);
      if Enabled(At(s, side), m.step) {
        StepFits(At(s, side), PeerOf(s, side), m.step, fates);
      }
    } else {
      PeerMove(s, side, m.step);
      if Enabled(At(s, m.side), m.step) {
        SentStay(At(s, m.side), PeerOf(s, m.side), m.step);
        FitGrown(At(s, side).me, PeerOf(s, side).sent, PeerOf(Moved(s, m), side).sent, fates);
      }
    }
  }

  lemma {:induction false} RunFits(s: System, moves: seq<Move>, side: Side, fates: Fates)
    requires Inv(s) && Fit(At(s, side).me, PeerOf(s, side).sent, fates)
    ensures
      var t := Exec(s, moves);
      Fit(At(t, side).me, PeerOf(t, side).sent, FatesOf(s, moves, side, fates))
    decreases |moves|
  {
    hide Inv, Fit, At, PeerOf, Moved, DecidedBy;
    if moves != [] {
      MovedKept(s, moves[0]);
      MoveFits(s, moves[0], side, fates);
      RunFits(Moved(s, moves[0]), moves[1..], side, fates + DecidedBy(s, moves[0], side));
    }
  }

  lemma EveryFit(clientDepth: nat, serverDepth: nat, moves: seq<Move>, side: Side)
    ensures
      var s := Exec(Start(clientDepth, serverDepth), moves);
      Fit(At(s, side).me, PeerOf(s, side).sent, FatesOf(Start(clientDepth, serverDepth), moves, side, map[]))
  {
    StartsRight(clientDepth, serverDepth);
    var s := Start(clientDepth, serverDepth);
    assert Fit(At(s, side).me, PeerOf(s, side).sent, map[]);
    hide Inv, Fit, Exec, FatesOf, Start;
    RunFits(s, moves, side, map[]);
  }

  /**
   * In every run an answer tells what became of its request: the error is that of the closure, of the exception
   * or of the refusal, and a value is there exactly if there was no error, the one the service gave. A request
   * that was started is being handled or has its fate, and a fate is answered exactly if it is to be told.
   */
  lemma AnswersTell(clientDepth: nat, serverDepth: nat, moves: seq<Move>, side: Side, k: nat)
    ensures
      var s := Exec(Start(clientDepth, serverDepth), moves);
      var n, p := At(s, side).me, PeerOf(s, side);
      var fates := FatesOf(Start(clientDepth, serverDepth), moves, side, map[]);
      && (k in n.answers ==>
            && k in fates && n.answers[k].error == ErrorOf(fates[k])
            && n.answers[k].body ==
                 (if fates[k].Closed? && fates[k].error == 0 then Response(fates[k].data) else NoBody)
            && (fates[k].ContextLost? ==> !n.answers[k].wait && !n.answers[k].accept))
      && (k in fates ==> k in p.sent && (k in n.answers <==> Told(fates[k], p.sent[k])))
      && (k in n.started <==> k in n.closures || k in fates)
      && (k in n.executed <==> k in n.closures || (k in fates && (fates[k].Closed? || fates[k].Thrown?)))
  {
    EveryFit(clientDepth, serverDepth, moves, side);
    EveryRun(clientDepth, serverDepth, moves, side);
    var n := At(Exec(Start(clientDepth, serverDepth), moves), side).me;
    assert n.closures.Keys <= n.started by {
      hide Exec, Start, Fit, Link, SentOk, FramesOk, SlotsOk, InsertionsOk, OnceOk;
    }
    hide Exec, Start, FatesOf, Safe, Inv;
  }

  /**
   * A wait that returns true returns the value the peer's service gave in its closure, without an error; so a
   * call that failed, threw or was refused never returns true.
   */
  lemma ReturnsValue(clientDepth: nat, serverDepth: nat, moves: seq<Move>, side: Side, k: nat)
    requires k in At(Exec(Start(clientDepth, serverDepth), moves), side).me.returned
    ensures
      var n := At(Exec(Start(clientDepth, serverDepth), moves), side).me;
      var fates := FatesOf(Start(clientDepth, serverDepth), moves, Other(side), map[]);
      && k in fates && fates[k].Closed? && fates[k].error == 0
      && n.returned[k].error == 0 && n.returned[k].body == Response(fates[k].data)
  {
    ReturnsOwnAnswer(clientDepth, serverDepth, moves, side, k);
    EveryFit(clientDepth, serverDepth, moves, Other(side));
    hide Exec, Start, FatesOf, FatesFit, StartedFit, ExecutedFit, AnswerTo;
  }
}
