/**
 * The loops of the call layer as they are written: the dispatch loop of protocol-layer-c.cpp and
 * protocol-layer-s.cpp, and the wait loop of rpc-channel.cpp.
 */
module RpcObjects {
  import opened Rpc
  import opened RpcSafety
  import opened RpcSteps
  import opened Wrappers

  /** One turn of the dispatch loop: look up the slot, then push. */
  function Turned(v: View, admit: bool): View
    requires v.inbox != [] && v.me.pushing == None
  {
    var d := Dispatch(v, admit);
    if d.me.pushing == None then d else Next(d, Push)
  }

  /** The whole loop; `admits` says for each message whether the server's counter would let a call in. */
  function Dispatched(v: View, admits: seq<bool>): View
    requires v.me.pushing == None
    decreases |v.inbox|
  {
    if v.inbox == [] then v
    else
      DispatchShrinks(v, admits != [] && admits[0]);
      Dispatched(Turned(v, admits != [] && admits[0]), if admits == [] then [] else admits[1..])
  }

  /** The message being pushed and the messages still to come are as they were. */
  predicate SameBusiness(v: View, w: View) {
    w.me.pushing == v.me.pushing && w.inbox == v.inbox
  }

  lemma PostedSame(v: View, m: Msg)
    ensures SameBusiness(v, Posted(v, m)) && SameBusiness(v, ToAllSlots(v, m))
  {
    hide Broadcast;
  }

  lemma RefusedSame(v: View, m: Msg, error: nat)
    ensures SameBusiness(v, Refused(v, m, error))
  {
    hide Answer;
  }

  lemma NoContextSame(v: View, m: Msg)
    ensures SameBusiness(v, NoContext(v, m))
  {
    hide Answer;
  }

  lemma CallSame(v: View, m: Msg, admit: bool)
    ensures SameBusiness(v, ProcessCall(v, m, admit))
  {
    RefusedSame(v, m, ERR_BUSY);
    PostedSame(v, m);
    hide Refused, Posted, ToAllSlots;
  }

  function InSlot(v: View, slot: nat, m: Msg): View
    requires slot in v.me.slots
  {
    v.(me := v.me.(slots := v.me.slots[slot := v.me.slots[slot] + [m]]))
  }

  /** A turn without the pause between look-up and push. */
  function TurnedAtOnce(v: View, admit: bool): View
    requires v.inbox != []
  {
    var m, peer := v.inbox[0], Other(v.me.side);
    if m.mtype == DirectType(peer) then ProcessCall(Received(v), m, admit)
    else if m.mtype == CallbackType(peer) then
      if m.target in v.me.slots then InSlot(Received(v), m.target, m)
      else if m.alone then ProcessCall(Received(v), m, admit)
      else NoContext(Received(v), m)
    else if OwnType(v.me.side, m.mtype) && m.id in v.me.slots then InSlot(Popped(v), m.id, m)
    else Popped(v)
  }

  lemma AimedThenPushed(v: View, slot: nat, m: Msg)
    requires v.me.pushing == None && slot in v.me.slots
    ensures Aimed(v, slot, m).me.pushing != None && Next(Aimed(v, slot, m), Push) == InSlot(v, slot, m)
  {
    assert v.me == v.me.(pushing := None);
  }

  lemma Unchanged(v: View)
    requires v.inbox != []
    ensures Received(v).me.slots == v.me.slots == Popped(v).me.slots
    ensures Received(v).me.pushing == v.me.pushing == Popped(v).me.pushing
    ensures Received(v).inbox == v.inbox[1..] == Popped(v).inbox
  {
  }

  lemma AtOnce(v: View, admit: bool)
    requires v.inbox != [] && v.me.pushing == None
    ensures Turned(v, admit) == TurnedAtOnce(v, admit)
  {
    var m := v.inbox[0];
    Unchanged(v);
    CallSame(Received(v), m, admit);
    NoContextSame(Received(v), m);
    hide ProcessCall, NoContext, Received, Popped, Aimed, InSlot, Next, Enabled;
    if m.target in v.me.slots {
      AimedThenPushed(Received(v), m.target, m);
    }
    if m.id in v.me.slots {
      AimedThenPushed(Popped(v), m.id, m);
    }
  }

  lemma AtOnceShrinks(v: View, admit: bool)
    requires v.inbox != [] && v.me.pushing == None
    ensures TurnedAtOnce(v, admit).me.pushing == None && TurnedAtOnce(v, admit).inbox == v.inbox[1..]
  {
    var m := v.inbox[0];
    Unchanged(v);
    CallSame(Received(v), m, admit);
    NoContextSame(Received(v), m);
    InSlotSame(Received(v), m.target, m);
    InSlotSame(Popped(v), m.id, m);
    hide InSlot, ProcessCall, NoContext, Received, Popped;
  }

  lemma DispatchShrinks(v: View, admit: bool)
    requires v.inbox != [] && v.me.pushing == None
    ensures Turned(v, admit).me.pushing == None && Turned(v, admit).inbox == v.inbox[1..]
  {
    hide Turned, TurnedAtOnce;
    AtOnce(v, admit);
    AtOnceShrinks(v, admit);
  }

  lemma InSlotSame(v: View, slot: nat, m: Msg)
    ensures slot in v.me.slots ==> SameBusiness(v, InSlot(v, slot, m))
  {
  }

  lemma TurnedKept(v: View, p: Node, admit: bool)
    requires Safe(v, p) && v.inbox != [] && v.me.pushing == None
    ensures Safe(Turned(v, admit), p)
  {
    DeliverKept(v, p, admit);
    hide Safe, Dispatch;
    if Dispatch(v, admit).me.pushing != None {
      PushKept(Dispatch(v, admit), p);
    }
  }

  /** Dispatching everything that has arrived keeps what every run keeps, on both sides. */
  lemma {:induction false} DispatchedKept(v: View, p: Node, admits: seq<bool>)
    requires Safe(v, p) && v.me.pushing == None
    ensures Safe(Dispatched(v, admits), p) && Dispatched(v, admits).inbox == []
    decreases |v.inbox|
  {
    if v.inbox != [] {
      var admit := admits != [] && admits[0];
      DispatchShrinks(v, admit);
      TurnedKept(v, p, admit);
      hide Safe, Turned;
      DispatchedKept(Turned(v, admit), p, if admits == [] then [] else admits[1..]);
    }
  }

  // ---- waiting -----------------------------------------------------------------------------

  /** How a wait ends: on its answer, on an error, or not yet. */
  datatype Outcome = Answered(m: Msg) | Failed(error: nat) | StillWaiting

  /**
   * What a wait does with the messages its slot yields: those of another type are run as local calls, in
   * order, until one carries an error or the type of the request.
   */
  function Waited(mtype: MessageType, incoming: seq<Msg>): (seq<Msg>, Outcome)
    decreases |incoming|
  {
    if incoming == [] then ([], StillWaiting)
    else
      var m := incoming[0];
      if m.error != 0 then ([], Failed(m.error))
      else if m.mtype == mtype then ([], Outcome.Answered(m))
      else
        var (ran, o) := Waited(mtype, incoming[1..]);
        ([m] + ran, o)
  }

  /** A wait returns on the first message that is an error or an answer, having run all those before it. */
  lemma {:induction false} WaitedFirst(mtype: MessageType, incoming: seq<Msg>, i: nat)
    requires i < |incoming| && (incoming[i].error != 0 || incoming[i].mtype == mtype)
    requires forall k | 0 <= k < i :: incoming[k].error == 0 && incoming[k].mtype != mtype
    ensures
      Waited(mtype, incoming) ==
        (incoming[..i], if incoming[i].error != 0 then Failed(incoming[i].error) else Outcome.Answered(incoming[i]))
    decreases i
  {
    if i > 0 {
      WaitedFirst(mtype, incoming[1..], i - 1);
      assert incoming[..i] == [incoming[0]] + incoming[1..][..i - 1];
    }
  }

  /** A slot of every reachable state: what stands before the answer is run, and the answer is the call's own. */
  lemma WaitsForOwnAnswer(v: View, p: Node, k: nat)
    requires Safe(v, p) && k in v.me.slots && k in v.me.sent
    ensures
      var (ran, o) := Waited(v.me.sent[k].mtype, v.me.slots[k]);
      && (o.Answered? ==> k in p.answers && o.m == p.answers[k])
      && forall i | 0 <= i < |ran| :: ran[i].target == k && In(ran[i], p.sent)
  {
    hide Local, ChannelOk, Keyed, StacksOk, ReturnedOk, NothingLost;
    var q := v.me.slots[k];
    forall i | 0 <= i < |q| ensures EntryOk(v.me.side, p.sent, p.answers, k, q[i]) {
      assert q[i] == v.me.slots[k][i];
    }
    assert RequestOk(v.me.side, k, v.me.sent[k]) by { SentRequest(v.me, k); }
    EntriesWaited(v.me.side, p.sent, p.answers, k, v.me.sent[k], q);
  }

  lemma SentRequest(n: Node, k: nat)
    requires Local(n) && k in n.sent
    ensures RequestOk(n.side, k, n.sent[k])
  {
    hide FramesOk, SlotsOk, StagesOk, InsertionsOk, Numbered;
  }

  lemma {:induction false} EntriesWaited(side: Side, sent: Messages, answers: Messages, k: nat, request: Msg,
                                         q: seq<Msg>)
    requires RequestOk(side, k, request)
    requires forall i | 0 <= i < |q| :: EntryOk(side, sent, answers, k, q[i])
    requires k in answers ==> AnswerTo(answers[k], request)
    ensures
      var (ran, o) := Waited(request.mtype, q);
      && (o.Answered? ==> k in answers && o.m == answers[k])
      && forall i | 0 <= i < |ran| :: ran[i].target == k && In(ran[i], sent)
    decreases |q|
  {
    if q != [] {
      assert EntryOk(side, sent, answers, k, q[0]);
      forall i | 0 <= i < |q[1..]| ensures EntryOk(side, sent, answers, k, q[1..][i]) {
        assert q[1..][i] == q[i + 1];
      }
      EntriesWaited(side, sent, answers, k, request, q[1..]);
    }
  }

  // ---- the object --------------------------------------------------------------------------

  /** `protocol_layer` of either side, with the messages popped from the wire and those handed to it. */
  class ProtocolLayer {
    const side: Side
    var rpcIndex: nat
    var rpcQueue: map<nat, seq<Msg>>
    var pool: map<nat, Msg>
    var inbox: seq<Msg>
    var outbox: seq<Msg>
    ghost var rest: Node

    /** The layer's part in the two-node system. */
    ghost function Now(): View
      reads this
    {
      View(rest.(side := side, slots := rpcQueue, queued := pool), inbox, outbox)
    }

    ghost predicate Valid() reads this {
      rpcIndex == (if side == Client then 101 else 100) + 2 * rest.calls
    }

    constructor (side: Side, maxDepth: nat, limit: nat)
      ensures Valid() && Now() == View(NewNode(side, maxDepth, limit), [], [])
    {
      this.side := side;
      rpcIndex := if side == Client then 101 else 100;
      rpcQueue, pool, inbox, outbox := map[], map[], [], [];
      rest := NewNode(side, maxDepth, limit);
    }

    /** `next_index`: the counter moves by two, and the id is its value in 64 bits. */
    method NextIndex() returns (id: nat)
      requires Valid()
      modifies this
      ensures Valid() && id == CallId(side, old(rest.calls) + 1) && id == CallId(side, rest.calls)
      ensures Now() == old(Now()).(me := old(Now()).me.(calls := old(rest.calls) + 1))
    {
      rpcIndex := rpcIndex + 2;
      rest := rest.(calls := rest.calls + 1);
      id := rpcIndex % WORD;
    }

    /** `push_rpc_message`, the push that follows the look-up included; false if there is no such slot. */
    method PushRpcMessage(slot: nat, m: Msg) returns (pushed: bool)
      requires Valid()
      modifies this
      ensures Valid() && pushed == (slot in old(Now()).me.slots)
      ensures Now() == if pushed then InSlot(old(Now()), slot, m) else old(Now())
    {
      pushed := slot in rpcQueue;
      if pushed {
        rpcQueue := rpcQueue[slot := rpcQueue[slot] + [m]];
      }
    }

    /** The next message is popped; a request is noted as received. */
    method PopMessage() returns (m: Msg)
      requires Valid() && inbox != []
      modifies this
      ensures Valid() && m == old(inbox)[0]
      ensures Now() == if OwnType(Other(side), m.mtype) then Received(old(Now())) else Popped(old(Now()))
    {
      m := inbox[0];
      inbox := inbox[1..];
      if OwnType(Other(side), m.mtype) {
        rest := rest.(received := rest.received + {m.id});
      }
    }

    method ProcessCall(m: Msg, admit: bool)
      requires Valid()
      modifies this
      ensures Valid() && Now() == Rpc.ProcessCall(old(Now()), m, admit)
    {
      if side == Client && m.id == 0 {
        rpcQueue := Broadcast(rpcQueue, m);
      } else if side == Server && !admit {
        Refuse(m, ERR_BUSY);
      } else {
        pool := pool[m.id := m];
      }
    }

    /** An error answer, if the caller waits for one. */
    method Refuse(m: Msg, error: nat)
      requires Valid()
      modifies this
      ensures Valid() && Now() == Refused(old(Now()), m, error)
    {
      rest := rest.(started := rest.started + {m.id});
      if m.wait {
        var a := Answer(m, error, 0);
        outbox := outbox + [a];
        rest := rest.(answers := rest.answers[a.id := a], replied := rest.replied + [a.id]);
      }
    }

    /** The other end of `process_insertion`: the slot is gone. */
    method RefuseContext(m: Msg)
      requires Valid()
      modifies this
      ensures Valid() && Now() == NoContext(old(Now()), m)
    {
      rest := rest.(started := rest.started + {m.id});
      if m.wait {
        var a := Answer(m, ERR_CONTEXT, 0).(wait := false, accept := false);
        outbox := outbox + [a];
        rest := rest.(answers := rest.answers[a.id := a], replied := rest.replied + [a.id]);
      }
    }

    /** `on_rpc_process` and `on_rcp_call_ready`: every message that has been received is dispatched. */
    method OnRpcProcess(admits: seq<bool>)
      requires Valid() && Now().me.pushing == None
      modifies this
      ensures Valid() && Now() == Dispatched(old(Now()), admits) && inbox == []
    {
      var left := admits;
      while inbox != []
        invariant Valid() && Now().me.pushing == None
        invariant Dispatched(Now(), left) == Dispatched(old(Now()), admits)
        decreases |inbox|
      {
        var admit := left != [] && left[0];
        DispatchShrinks(Now(), admit);
        DispatchOne(admit);
        left := if left == [] then [] else left[1..];
      }
    }

    /** One message: a call, a callback, or an answer. */
    method DispatchOne(admit: bool)
      requires Valid() && inbox != [] && Now().me.pushing == None
      modifies this
      ensures Valid() && Now() == Turned(old(Now()), admit)
    {
      AtOnce(Now(), admit);
      Unchanged(Now());
      assert Now().me.side == side && Now().inbox == inbox;
      hide NoContext, Rpc.ProcessCall, Turned, Received, Popped, InSlot, Now, Valid;
      var m := PopMessage();
      if m.mtype == DirectType(Other(side)) {
        ProcessCall(m, admit);
      } else if m.mtype == CallbackType(Other(side)) {
        var pushed := PushRpcMessage(m.target, m);
        if !pushed {
          if m.alone {
            ProcessCall(m, admit);
          } else {
            RefuseContext(m);
          }
        }
      } else if OwnType(side, m.mtype) {
        var _ := PushRpcMessage(m.id, m);
      }
    }

    /** The loop of `call_and_wait` over what its slot yields; `ran` lists the local calls made meanwhile. */
    method CallAndWait(mtype: MessageType, incoming: seq<Msg>) returns (ran: seq<Msg>, o: Outcome)
      ensures (ran, o) == Waited(mtype, incoming)
    {
      ran := [];
      var wait, i := true, 0;
      o := StillWaiting;
      assert incoming[0..] == incoming && [] + Waited(mtype, incoming).0 == Waited(mtype, incoming).0;
      while wait && i < |incoming|
        invariant i <= |incoming|
        invariant wait ==> o == StillWaiting
        invariant
          var (later, end) := Waited(mtype, incoming[i..]);
          Waited(mtype, incoming) == if wait then (ran + later, end) else (ran, o)
        decreases |incoming| - i, wait
      {
        var m := incoming[i];
        assert incoming[i..][1..] == incoming[i + 1..];
        if m.error != 0 {
          assert ran + [] == ran;
          return ran, Failed(m.error);
        }
        if m.mtype != mtype {
          ghost var (later, _) := Waited(mtype, incoming[i + 1..]);
          assert ran + ([m] + later) == (ran + [m]) + later;
          ran := ran + [m];
          i := i + 1;
        } else {
          assert ran + [] == ran;
          o := Outcome.Answered(m);
          wait := false;
        }
      }
      if wait {
        assert incoming[i..] == [] && ran + [] == ran;
      }
    }
  }
}
