/** What holds of calls in every run of the two nodes of `Rpc`. */
module RpcResults {
  import opened Rpc
  import opened RpcSafety
  import opened RpcSteps
  import opened Wrappers

  function PeerOf(s: System, side: Side): Node {
    At(s, Other(side)).me
  }

  lemma SafeEverywhere(s: System, side: Side)
    ensures Inv(s) ==> Safe(At(s, side), PeerOf(s, side)) && At(s, side).me.side == side
    ensures Safe(At(s, side), PeerOf(s, side)) && At(s, side).me.side == side ==> Inv(s)
  {
    hide Local, EntriesOk, ChannelOk, Keyed, StacksOk, AnswersOk, ReturnedOk, NothingLost;
  }

  lemma SideOf(v: View, p: Node)
    requires Safe(v, p)
    ensures v.me.side == Other(p.side)
  {
    hide Local, EntriesOk, ChannelOk, Keyed, StacksOk, AnswersOk, ReturnedOk, NothingLost;
  }

  lemma MovedKept(s: System, m: Move)
    requires Inv(s)
    ensures Inv(Moved(s, m))
  {
    hide Inv, Safe, Next, Enabled;
    SafeEverywhere(s, m.side);
    if Enabled(At(s, m.side), m.step) {
      StepKept(At(s, m.side), PeerOf(s, m.side), m.step);
      SideOf(At(s, m.side), PeerOf(s, m.side));
      SideOf(Next(At(s, m.side), m.step), PeerOf(s, m.side));
      SafeEverywhere(Moved(s, m), m.side);
    }
  }

  lemma {:induction false} RunKept(s: System, moves: seq<Move>)
    requires Inv(s)
    ensures Inv(Exec(s, moves))
    decreases |moves|
  {
    hide Inv, Moved;
    if moves != [] {
      MovedKept(s, moves[0]);
      RunKept(Moved(s, moves[0]), moves[1..]);
    }
  }

  /** Every state two nodes can reach from their start keeps the invariant. */
  lemma EveryRun(clientDepth: nat, serverDepth: nat, moves: seq<Move>, side: Side)
    ensures
      var s := Exec(Start(clientDepth, serverDepth), moves);
      Inv(s) && Safe(At(s, side), PeerOf(s, side)) && At(s, side).me.side == side
  {
    hide Inv, Safe, Exec;
    StartsRight(clientDepth, serverDepth);
    RunKept(Start(clientDepth, serverDepth), moves);
    SafeEverywhere(Exec(Start(clientDepth, serverDepth), moves), side);
  }

  /**
   * No cross-talk: in every run, what stands in a slot is the peer's answer to that very call, a callback
   * the peer aimed at that call, or a system error told to all.
   */
  lemma NoCrossTalk(clientDepth: nat, serverDepth: nat, moves: seq<Move>, side: Side, k: nat, i: nat)
    requires
      var n := At(Exec(Start(clientDepth, serverDepth), moves), side).me;
      k in n.slots && i < |n.slots[k]|
    ensures
      var s := Exec(Start(clientDepth, serverDepth), moves);
      var n, p := At(s, side).me, PeerOf(s, side);
      var m := n.slots[k][i];
      || (OwnType(side, m.mtype) && k in p.answers && m == p.answers[k] && k in n.sent && AnswerTo(m, n.sent[k]))
      || (m.mtype == CallbackType(Other(side)) && m.target == k && m.id in p.sent && m == p.sent[m.id])
      || (m.mtype == MessageNone && m.error != 0)
  {
    EveryRun(clientDepth, serverDepth, moves, side);
    var s := Exec(Start(clientDepth, serverDepth), moves);
    var n, p := At(s, side).me, PeerOf(s, side);
    hide Exec, Local, ChannelOk, Keyed, StacksOk, ReturnedOk, NothingLost;
    assert EntryOk(n.side, p.sent, p.answers, k, n.slots[k][i]);
  }

  /** A wait that returns true returns the peer's answer to its own request, which carries no error. */
  lemma ReturnsOwnAnswer(clientDepth: nat, serverDepth: nat, moves: seq<Move>, side: Side, k: nat)
    requires k in At(Exec(Start(clientDepth, serverDepth), moves), side).me.returned
    ensures
      var s := Exec(Start(clientDepth, serverDepth), moves);
      var n, p := At(s, side).me, PeerOf(s, side);
      && k in p.answers && n.returned[k] == p.answers[k] && n.returned[k].error == 0
      && k in n.sent && AnswerTo(n.returned[k], n.sent[k]) && n.sent[k].id == k
  {
    EveryRun(clientDepth, serverDepth, moves, side);
    var s := Exec(Start(clientDepth, serverDepth), moves);
    var n, p := At(s, side).me, PeerOf(s, side);
    hide Exec, FramesOk, SlotsOk, StagesOk, InsertionsOk, Numbered, ChannelOk, Keyed, StacksOk, EntriesOk, NothingLost;
    assert RequestOk(n.side, k, n.sent[k]);
  }

  /** The call `k` has sent its request and its caller has not left. */
  predicate Awaiting(n: Node, k: nat) {
    && k in n.places
    && n.places[k].depth < |Stack(n, n.places[k].thread)|
    && var f := Stack(n, n.places[k].thread)[n.places[k].depth];
    && f.Calling? && f.m.id == k && f.stage == Waiting
  }

  /**
   * No lost reply: once the peer has answered a call whose caller still waits, the answer is in the channel,
   * between the dispatch loop's look-up and its push, or in the caller's slot, which is there.
   */
  lemma NoLostReply(clientDepth: nat, serverDepth: nat, moves: seq<Move>, side: Side, k: nat)
    requires
      var s := Exec(Start(clientDepth, serverDepth), moves);
      Awaiting(At(s, side).me, k) && k in PeerOf(s, side).answers
    ensures
      var v := At(Exec(Start(clientDepth, serverDepth), moves), side);
      var a := PeerOf(Exec(Start(clientDepth, serverDepth), moves), side).answers[k];
      && k in v.me.slots
      && (a in v.inbox || v.me.pushing == Some(Delivery(k, a)) || a in v.me.slots[k])
  {
    EveryRun(clientDepth, serverDepth, moves, side);
    var s := Exec(Start(clientDepth, serverDepth), moves);
    var v, p := At(s, side), PeerOf(s, side);
    hide Exec, SlotsOk, InsertionsOk, SentOk, ChannelOk, Keyed, StacksOk, EntriesOk, ReturnedOk, AnswersOk;
    HeldHasSlot(v.me, k);
    var q := v.me.places[k];
    assert FrameOk(v.me.maxDepth, v.me.sent, v.me.places, v.me.slots.Keys, v.me.transmitted, q.thread, q.depth,
                   v.me.threads[q.thread][q.depth]);
    assert OnItsWay(v.inbox, v.me.pushing, v.me.slots, k, p.answers[k]);
  }

  /** A slot exists exactly while its caller has registered it and has not left. */
  lemma SlotWhileHeld(clientDepth: nat, serverDepth: nat, moves: seq<Move>, side: Side, k: nat)
    ensures
      var n := At(Exec(Start(clientDepth, serverDepth), moves), side).me;
      k in n.slots <==> Held(n.places, n.threads, k)
  {
    EveryRun(clientDepth, serverDepth, moves, side);
    var n := At(Exec(Start(clientDepth, serverDepth), moves), side).me;
    hide Exec, InsertionsOk, SentOk, Link, Held;
    if Held(n.places, n.threads, k) {
      HeldHasSlot(n, k);
    }
  }

  /** A service method runs at depth at most `max_stack_size`, however calls and callbacks nest. */
  lemma BoundedRecursion(clientDepth: nat, serverDepth: nat, moves: seq<Move>, side: Side, t: nat, d: nat)
    requires
      var n := At(Exec(Start(clientDepth, serverDepth), moves), side).me;
      d < |Stack(n, t)| && Stack(n, t)[d].Handling?
    ensures
      var n := At(Exec(Start(clientDepth, serverDepth), moves), side).me;
      d + 1 <= n.maxDepth
  {
    EveryRun(clientDepth, serverDepth, moves, side);
    var n := At(Exec(Start(clientDepth, serverDepth), moves), side).me;
    hide Exec, InsertionsOk, SentOk, Link, SlotsOk;
    assert FrameOk(n.maxDepth, n.sent, n.places, n.slots.Keys, n.transmitted, t, d, n.threads[t][d]);
  }

  /** No request is handled twice or answered twice, and every one handled or answered is one the peer made. */
  lemma OnceEach(clientDepth: nat, serverDepth: nat, moves: seq<Move>, side: Side, i: nat, j: nat)
    ensures
      var s := Exec(Start(clientDepth, serverDepth), moves);
      var n, p := At(s, side).me, PeerOf(s, side);
      && (i < |n.executed| ==> n.executed[i] in p.sent)
      && (i < j < |n.executed| ==> n.executed[i] != n.executed[j])
      && (i < |n.replied| ==> n.replied[i] in p.sent)
      && (i < j < |n.replied| ==> n.replied[i] != n.replied[j])
  {
    EveryRun(clientDepth, serverDepth, moves, side);
    hide Exec, FramesOk, SlotsOk, SentOk, InsertionsOk, EntriesOk, ChannelOk, Keyed, StacksOk, AnswersOk, ReturnedOk;
    hide NothingLost;
  }

  /** A system error is the last message in every slot there is, and changes nothing else in them. */
  lemma SystemErrorReachesAll(v: View, error: nat, k: nat)
    requires error != 0
    ensures
      var slots := Next(v, SystemError(error)).me.slots;
      (k in slots <==> k in v.me.slots)
      && (k in slots ==>
            && |slots[k]| == |v.me.slots[k]| + 1 && slots[k][..|v.me.slots[k]|] == v.me.slots[k]
            && var m := slots[k][|v.me.slots[k]|]; m.error == error && m.mtype == MessageNone)
  {
  }

  // ---- where the id wraps ------------------------------------------------------------------

  /** None of what a slot of the client may hold: no answer of its own, no callback aimed at it, no system error. */
  predicate Stranger(m: Msg) {
    !OwnType(Client, m.mtype) && m.mtype != CallbackType(Server) && m.mtype != MessageNone
  }

  /**
   * The client takes a server call with id 0 for a message to all its slots. Within 2^63 - 1 calls that is
   * the server's call number 2^63 - 50 and no other, whatever the client is waiting for.
   */
  lemma ZeroIdIsBroadcast(v: View, n: nat, admit: bool)
    requires v.me.side == Client && v.me.slots != map[] && n <= CallLimit(Client)
    requires v.inbox != [] && v.inbox[0].mtype == ServerCall && v.inbox[0].id == CallId(Server, n)
    ensures
      var slots := Dispatch(v, admit).me.slots;
      if n == 0x8000_0000_0000_0000 - 50 then
        Stranger(v.inbox[0]) && forall k | k in v.me.slots :: k in slots && slots[k] == v.me.slots[k] + [v.inbox[0]]
      else slots == v.me.slots
  {
    hide CallId;
    ServerIdZero(n);
  }

  const WAITING: nat := 103

  /** The client begins its first call and registers its slot. */
  const OPENING: seq<Move> := [Move(Client, Begin(0, Direct, true, true, false, false, 0)), Move(Client, Register(0))]

  /** The server makes a call, and the client dispatches it. */
  const ROUND: seq<Move> := [Move(Server, Begin(0, Direct, false, false, false, false, 0)), Move(Client, Deliver(true))]

  function Rounds(n: nat): seq<Move> {
    if n == 0 then [] else Rounds(n - 1) + ROUND
  }

  lemma {:induction false} ExecConcat(s: System, a: seq<Move>, b: seq<Move>)
    ensures Exec(s, a + b) == Exec(Exec(s, a), b)
    decreases |a|
  {
    if a == [] {
      assert a + b == b;
    } else {
      hide Moved;
      assert (a + b)[1..] == a[1..] + b;
      ExecConcat(Moved(s, a[0]), a[1..], b);
    }
  }

  lemma ExecOne(s: System, a: Move)
    ensures Exec(s, [a]) == Moved(s, a)
  {
    hide Moved;
    assert Exec(s, [a]) == Exec(Moved(s, a), [a][1..]);
  }

  lemma ExecTwo(s: System, a: Move, b: Move)
    ensures Exec(s, [a, b]) == Moved(Moved(s, a), b)
  {
    hide Exec, Moved;
    assert [a, b] == [a] + [b];
    ExecConcat(s, [a], [b]);
    ExecOne(s, a);
    ExecOne(Moved(s, a), b);
  }

  /** The server has made `n` calls of at most `CallLimit(Server) + 1`; the client has the slot `WAITING`. */
  predicate Flooded(s: System, n: nat) {
    && s.server.side == Server && s.server.calls == n && s.server.limit == CallLimit(Server) + 1
    && Stack(s.server, 0) == [] && s.toClient == []
    && s.client.side == Client && s.client.pushing == None && WAITING in s.client.slots
  }

  /** The server's next call. */
  function NextCall(n: nat): Msg {
    Msg(CallId(Server, n + 1), 0, ServerCall, false, false, false, 0, Request(0))
  }

  lemma ServerCalls(s: System, n: nat)
    requires Flooded(s, n) && n <= CallLimit(Server)
    ensures
      var t := Moved(s, ROUND[0]);
      && t.server.side == Server && t.server.calls == n + 1 && t.server.limit == s.server.limit
      && Stack(t.server, 0) == [] && t.toClient == [NextCall(n)] && t.client == s.client
  {
    hide CallId;
  }

  lemma ReceivedAlone(v: View, m: Msg)
    requires v.inbox == [m]
    ensures
      var w := Received(v);
      && w.inbox == [] && w.outbox == v.outbox
      && w.me.side == v.me.side && w.me.pushing == v.me.pushing && w.me.slots == v.me.slots
  {
  }

  lemma CallDelivered(v: View, n: nat)
    requires v.me.side == Client && v.me.pushing == None && v.inbox == [NextCall(n)]
    ensures
      var w, m := Dispatch(v, true), NextCall(n);
      && w.inbox == [] && w.me.side == Client && w.me.pushing == None
      && w.me.slots == (if m.id == 0 then Broadcast(v.me.slots, m) else v.me.slots)
  {
    ReceivedAlone(v, NextCall(n));
    hide CallId, Broadcast, Received, Refused;
    assert Dispatch(v, true) == ProcessCall(Received(v), NextCall(n), true);
  }

  lemma ClientDelivers(s: System, n: nat)
    requires s.client.side == Client && s.client.pushing == None && s.toClient == [NextCall(n)]
    ensures
      var t, m := Moved(s, ROUND[1]), NextCall(n);
      && t.server == s.server && t.toClient == [] && t.client.side == Client && t.client.pushing == None
      && t.client.slots == (if m.id == 0 then Broadcast(s.client.slots, m) else s.client.slots)
  {
    CallDelivered(At(s, Client), n);
    hide CallId, Broadcast, Dispatch, NextCall;
    assert Enabled(At(s, Client), Deliver(true));
    assert Next(At(s, Client), Deliver(true)) == Dispatch(At(s, Client), true);
    hide Next, Enabled;
  }

  lemma Round(s: System, n: nat)
    requires Flooded(s, n) && n <= CallLimit(Server)
    ensures Flooded(Exec(s, ROUND), n + 1)
    ensures CallId(Server, n + 1) == 0 ==>
              Exec(s, ROUND).client.slots[WAITING] == s.client.slots[WAITING] + [NextCall(n)]
  {
    hide CallId, Moved;
    assert ROUND == [ROUND[0], ROUND[1]];
    ExecTwo(s, ROUND[0], ROUND[1]);
    ServerCalls(s, n);
    ClientDelivers(Moved(s, ROUND[0]), n);
  }

  lemma {:induction false} ManyRounds(s: System, n: nat)
    requires Flooded(s, 0) && n <= CallLimit(Server) + 1
    ensures Flooded(Exec(s, Rounds(n)), n)
  {
    if n == 0 {
      assert Exec(s, []) == s;
    } else {
      hide Flooded, Exec;
      ManyRounds(s, n - 1);
      ExecConcat(s, Rounds(n - 1), ROUND);
      Round(Exec(s, Rounds(n - 1)), n - 1);
    }
  }

  lemma Opened(clientDepth: nat, serverDepth: nat)
    ensures
      Flooded(Exec(StartWith(clientDepth, serverDepth, CallLimit(Client), CallLimit(Server) + 1), OPENING), 0)
  {
    var s := StartWith(clientDepth, serverDepth, CallLimit(Client), CallLimit(Server) + 1);
    assert OPENING == [OPENING[0], OPENING[1]];
    ExecTwo(s, OPENING[0], OPENING[1]);
    var t := Moved(s, OPENING[0]);
    assert t.client.calls == 1 && Stack(t.client, 0) != [] && Top(t.client, 0).m.id == WAITING;
  }

  /** The run that makes the server's call number 2^63 - 50 while the client waits. */
  function OneTooMany(): seq<Move> {
    (OPENING + Rounds(CallLimit(Server))) + ROUND
  }

  lemma AllButOne(s: System)
    requires Flooded(Exec(s, OPENING), 0)
    ensures Flooded(Exec(s, OPENING + Rounds(CallLimit(Server))), CallLimit(Server))
  {
    hide *;
    ManyRounds(Exec(s, OPENING), CallLimit(Server));
    ExecConcat(s, OPENING, Rounds(CallLimit(Server)));
  }

  lemma LastCall()
    ensures CallId(Server, CallLimit(Server) + 1) == 0 && CallLimit(Server) + 1 <= CallLimit(Client)
    ensures Stranger(NextCall(CallLimit(Server))) && NextCall(CallLimit(Server)).error == 0
  {
    ServerIdZero(CallLimit(Server) + 1);
  }

  /**
   * The limit is sharp: if the server may make one call more, some run from the start puts a request of its
   * own into a slot of the client, which is none of the three things a slot may hold.
   */
  lemma LimitIsSharp(clientDepth: nat, serverDepth: nat)
    ensures
      var s := Exec(StartWith(clientDepth, serverDepth, CallLimit(Client), CallLimit(Server) + 1), OneTooMany());
      && WAITING in s.client.slots && s.client.slots[WAITING] != []
      && var m := s.client.slots[WAITING][|s.client.slots[WAITING]| - 1];
      Stranger(m) && m.error == 0
  {
    var s := StartWith(clientDepth, serverDepth, CallLimit(Client), CallLimit(Server) + 1);
    var t := Exec(s, OPENING + Rounds(CallLimit(Server)));
    hide *;
    Opened(clientDepth, serverDepth);
    AllButOne(s);
    LastCall();
    Round(t, CallLimit(Server));
    ExecConcat(s, OPENING + Rounds(CallLimit(Server)), ROUND);
    TheRun();
    FloodedWaits(t, CallLimit(Server));
    FloodedWaits(Exec(t, ROUND), CallLimit(Server) + 1);
    LastOfSnoc(t.client.slots[WAITING], NextCall(CallLimit(Server)));
  }

  lemma FloodedWaits(s: System, n: nat)
    requires Flooded(s, n)
    ensures WAITING in s.client.slots
  {
  }

  lemma TheRun()
    ensures OneTooMany() == (OPENING + Rounds(CallLimit(Server))) + ROUND
  {
    hide Rounds, CallLimit;
  }

  lemma LastOfSnoc(q: seq<Msg>, m: Msg)
    ensures q + [m] != [] && (q + [m])[|q + [m]| - 1] == m
  {
  }
}
