/**
 * What becomes of application messages across the switch from the handshake to the ready stage:
 * lib/vtrc/common/lowlevel-protocol-default.cpp:254-267 with the stage functions of both connections.
 */
module HandshakeTraffic {
  import opened Handshake
  import opened Wrappers

  /** The number an application message carries. */
  function Number(capsule: Capsule): seq<int> {
    if capsule.Application? then [capsule.n] else []
  }

  function OnTheWay(packets: seq<Packet>): seq<int> {
    if packets == [] then [] else Number(packets[0].capsule) + OnTheWay(packets[1..])
  }

  function Queued(outbox: seq<Outgoing>): seq<int> {
    if outbox == [] then [] else Number(outbox[0].capsule) + Queued(outbox[1..])
  }

  /** What the application of the client sends in a run: it may once the client is ready, while it is open. */
  function ClientSends(p: Pair, u: Setup, steps: seq<Step>): seq<int>
    decreases |steps|
  {
    if steps == [] then []
    else SentByClient(p, steps[0]) + ClientSends(Next(p, u, steps[0]), u, steps[1..])
  }

  function SentByClient(p: Pair, step: Step): seq<int> {
    if step.ClientSend? && p.client.ready && p.client.open then [step.n] else []
  }

  function ServerSends(p: Pair, u: Setup, steps: seq<Step>): seq<int>
    decreases |steps|
  {
    if steps == [] then []
    else SentByServer(p, steps[0]) + ServerSends(Next(p, u, steps[0]), u, steps[1..])
  }

  function SentByServer(p: Pair, step: Step): seq<int> {
    if step.ServerSend? && p.server.ready && p.server.open then [step.n] else []
  }

  /** Received by the server, on the way to it, and waiting in the client to be packed. */
  function ToServer(p: Pair): seq<int> {
    p.server.inbox + OnTheWay(p.toServer) + Queued(p.client.outbox)
  }

  function ToClient(p: Pair): seq<int> {
    p.client.inbox + OnTheWay(p.toClient) + Queued(p.server.outbox)
  }

  // ---- facts about the two lists -----------------------------------------------------------

  lemma {:induction false} OnTheWaySnoc(packets: seq<Packet>, packet: Packet)
    ensures OnTheWay(packets + [packet]) == OnTheWay(packets) + Number(packet.capsule)
  {
    hide Number;
    if packets == [] {
      assert [] + [packet] == [packet] && [packet][1..] == [];
    } else {
      assert (packets + [packet])[1..] == packets[1..] + [packet];
      OnTheWaySnoc(packets[1..], packet);
    }
  }

  lemma {:induction false} QueuedSnoc(outbox: seq<Outgoing>, out: Outgoing)
    ensures Queued(outbox + [out]) == Queued(outbox) + Number(out.capsule)
  {
    hide Number;
    if outbox == [] {
      assert [] + [out] == [out] && [out][1..] == [];
    } else {
      assert (outbox + [out])[1..] == outbox[1..] + [out];
      QueuedSnoc(outbox[1..], out);
    }
  }

  // ---- what arrives ------------------------------------------------------------------------

  /** What a ready side gets opens and is an application message; what it gets before is none. */
  predicate ArrivesRight(ready: bool, layer: Layer, packet: Packet) {
    if ready then packet.capsule.Application? && Pop(layer, packet).1 == Some(packet.capsule)
    else !packet.capsule.Application?
  }

  lemma ServerGets(p: Pair, u: Setup)
    requires Inv(p, u) && p.toServer != []
    ensures ArrivesRight(p.server.ready, p.server.layer, p.toServer[0])
  {
  }

  lemma ClientGets(p: Pair, u: Setup)
    requires Inv(p, u) && p.toClient != []
    ensures ArrivesRight(p.client.ready, p.client.layer, p.toClient[0])
  {
  }

  /** The handshake queues its own messages only. */
  predicate QueuesOwn(before: seq<Outgoing>, after: seq<Outgoing>) {
    || after == before
    || (after != [] && after[..|after| - 1] == before && !after[|after| - 1].capsule.Application?)
  }

  lemma OwnNotCounted(before: seq<Outgoing>, after: seq<Outgoing>)
    requires QueuesOwn(before, after)
    ensures Queued(after) == Queued(before)
  {
    if after != before {
      assert after == before + [after[|after| - 1]];
      QueuedSnoc(before, after[|after| - 1]);
      assert Queued(before) + [] == Queued(before);
    }
  }

  lemma SetupQueues(s: Server, u: Setup, salts: int, transform: Transform)
    ensures
      var n := SetupTransformer(s, u, salts, transform);
      QueuesOwn(s.outbox, n.outbox) && n.inbox == s.inbox
  {
  }

  lemma ServerStageQueues(s: Server, u: Setup, salts: int, capsule: Capsule)
    ensures
      var n := ServerStageCall(s, u, salts, capsule);
      QueuesOwn(s.outbox, n.outbox) && n.inbox == s.inbox
  {
    if s.stage == OnSelection && capsule.Capsule? && capsule.ready {
      var cs := if capsule.body.Selection? then capsule.body else Selection(HashNone, true, TransformNone, 0);
      SetupQueues(s.(clientId := cs.id, selected := Some(cs.transform),
                     layer := s.layer.(checker := cs.hash, maker := cs.hash)), u, salts, cs.transform);
    }
    hide SetupTransformer;
  }

  lemma ServerProcesses(s: Server, u: Setup, salts: int, packet: Packet)
    requires ArrivesRight(s.ready, s.layer, packet)
    ensures
      var n := ServerProcess(s, u, salts, packet);
      QueuesOwn(s.outbox, n.outbox) && n.inbox == s.inbox + Number(packet.capsule)
  {
    assert s.inbox + [] == s.inbox;
    ServerStageQueues(s.(layer := Pop(s.layer, packet).0), u, salts, packet.capsule);
    hide ServerStageCall;
  }

  lemma ClientProcesses(c: Client, u: Setup, salts: int, packet: Packet)
    requires ArrivesRight(c.ready, c.layer, packet)
    ensures
      var n := ClientProcess(c, u, salts, packet);
      QueuesOwn(c.outbox, n.outbox) && n.inbox == c.inbox + Number(packet.capsule)
  {
    assert c.inbox + [] == c.inbox;
  }

  // ---- conservation ------------------------------------------------------------------------

  lemma Regroup(a: seq<int>, b: seq<int>, c: seq<int>, d: seq<int>)
    ensures a + (b + c) + d == (a + b) + c + d && a + (b + c) + d == a + b + (c + d)
    ensures a + b + c + [] == a + b + c
  {
  }

  lemma ServerReceives(p: Pair, u: Setup, salts: int)
    requires Inv(p, u)
    ensures ToServer(Next(p, u, ServerReceive(salts))) == ToServer(p)
    ensures ToClient(Next(p, u, ServerReceive(salts))) == ToClient(p)
  {
    if p.toServer != [] && p.server.open && p.server.reading {
      var n := Next(p, u, ServerReceive(salts));
      ServerGets(p, u);
      hide Inv, ArrivesRight, Pop, Number;
      ServerProcesses(p.server, u, salts, p.toServer[0]);
      hide ServerProcess, QueuesOwn;
      OwnNotCounted(p.server.outbox, n.server.outbox);
      Regroup(p.server.inbox, Number(p.toServer[0].capsule), OnTheWay(p.toServer[1..]), Queued(p.client.outbox));
    }
  }

  lemma ClientReceives(p: Pair, u: Setup, salts: int)
    requires Inv(p, u)
    ensures ToServer(Next(p, u, ClientReceive(salts))) == ToServer(p)
    ensures ToClient(Next(p, u, ClientReceive(salts))) == ToClient(p)
  {
    if p.toClient != [] && p.client.open {
      var n := Next(p, u, ClientReceive(salts));
      ClientGets(p, u);
      hide Inv, ArrivesRight, Pop, Number;
      ClientProcesses(p.client, u, salts, p.toClient[0]);
      hide ClientProcess, QueuesOwn;
      OwnNotCounted(p.client.outbox, n.client.outbox);
      Regroup(p.client.inbox, Number(p.toClient[0].capsule), OnTheWay(p.toClient[1..]), Queued(p.server.outbox));
    }
  }

  lemma Packs(p: Pair, u: Setup)
    ensures ToServer(Next(p, u, ClientPack)) == ToServer(p) && ToClient(Next(p, u, ClientPack)) == ToClient(p)
    ensures ToServer(Next(p, u, ServerPack)) == ToServer(p) && ToClient(Next(p, u, ServerPack)) == ToClient(p)
  {
    hide Number;
    if p.client.outbox != [] {
      var out := p.client.outbox[0];
      OnTheWaySnoc(p.toServer, Pack(p.client.layer, out.capsule).1);
      Regroup(p.server.inbox, OnTheWay(p.toServer), Number(out.capsule), Queued(p.client.outbox[1..]));
    }
    if p.server.outbox != [] {
      var out := p.server.outbox[0];
      OnTheWaySnoc(p.toClient, Pack(p.server.layer, out.capsule).1);
      Regroup(p.client.inbox, OnTheWay(p.toClient), Number(out.capsule), Queued(p.server.outbox[1..]));
    }
  }

  lemma Sends(p: Pair, u: Setup, n: int)
    ensures ToServer(Next(p, u, ClientSend(n))) == ToServer(p) + SentByClient(p, ClientSend(n))
    ensures ToClient(Next(p, u, ServerSend(n))) == ToClient(p) + SentByServer(p, ServerSend(n))
  {
    QueuedSnoc(p.client.outbox, Outgoing(Application(n), NoClosure));
    QueuedSnoc(p.server.outbox, Outgoing(Application(n), NoClosure));
    Regroup(p.server.inbox, OnTheWay(p.toServer), Queued(p.client.outbox), [n]);
    Regroup(p.client.inbox, OnTheWay(p.toClient), Queued(p.server.outbox), [n]);
    Regroup(p.server.inbox, OnTheWay(p.toServer), Queued(p.client.outbox), []);
    Regroup(p.client.inbox, OnTheWay(p.toClient), Queued(p.server.outbox), []);
  }

  lemma StepConserves(p: Pair, u: Setup, step: Step)
    requires Inv(p, u)
    ensures ToServer(Next(p, u, step)) == ToServer(p) + SentByClient(p, step)
    ensures ToClient(Next(p, u, step)) == ToClient(p) + SentByServer(p, step)
  {
    hide Inv;
    assert ToServer(p) + [] == ToServer(p) && ToClient(p) + [] == ToClient(p);
    match step
    case ClientPack => Packs(p, u); hide Next, ToServer, ToClient;
    case ServerPack => Packs(p, u); hide Next, ToServer, ToClient;
    case ServerSent =>
    case ServerClosed =>
    case ClientReceive(salts) => ClientReceives(p, u, salts); hide Next, ToServer, ToClient;
    case ServerReceive(salts) => ServerReceives(p, u, salts); hide Next, ToServer, ToClient;
    case ClientSend(n) => Sends(p, u, n);
    case ServerSend(n) => Sends(p, u, n);
  }

  lemma {:induction false} RunConserves(p: Pair, u: Setup, steps: seq<Step>)
    requires Inv(p, u)
    ensures ToServer(Exec(p, u, steps)) == ToServer(p) + ClientSends(p, u, steps)
    ensures ToClient(Exec(p, u, steps)) == ToClient(p) + ServerSends(p, u, steps)
    decreases |steps|
  {
    hide Inv, Next, ToServer, ToClient, SentByClient, SentByServer;
    if steps == [] {
      assert ToServer(p) + [] == ToServer(p) && ToClient(p) + [] == ToClient(p);
    } else {
      var n := Next(p, u, steps[0]);
      StepConserves(p, u, steps[0]);
      Kept(p, u, steps[0]);
      RunConserves(n, u, steps[1..]);
      Regroup(ToServer(p), SentByClient(p, steps[0]), ClientSends(n, u, steps[1..]), []);
      Regroup(ToClient(p), SentByServer(p, steps[0]), ServerSends(n, u, steps[1..]), []);
    }
  }

  /**
   * Nothing sent by either application is lost, doubled or reordered across the switch to the ready stage: in
   * every reachable state what its peer has received, then what is on the way, then what waits to be packed, are
   * exactly the messages sent, in order.
   */
  lemma Conserved(u: Setup, steps: seq<Step>)
    ensures
      var p := Exec(Start(), u, steps);
      && p.server.inbox + OnTheWay(p.toServer) + Queued(p.client.outbox) == ClientSends(Start(), u, steps)
      && p.client.inbox + OnTheWay(p.toClient) + Queued(p.server.outbox) == ServerSends(Start(), u, steps)
  {
    InvAlways(u, []);
    assert Exec(Start(), u, []) == Start();
    RunConserves(Start(), u, steps);
    assert ToServer(Start()) == [] && ToClient(Start()) == [];
    hide Exec, ClientSends, ServerSends, Inv;
    assert [] + ClientSends(Start(), u, steps) == ClientSends(Start(), u, steps);
    assert [] + ServerSends(Start(), u, steps) == ServerSends(Start(), u, steps);
  }

  // ---- packets that are not the peer's -----------------------------------------------------

  /** The packet does not open for this reader, or holds no message of the kind its stage takes. */
  predicate Foreign(ready: bool, layer: Layer, packet: Packet) {
    var data := Pop(layer, packet).1;
    data.None? || (if ready then !data.value.Application? else !data.value.Capsule?)
  }

  lemma ForeignCloses(c: Client, u: Setup, salts: int, packet: Packet)
    requires Foreign(c.ready, c.layer, packet) && c.stage != StageError
    ensures
      var n := ClientProcess(c, u, salts, packet);
      !n.open && n.ready == c.ready && n.inbox == c.inbox && n.outbox == c.outbox
  {
  }

  lemma {:induction false} ClosedClientStays(p: Pair, u: Setup, steps: seq<Step>)
    requires !p.client.open
    ensures
      var n := Exec(p, u, steps);
      !n.client.open && n.client.ready == p.client.ready && n.client.inbox == p.client.inbox
    decreases |steps|
  {
    if steps != [] {
      ClosedClientStep(p, u, steps[0]);
      hide Next;
      ClosedClientStays(Next(p, u, steps[0]), u, steps[1..]);
    }
  }

  lemma ClosedClientStep(p: Pair, u: Setup, step: Step)
    requires !p.client.open
    ensures Next(p, u, step).client == p.client
  {
    hide ServerProcess;
  }

  /**
   * Whatever comes in: a client closes on a packet that is not its peer's, and from then on never becomes ready
   * and hands nothing more to its application.
   */
  lemma ForeignEnds(p: Pair, u: Setup, salts: int, steps: seq<Step>)
    requires p.toClient != [] && p.client.open && p.client.stage != StageError
    requires Foreign(p.client.ready, p.client.layer, p.toClient[0])
    ensures
      var n := Exec(Next(p, u, ClientReceive(salts)), u, steps);
      !n.client.open && n.client.ready == p.client.ready && n.client.inbox == p.client.inbox
  {
    ForeignCloses(p.client, u, salts, p.toClient[0]);
    var q := Next(p, u, ClientReceive(salts));
    assert q.client == ClientProcess(p.client, u, salts, p.toClient[0]);
    hide Next, ClientProcess, Exec, Foreign;
    ClosedClientStays(q, u, steps);
  }

  /**
   * A ready server closes too; one that is not ready hands nothing on, answers nothing and stays open, as its
   * accessor's `close` only sets a flag.
   */
  lemma ForeignAtServer(s: Server, u: Setup, salts: int, packet: Packet)
    requires Foreign(s.ready, s.layer, packet)
    ensures
      var n := ServerProcess(s, u, salts, packet);
      && n.ready == s.ready && n.inbox == s.inbox && n.outbox == s.outbox
      && (if s.ready then !n.open else n.flagged && n.open == s.open)
  {
  }
}
