/** The two `iface` objects of the handshake, whose fields their stage handlers update. */
module HandshakeObjects {
  import opened Handshake
  import opened Wrappers

  class ClientIface {
    const setup: Setup
    var hashMaker: Hash
    var hashChecker: Hash
    var transformer: Cipher
    var revertor: Cipher
    var stage: ClientStage
    var ready: bool
    var open: bool
    var options: int
    var outbox: seq<Outgoing>
    var inbox: seq<int>

    constructor (setup: Setup)
      ensures this.setup == setup && Value() == ClientStart()
    {
      this.setup := setup;
      hashMaker, hashChecker, transformer, revertor := HashNone, HashNone, Plain, Plain;
      stage, ready, open, options, outbox, inbox := StageHello, false, true, 0, [], [];
    }

    function Value(): Client
      reads this
    {
      Client(Layer(hashMaker, hashChecker, transformer, revertor), stage, ready, open, options, outbox, inbox)
    }

    method PopRawMessage(p: Packet) returns (data: Option<Capsule>)
      modifies this`revertor
      ensures var (layer, expected) := Pop(old(Value()).layer, p);
              data == expected && Value() == old(Value()).(layer := layer)
    {
      data := if p.hash == hashChecker && p.cipher == revertor then Some(p.capsule) else None;
      revertor := After(revertor, 1);
    }

    method SendProtoMessage(capsule: Capsule, closure: Closure)
      modifies this`outbox
      ensures outbox == old(outbox) + [Outgoing(capsule, closure)]
    {
      outbox := outbox + [Outgoing(capsule, closure)];
    }

    method HandleHello(capsule: Capsule)
      modifies this
      ensures Value() == OnHelloCall(old(Value()), setup, capsule)
    {
      if !capsule.Capsule? || !capsule.ready {
        open := false;
        return;
      }
      var init := Selection(HashCrc32, true, TransformNone, 0);
      if setup.keySet && TransformErseefor in SupportedOf(capsule.body) {
        init := init.(transform := TransformErseefor, id := setup.clientId);
      }
      hashChecker := HashCrc32;
      stage := if setup.keySet then StageSetup else StageReady;
      SendProtoMessage(Capsule(true, init), SetOptions);
    }

    method HandleSetup(salts: int, capsule: Capsule)
      modifies this
      ensures Value() == OnTransSetup(old(Value()), setup, salts, capsule)
    {
      if !capsule.Capsule? || !capsule.ready {
        open := false;
        return;
      }
      transformer := Keyed(Derived(setup.clientSecret, SaltsOf(capsule.body)), 0);
      revertor := Keyed(Derived(setup.clientSecret, salts), 0);
      stage := StageReady;
      SendProtoMessage(Capsule(true, Salts(salts)), NoClosure);
    }

    method HandleReady(capsule: Capsule)
      modifies this
      ensures Value() == OnServerReady(old(Value()), capsule)
    {
      if !capsule.Capsule? {
        open := false;
      } else if !capsule.ready {
        stage := StageError;
        open := false;
      } else {
        options := OptionsOf(capsule.body);
        ready := true;
      }
    }

    /** One message cut from the stream: `do_handshake` until ready, `ready_call` after. */
    method ProcessStage(salts: int, p: Packet)
      modifies this
      ensures Value() == ClientProcess(old(Value()), setup, salts, p)
    {
      var data := PopRawMessage(p);
      if ready {
        if data.Some? && data.value.Application? {
          inbox := inbox + [data.value.n];
        } else {
          open := false;
        }
      } else if data.None? {
        stage := StageError;
        open := false;
      } else {
        match stage
        case StageHello => HandleHello(data.value);
        case StageSetup => HandleSetup(salts, data.value);
        case StageReady => HandleReady(data.value);
        case StageError =>
      }
    }

    /** The strand packs the next queued message and runs its not-on-send closure. */
    method PackNext() returns (packet: Packet)
      requires outbox != []
      modifies this
      ensures packet == Pack(old(Value()).layer, old(outbox)[0].capsule).1
      ensures var packed := Pack(old(Value()).layer, old(outbox)[0].capsule).0;
              Value() == old(Value()).(
                layer := if old(outbox)[0].closure == SetOptions then packed.(maker := HashCrc32) else packed,
                outbox := old(outbox)[1..])
    {
      packet := Packet(hashMaker, transformer, outbox[0].capsule);
      transformer := After(transformer, 1);
      if outbox[0].closure == SetOptions {
        hashMaker := HashCrc32;
      }
      outbox := outbox[1..];
    }
  }

  class ServerIface {
    const setup: Setup
    var hashMaker: Hash
    var hashChecker: Hash
    var transformer: Cipher
    var revertor: Cipher
    var stage: ServerStage
    var ready: bool
    var open: bool
    var flagged: bool
    var reading: bool
    var clientId: int
    var selected: Option<Transform>
    var outbox: seq<Outgoing>
    var inbox: seq<int>

    constructor (setup: Setup)
      ensures this.setup == setup && Value() == ServerStart()
    {
      this.setup := setup;
      hashMaker, hashChecker, transformer, revertor := HashNone, HashNone, Plain, Plain;
      stage, ready, open, flagged, reading, clientId, selected := OnSelection, false, true, false, false, 0, None;
      outbox := [Outgoing(Capsule(true, Supported({TransformNone, TransformErseefor})), StartReading)];
      inbox := [];
    }

    function Value(): Server
      reads this
    {
      Server(Layer(hashMaker, hashChecker, transformer, revertor), stage, ready, open, flagged, reading,
             clientId, selected, outbox, inbox)
    }

    method PopRawMessage(p: Packet) returns (data: Option<Capsule>)
      modifies this`revertor
      ensures var (layer, expected) := Pop(old(Value()).layer, p);
              data == expected && Value() == old(Value()).(layer := layer)
    {
      data := if p.hash == hashChecker && p.cipher == revertor then Some(p.capsule) else None;
      revertor := After(revertor, 1);
    }

    method SendProtoMessage(capsule: Capsule, closure: Closure)
      modifies this`outbox
      ensures outbox == old(outbox) + [Outgoing(capsule, closure)]
    {
      outbox := outbox + [Outgoing(capsule, closure)];
    }

    method SetReady()
      modifies this`ready, this`outbox
      ensures Value() == SetClientReady(old(Value()), setup)
    {
      ready := true;
      SendProtoMessage(Capsule(true, Session(setup.options)), NoClosure);
    }

    method SetTransformer(salts: int, transform: Transform)
      modifies this
      ensures Value() == SetupTransformer(old(Value()), setup, salts, transform)
    {
      match transform
      case TransformNone =>
        if !setup.keyRequired(clientId) {
          SetReady();
        } else {
          SendProtoMessage(Capsule(false, NoBody), CloseClient);
        }
      case TransformErseefor =>
        revertor := Keyed(Derived(setup.serverSecret(clientId), salts), 0);
        stage := OnTransformer;
        SendProtoMessage(Capsule(true, Salts(salts)), NoClosure);
      case TransformUnknown =>
        SendProtoMessage(Capsule(false, NoBody), CloseClient);
    }

    method HandleSelection(salts: int, capsule: Capsule)
      modifies this
      ensures Value() == OnClientSelection(old(Value()), setup, salts, capsule)
    {
      hide SetupTransformer;
      if !capsule.Capsule? {
        flagged := true;
        return;
      }
      if !capsule.ready {
        return;
      }
      var cs := if capsule.body.Selection? then capsule.body else Selection(HashNone, true, TransformNone, 0);
      if !cs.known {
        flagged := true;
        return;
      }
      clientId, selected := cs.id, Some(cs.transform);
      hashChecker, hashMaker := cs.hash, cs.hash;
      SetTransformer(salts, cs.transform);
    }

    method HandleTransformer(capsule: Capsule)
      modifies this
      ensures Value() == OnClientTransformer(old(Value()), setup, capsule)
    {
      if !capsule.Capsule? {
        flagged := true;
        return;
      }
      if !capsule.ready {
        open := false;
        return;
      }
      transformer := Keyed(Derived(setup.serverSecret(clientId), SaltsOf(capsule.body)), 0);
      SetReady();
    }

    method ProcessStage(salts: int, p: Packet)
      modifies this
      ensures Value() == ServerProcess(old(Value()), setup, salts, p)
    {
      var data := PopRawMessage(p);
      if ready {
        if data.Some? && data.value.Application? {
          inbox := inbox + [data.value.n];
        } else {
          open := false;
        }
      } else if data.None? {
        flagged := true;
      } else {
        match stage
        case OnSelection => HandleSelection(salts, data.value);
        case OnTransformer => HandleTransformer(data.value);
      }
    }
  }
}
