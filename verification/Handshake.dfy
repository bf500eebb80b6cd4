/**
 * The handshake of lib/vtrc/client/connection-default.cpp and lib/vtrc/server/connection/default.cpp
 * as two state machines joined by two channels. Hashes, keys and ciphers are symbols: a packet opens
 * exactly when its hash and its cipher, with its position in the cipher stream, are the reader's.
 */
module Handshake {
  import opened Wrappers

  datatype Hash = HashNone | HashCrc32 | HashSha256

  /** `create_key(secret, salts)`. */
  datatype Key = Derived(secret: int, salts: int)

  /** A transformer: none, or the keyed cipher after some messages. */
  datatype Cipher = Plain | Keyed(key: Key, used: nat)

  function After(c: Cipher, n: nat): Cipher {
    match c
    case Plain => Plain
    case Keyed(key, used) => Keyed(key, used + n)
  }

  datatype Transform = TransformNone | TransformErseefor | TransformUnknown

  /** `init_capsule`, with its body already told apart; a ready application message; or octets that do not parse. */
  datatype Capsule = Capsule(ready: bool, body: Body) | Application(n: int) | Garbage

  datatype Body =
    | NoBody
    | Supported(transforms: set<Transform>)
    | Selection(hash: Hash, known: bool, transform: Transform, id: int)
    | Salts(salts: int)
    | Session(options: int)

  // A body read as another message gives that message's defaults.

  function SupportedOf(b: Body): set<Transform> {
    if b.Supported? then b.transforms else {}
  }

  function SaltsOf(b: Body): int {
    if b.Salts? then b.salts else 0
  }

  function OptionsOf(b: Body): int {
    if b.Session? then b.options else 0
  }

  /** A message as it is queued for the strand: not packed yet, with its closure. */
  datatype Outgoing = Outgoing(capsule: Capsule, closure: Closure)

  datatype Closure = NoClosure | SetOptions | StartReading | CloseClient

  datatype Packet = Packet(hash: Hash, cipher: Cipher, capsule: Capsule)

  /** The settings the two sides and the application bring to a connection. */
  datatype Setup = Setup(keySet: bool, clientSecret: int, clientId: int,
                         serverSecret: int -> int, keyRequired: int -> bool, options: int)

  // ---- the low-level layer both sides share ------------------------------------------------

  datatype Layer = Layer(maker: Hash, checker: Hash, transformer: Cipher, revertor: Cipher)

  const FRESH: Layer := Layer(HashNone, HashNone, Plain, Plain)

  function Pack(l: Layer, capsule: Capsule): (Layer, Packet) {
    (l.(transformer := After(l.transformer, 1)), Packet(l.maker, l.transformer, capsule))
  }

  /** The revertor moves on whether or not the packet opens. */
  function Pop(l: Layer, p: Packet): (Layer, Option<Capsule>) {
    (l.(revertor := After(l.revertor, 1)),
     if p.hash == l.checker && p.cipher == l.revertor then Some(p.capsule) else None)
  }

  // ---- the client --------------------------------------------------------------------------

  datatype ClientStage = StageHello | StageSetup | StageError | StageReady

  datatype Client = Client(layer: Layer, stage: ClientStage, ready: bool, open: bool, options: int,
                           outbox: seq<Outgoing>, inbox: seq<int>)

  function ClientStart(): Client {
    Client(FRESH, StageHello, false, true, 0, [], [])
  }

  function OnHelloCall(c: Client, u: Setup, capsule: Capsule): Client {
    if !capsule.Capsule? || !capsule.ready then c.(open := false)
    else
      var transform := if u.keySet && TransformErseefor in SupportedOf(capsule.body)
                       then TransformErseefor else TransformNone;
      var id := if transform == TransformErseefor then u.clientId else 0;
      c.(layer := c.layer.(checker := HashCrc32),
         stage := if u.keySet then StageSetup else StageReady,
         outbox := c.outbox + [Outgoing(Capsule(true, Selection(HashCrc32, true, transform, id)), SetOptions)])
  }

  function OnTransSetup(c: Client, u: Setup, salts: int, capsule: Capsule): Client {
    if !capsule.Capsule? || !capsule.ready then c.(open := false)
    else
      c.(layer := c.layer.(transformer := Keyed(Derived(u.clientSecret, SaltsOf(capsule.body)), 0),
                           revertor := Keyed(Derived(u.clientSecret, salts), 0)),
         stage := StageReady,
         outbox := c.outbox + [Outgoing(Capsule(true, Salts(salts)), NoClosure)])
  }

  function OnServerReady(c: Client, capsule: Capsule): Client {
    if !capsule.Capsule? then c.(open := false)
    else if !capsule.ready then c.(stage := StageError, open := false)
    else c.(options := OptionsOf(capsule.body), ready := true)
  }

  function ClientStageCall(c: Client, u: Setup, salts: int, capsule: Capsule): Client {
    match c.stage
    case StageHello => OnHelloCall(c, u, capsule)
    case StageSetup => OnTransSetup(c, u, salts, capsule)
    case StageReady => OnServerReady(c, capsule)
    case StageError => c
  }

  /** One message processed: by the handshake until the client is ready, then by the application. */
  function ClientProcess(c: Client, u: Setup, salts: int, p: Packet): Client {
    var (layer, data) := Pop(c.layer, p);
    var d := c.(layer := layer);
    if c.ready then
      if data.Some? && data.value.Application? then d.(inbox := d.inbox + [data.value.n]) else d.(open := false)
    else if data.None? then d.(stage := StageError, open := false)
    else ClientStageCall(d, u, salts, data.value)
  }

  // ---- the server --------------------------------------------------------------------------

  datatype ServerStage = OnSelection | OnTransformer

  /** The server's accessor `close` only sets a flag; the connection itself stays open. */
  datatype Server = Server(layer: Layer, stage: ServerStage, ready: bool, open: bool, flagged: bool, reading: bool,
                           clientId: int, selected: Option<Transform>,
                           outbox: seq<Outgoing>, inbox: seq<int>)

  function ServerStart(): Server {
    Server(FRESH, OnSelection, false, true, false, false, 0, None,
           [Outgoing(Capsule(true, Supported({TransformNone, TransformErseefor})), StartReading)], [])
  }

  function SetClientReady(s: Server, u: Setup): Server {
    s.(ready := true, outbox := s.outbox + [Outgoing(Capsule(true, Session(u.options)), NoClosure)])
  }

  function Refuse(s: Server): Server {
    s.(outbox := s.outbox + [Outgoing(Capsule(false, NoBody), CloseClient)])
  }

  function SetupTransformer(s: Server, u: Setup, salts: int, transform: Transform): Server {
    match transform
    case TransformNone => if u.keyRequired(s.clientId) then Refuse(s) else SetClientReady(s, u)
    case TransformErseefor =>
      s.(layer := s.layer.(revertor := Keyed(Derived(u.serverSecret(s.clientId), salts), 0)),
         stage := OnTransformer,
         outbox := s.outbox + [Outgoing(Capsule(true, Salts(salts)), NoClosure)])
    case TransformUnknown => Refuse(s)
  }

  function OnClientSelection(s: Server, u: Setup, salts: int, capsule: Capsule): Server {
    if !capsule.Capsule? then s.(flagged := true)
    else if !capsule.ready then s
    else
      var cs := if capsule.body.Selection? then capsule.body else Selection(HashNone, true, TransformNone, 0);
      if !cs.known then s.(flagged := true)
      else
        SetupTransformer(s.(clientId := cs.id, selected := Some(cs.transform),
                            layer := s.layer.(checker := cs.hash, maker := cs.hash)),
                         u, salts, cs.transform)
  }

  function OnClientTransformer(s: Server, u: Setup, capsule: Capsule): Server {
    if !capsule.Capsule? then s.(flagged := true)
    else if !capsule.ready then s.(open := false)
    else
      SetClientReady(
        s.(layer := s.layer.(transformer := Keyed(Derived(u.serverSecret(s.clientId), SaltsOf(capsule.body)), 0))), u)
  }

  function ServerStageCall(s: Server, u: Setup, salts: int, capsule: Capsule): Server {
    match s.stage
    case OnSelection => OnClientSelection(s, u, salts, capsule)
    case OnTransformer => OnClientTransformer(s, u, capsule)
  }

  function ServerProcess(s: Server, u: Setup, salts: int, p: Packet): Server {
    var (layer, data) := Pop(s.layer, p);
    var d := s.(layer := layer);
    if s.ready then
      if data.Some? && data.value.Application? then d.(inbox := d.inbox + [data.value.n]) else d.(open := false)
    else if data.None? then d.(flagged := true)
    else ServerStageCall(d, u, salts, data.value)
  }

  // ---- the pair ----------------------------------------------------------------------------

  datatype Pair = Pair(client: Client, server: Server, toServer: seq<Packet>, toClient: seq<Packet>)

  function Start(): Pair {
    Pair(ClientStart(), ServerStart(), [], [])
  }

  /** `salts` are the random blocks a side would generate in this step. */
  datatype Step =
    | ClientPack
    | ServerPack
    | ServerSent
    | ServerClosed
    | ClientReceive(salts: int)
    | ServerReceive(salts: int)
    | ClientSend(n: int)
    | ServerSend(n: int)

  /** A step that cannot happen leaves the pair as it is. */
  function Next(p: Pair, u: Setup, step: Step): Pair {
    match step
    case ClientPack =>
      if p.client.outbox == [] || !p.client.open then p
      else
        var out := p.client.outbox[0];
        var (layer, packet) := Pack(p.client.layer, out.capsule);
        // the not-on-send closure runs right after its own message is packed
        var after := if out.closure == SetOptions then layer.(maker := HashCrc32) else layer;
        p.(client := p.client.(layer := after, outbox := p.client.outbox[1..]), toServer := p.toServer + [packet])
    case ServerPack =>
      if p.server.outbox == [] || !p.server.open then p
      else
        var out := p.server.outbox[0];
        var (layer, packet) := Pack(p.server.layer, out.capsule);
        p.(server := p.server.(layer := layer, outbox := p.server.outbox[1..]), toClient := p.toClient + [packet])
    case ServerSent =>
      // the hello was sent in full: its closure starts the reading, which is some time after it was packed
      if !p.server.open || p.server.outbox != [] then p else p.(server := p.server.(reading := true))
    case ServerClosed =>
      // close_client, once the refusal was sent
      if !p.server.open || p.server.outbox != [] || !Refused(p) then p
      else p.(server := p.server.(ready := false, open := false))
    case ClientReceive(salts) =>
      if p.toClient == [] || !p.client.open then p
      else p.(client := ClientProcess(p.client, u, salts, p.toClient[0]), toClient := p.toClient[1..])
    case ServerReceive(salts) =>
      if p.toServer == [] || !p.server.open || !p.server.reading then p
      else p.(server := ServerProcess(p.server, u, salts, p.toServer[0]), toServer := p.toServer[1..])
    case ClientSend(n) =>
      if !p.client.ready || !p.client.open then p
      else p.(client := p.client.(outbox := p.client.outbox + [Outgoing(Application(n), NoClosure)]))
    case ServerSend(n) =>
      if !p.server.ready || !p.server.open then p
      else p.(server := p.server.(outbox := p.server.outbox + [Outgoing(Application(n), NoClosure)]))
  }

  /** The server queued a refusal, whose sending closes the connection. */
  predicate Refused(p: Pair) {
    !p.server.ready && p.server.stage == OnSelection && p.server.selected.Some?
  }

  function Exec(p: Pair, u: Setup, steps: seq<Step>): Pair
    decreases |steps|
  {
    if steps == [] then p else Exec(Next(p, u, steps[0]), u, steps[1..])
  }

  // ---- agreement ---------------------------------------------------------------------------

  /** Every packet on the way was packed with the hash and the cipher its reader will have when it gets there. */
  ghost predicate Opens(packets: seq<Packet>, reader: Layer) {
    forall i :: 0 <= i < |packets| ==>
      packets[i].hash == reader.checker && packets[i].cipher == After(reader.revertor, i)
  }

  /** What the writer packs next will open after everything already on the way. */
  ghost predicate Matches(writer: Layer, packets: seq<Packet>, reader: Layer) {
    writer.maker == reader.checker && writer.transformer == After(reader.revertor, |packets|)
  }

  ghost predicate OnlyApplication(packets: seq<Packet>, outbox: seq<Outgoing>) {
    && (forall i :: 0 <= i < |packets| ==> packets[i].capsule.Application?)
    && (forall i :: 0 <= i < |outbox| ==> outbox[i].capsule.Application? && outbox[i].closure == NoClosure)
  }

  ghost predicate Quiet(packets: seq<Packet>, outbox: seq<Outgoing>) {
    packets == [] && outbox == []
  }

  /** Exactly one message is on the way or about to be packed. */
  ghost predicate One(packets: seq<Packet>, outbox: seq<Outgoing>, capsule: Capsule, closure: Closure) {
    || (packets == [] && outbox == [Outgoing(capsule, closure)])
    || (|packets| == 1 && packets[0].capsule == capsule && outbox == [])
  }

  ghost predicate EqualKeys(u: Setup) {
    u.serverSecret(u.clientId) == u.clientSecret
  }

  function Id(u: Setup): int {
    if u.keySet then u.clientId else 0
  }

  function Chosen(u: Setup): Transform {
    if u.keySet then TransformErseefor else TransformNone
  }

  function Keyed0(secret: int, salts: int): Cipher {
    Keyed(Derived(secret, salts), 0)
  }

  // The phases a handshake goes through.

  ghost predicate HelloPhase(p: Pair, u: Setup) {
    var c, s := p.client, p.server;
    && c == ClientStart()
    && s.layer == FRESH && s.stage == OnSelection && !s.ready && s.open && s.selected == None && s.inbox == []
    && Quiet(p.toServer, c.outbox)
    && One(p.toClient, s.outbox, Capsule(true, Supported({TransformNone, TransformErseefor})), StartReading)
    && (s.reading ==> s.outbox == [])
    && Opens(p.toClient, c.layer)
  }

  ghost predicate SelectionPhase(p: Pair, u: Setup) {
    var c, s := p.client, p.server;
    && c.open && !c.ready && c.inbox == [] && c.stage == (if u.keySet then StageSetup else StageReady)
    && c.layer == Layer(if c.outbox == [] then HashCrc32 else HashNone, HashCrc32, Plain, Plain)
    && s.layer == FRESH && s.stage == OnSelection && !s.ready && s.open && s.selected == None && s.inbox == []
    && Quiet(p.toClient, s.outbox)
    && One(p.toServer, c.outbox, Capsule(true, Selection(HashCrc32, true, Chosen(u), Id(u))), SetOptions)
    && Opens(p.toServer, s.layer)
  }

  /** The server's side of every phase after the selection. */
  ghost predicate Selected(p: Pair, u: Setup) {
    && p.client.layer.maker == p.client.layer.checker == HashCrc32
    && p.server.layer.maker == p.server.layer.checker == HashCrc32
    && p.server.clientId == Id(u) && p.server.selected == Some(Chosen(u)) && p.server.reading
  }

  ghost predicate SetupPhase(p: Pair, u: Setup) {
    var c, s := p.client, p.server;
    && Selected(p, u) && u.keySet
    && c.open && !c.ready && c.inbox == [] && c.stage == StageSetup
    && c.layer.transformer == Plain && c.layer.revertor == Plain
    && s.open && !s.ready && s.inbox == [] && s.stage == OnTransformer && s.layer.transformer == Plain
    && s.layer.revertor.Keyed? && s.layer.revertor.key.secret == u.serverSecret(u.clientId)
    && s.layer.revertor.used == 0
    && Quiet(p.toServer, c.outbox)
    && One(p.toClient, s.outbox, Capsule(true, Salts(s.layer.revertor.key.salts)), NoClosure)
    && Opens(p.toClient, c.layer)
  }

  ghost predicate ReplyPhase(p: Pair, u: Setup) {
    var c, s := p.client, p.server;
    && Selected(p, u) && u.keySet
    && c.open && !c.ready && c.inbox == [] && c.stage == StageReady
    && s.open && !s.ready && s.inbox == [] && s.stage == OnTransformer && s.layer.transformer == Plain
    && s.layer.revertor.Keyed? && s.layer.revertor.key.secret == u.serverSecret(u.clientId)
    && s.layer.revertor.used == 0
    && c.layer.revertor.Keyed? && c.layer.revertor.key.secret == u.clientSecret && c.layer.revertor.used == 0
    && c.layer.transformer == Keyed(Derived(u.clientSecret, s.layer.revertor.key.salts), |p.toServer|)
    && Quiet(p.toClient, s.outbox)
    && One(p.toServer, c.outbox, Capsule(true, Salts(c.layer.revertor.key.salts)), NoClosure)
    && (forall i :: 0 <= i < |p.toServer| ==>
          p.toServer[i].hash == HashCrc32 && p.toServer[i].cipher == Keyed0(u.clientSecret, s.layer.revertor.key.salts))
  }

  /** The server is ready; its last handshake message, then anything the application sends, is on the way. */
  ghost predicate ServerReadyPhase(p: Pair, u: Setup) {
    var c, s := p.client, p.server;
    && Selected(p, u)
    && c.open && !c.ready && c.inbox == [] && c.stage == StageReady
    && s.open && s.ready && s.inbox == []
    && Quiet(p.toServer, c.outbox)
    && Opens(p.toClient, c.layer) && Matches(s.layer, p.toClient, c.layer)
    && Matches(c.layer, p.toServer, s.layer)
    && (if p.toClient != [] then
          p.toClient[0].capsule == Capsule(true, Session(u.options)) && OnlyApplication(p.toClient[1..], s.outbox)
        else
          s.outbox != [] && s.outbox[0] == Outgoing(Capsule(true, Session(u.options)), NoClosure)
          && OnlyApplication([], s.outbox[1..]))
  }

  ghost predicate RefusedPhase(p: Pair, u: Setup) {
    var c, s := p.client, p.server;
    && Selected(p, u) && !u.keySet && u.keyRequired(0)
    && !c.ready && c.inbox == [] && (c.open ==> c.stage == StageReady)
    && !s.ready && s.inbox == [] && s.stage == OnSelection && (s.outbox != [] ==> s.open)
    && p.client.layer.transformer == Plain && p.client.layer.revertor == Plain
    && p.server.layer.transformer == Plain && p.server.layer.revertor == Plain
    && Quiet(p.toServer, c.outbox)
    && (if c.open then One(p.toClient, s.outbox, Capsule(false, NoBody), CloseClient) else Quiet(p.toClient, s.outbox))
    && Opens(p.toClient, c.layer)
  }

  /** Both sides are ready and exchange application messages. */
  ghost predicate ReadyPhase(p: Pair, u: Setup) {
    var c, s := p.client, p.server;
    && Selected(p, u)
    && c.ready && c.open && c.options == u.options && s.ready && s.open
    && Opens(p.toClient, c.layer) && Matches(s.layer, p.toClient, c.layer) && OnlyApplication(p.toClient, s.outbox)
    && Opens(p.toServer, s.layer) && Matches(c.layer, p.toServer, s.layer) && OnlyApplication(p.toServer, c.outbox)
  }

  /** The server could not open the client's reply, because the session keys differ; both now wait, for nothing. */
  ghost predicate BadKeyPhase(p: Pair, u: Setup) {
    && u.keySet && !EqualKeys(u)
    && !p.client.ready && !p.server.ready && p.server.stage == OnTransformer
    && p.client.open && p.server.open && p.server.flagged && p.server.reading
    && Quiet(p.toClient, p.server.outbox) && Quiet(p.toServer, p.client.outbox)
  }

  /** The requirement the application placed on the client's identity is met. */
  ghost predicate Allowed(u: Setup) {
    u.keySet || !u.keyRequired(0)
  }

  ghost predicate Inv(p: Pair, u: Setup) {
    || HelloPhase(p, u)
    || SelectionPhase(p, u)
    || SetupPhase(p, u)
    || ReplyPhase(p, u)
    || (ServerReadyPhase(p, u) && Allowed(u) && (u.keySet ==> EqualKeys(u)))
    || RefusedPhase(p, u)
    || (ReadyPhase(p, u) && Allowed(u) && (u.keySet ==> EqualKeys(u)))
    || BadKeyPhase(p, u)
  }

  // ---- every step keeps the phases ---------------------------------------------------------

  lemma HelloKept(p: Pair, u: Setup, step: Step)
    requires HelloPhase(p, u)
    ensures var n := Next(p, u, step); HelloPhase(n, u) || SelectionPhase(n, u)
  {
  }

  lemma SelectionKept(p: Pair, u: Setup, step: Step)
    requires SelectionPhase(p, u)
    ensures Inv(Next(p, u, step), u)
  {
  }

  lemma SetupKept(p: Pair, u: Setup, step: Step)
    requires SetupPhase(p, u)
    ensures var n := Next(p, u, step); SetupPhase(n, u) || ReplyPhase(n, u)
  {
  }

  lemma ReplyKept(p: Pair, u: Setup, step: Step)
    requires ReplyPhase(p, u)
    ensures Inv(Next(p, u, step), u)
  {
  }

  lemma ServerReadyKept(p: Pair, u: Setup, step: Step)
    requires ServerReadyPhase(p, u)
    ensures var n := Next(p, u, step); ServerReadyPhase(n, u) || ReadyPhase(n, u)
  {
  }

  lemma RefusedKept(p: Pair, u: Setup, step: Step)
    requires RefusedPhase(p, u)
    ensures RefusedPhase(Next(p, u, step), u)
  {
  }

  /** Popping a packet that opens moves the reader in step with what is still on the way. */
  lemma PopMoves(writer: Layer, packets: seq<Packet>, reader: Layer)
    requires packets != [] && Opens(packets, reader) && Matches(writer, packets, reader)
    ensures var (next, data) := Pop(reader, packets[0]);
            data == Some(packets[0].capsule)
            && Opens(packets[1..], next) && Matches(writer, packets[1..], next)
            && next.maker == reader.maker && next.checker == reader.checker && next.transformer == reader.transformer
  {
    assert packets[0].cipher == After(reader.revertor, 0) == reader.revertor;
  }

  lemma PackMoves(writer: Layer, packets: seq<Packet>, reader: Layer, capsule: Capsule)
    requires Opens(packets, reader) && Matches(writer, packets, reader)
    ensures var (next, packet) := Pack(writer, capsule);
            Opens(packets + [packet], reader) && Matches(next, packets + [packet], reader)
            && next.maker == writer.maker && next.checker == writer.checker && next.revertor == writer.revertor
            && packet.capsule == capsule
  {
  }

  lemma ReadyKept(p: Pair, u: Setup, step: Step)
    requires ReadyPhase(p, u)
    ensures ReadyPhase(Next(p, u, step), u)
  {
    hide Opens, Matches, Pop, Pack;
    var c, s := p.client, p.server;
    match step
    case ClientPack =>
      if c.outbox != [] {
        PackMoves(c.layer, p.toServer, s.layer, c.outbox[0].capsule);
        ReaderSide(s.layer, p.toClient, c.layer, Pack(c.layer, c.outbox[0].capsule).0);
      }
    case ServerPack =>
      if s.outbox != [] {
        PackMoves(s.layer, p.toClient, c.layer, s.outbox[0].capsule);
        ReaderSide(c.layer, p.toServer, s.layer, Pack(s.layer, s.outbox[0].capsule).0);
      }
    case ServerSent =>
    case ServerClosed =>
    case ClientReceive(salts) =>
      if p.toClient != [] {
        PopMoves(s.layer, p.toClient, c.layer);
        WriterSide(c.layer, p.toServer, s.layer, Pop(c.layer, p.toClient[0]).0);
      }
    case ServerReceive(salts) =>
      if p.toServer != [] {
        PopMoves(c.layer, p.toServer, s.layer);
        WriterSide(s.layer, p.toClient, c.layer, Pop(s.layer, p.toServer[0]).0);
      }
    case ClientSend(n) =>
    case ServerSend(n) =>
  }

  /** Packing leaves the same side's reading half alone, and popping its writing half. */
  lemma ReaderSide(writer: Layer, packets: seq<Packet>, reader: Layer, next: Layer)
    requires Opens(packets, reader) && Matches(writer, packets, reader)
    requires next.checker == reader.checker && next.revertor == reader.revertor
    ensures Opens(packets, next) && Matches(writer, packets, next)
  {
  }

  lemma WriterSide(writer: Layer, packets: seq<Packet>, reader: Layer, next: Layer)
    requires Opens(packets, reader) && Matches(writer, packets, reader)
    requires next.maker == writer.maker && next.transformer == writer.transformer
    ensures Matches(next, packets, reader)
  {
  }

  lemma BadKeyKept(p: Pair, u: Setup, step: Step)
    requires BadKeyPhase(p, u)
    ensures BadKeyPhase(Next(p, u, step), u)
  {
  }

  lemma Kept(p: Pair, u: Setup, step: Step)
    requires Inv(p, u)
    ensures Inv(Next(p, u, step), u)
  {
    hide HelloPhase, SelectionPhase, SetupPhase, ReplyPhase, ServerReadyPhase, RefusedPhase, ReadyPhase, BadKeyPhase;
    hide Next;
    if HelloPhase(p, u) {
      HelloKept(p, u, step);
    } else if SelectionPhase(p, u) {
      SelectionKept(p, u, step);
    } else if SetupPhase(p, u) {
      SetupKept(p, u, step);
    } else if ReplyPhase(p, u) {
      ReplyKept(p, u, step);
    } else if ServerReadyPhase(p, u) && Allowed(u) && (u.keySet ==> EqualKeys(u)) {
      ServerReadyKept(p, u, step);
    } else if RefusedPhase(p, u) {
      RefusedKept(p, u, step);
    } else if ReadyPhase(p, u) && Allowed(u) && (u.keySet ==> EqualKeys(u)) {
      ReadyKept(p, u, step);
    } else {
      BadKeyKept(p, u, step);
    }
  }

  lemma {:induction false} EveryRun(p: Pair, u: Setup, steps: seq<Step>)
    requires Inv(p, u)
    ensures Inv(Exec(p, u, steps), u)
    decreases |steps|
  {
    hide Inv, Next;
    if steps != [] {
      Kept(p, u, steps[0]);
      EveryRun(Next(p, u, steps[0]), u, steps[1..]);
    }
  }

  // ---- agreement over every run ------------------------------------------------------------

  /**
   * In every reachable state with equal session keys, or without a key, each packet on the way
   * opens with its reader's hash and cipher; once both sides are ready, what either packs next will
   * too. Nobody becomes ready with unequal keys, nor does the server without a key it requires.
   */
  lemma Agreement(u: Setup, steps: seq<Step>)
    ensures var p := Exec(Start(), u, steps);
            && (u.keySet ==> EqualKeys(u)) ==>
                 Opens(p.toClient, p.client.layer) && Opens(p.toServer, p.server.layer)
  {
    EveryRun(Start(), u, steps);
  }

  lemma ReadyAgreement(u: Setup, steps: seq<Step>)
    ensures var p := Exec(Start(), u, steps);
            && (p.client.ready && p.server.ready ==>
                  Matches(p.client.layer, p.toServer, p.server.layer)
                      && Matches(p.server.layer, p.toClient, p.client.layer))
            && (p.client.ready ==> p.server.ready && p.client.options == u.options)
            && (p.client.ready || p.server.ready ==> (u.keySet ==> EqualKeys(u)))
            && (p.server.ready ==> !(p.server.selected == Some(TransformNone) && u.keyRequired(p.server.clientId)))
  {
    EveryRun(Start(), u, steps);
  }

  // ---- completion --------------------------------------------------------------------------

  lemma {:induction false} ExecConcat(p: Pair, u: Setup, a: seq<Step>, b: seq<Step>)
    ensures Exec(p, u, a + b) == Exec(Exec(p, u, a), u, b)
    decreases |a|
  {
    hide Next;
    if a == [] {
      assert a + b == b;
    } else {
      assert (a + b)[0] == a[0] && (a + b)[1..] == a[1..] + b;
      ExecConcat(Next(p, u, a[0]), u, a[1..], b);
    }
  }

  /** The settings with which a connection can be set up. */
  predicate Compatible(u: Setup) {
    if u.keySet then u.serverSecret(u.clientId) == u.clientSecret else !u.keyRequired(0)
  }

  /** The server refused, and both sides have closed. */
  ghost predicate Closed(p: Pair, u: Setup) {
    RefusedPhase(p, u) && !p.client.open && !p.server.open
  }

  /** What becomes of the exchange: ready, or waiting in vain with unequal keys, or closed for want of a key. */
  ghost predicate Outcome(p: Pair, u: Setup) {
    if Compatible(u) then ReadyPhase(p, u) else if u.keySet then BadKeyPhase(p, u) else Closed(p, u)
  }

  ghost predicate CanFinish(p: Pair, u: Setup) {
    exists steps :: Outcome(Exec(p, u, steps), u)
  }

  lemma StepToFinish(p: Pair, u: Setup, step: Step)
    requires CanFinish(Next(p, u, step), u)
    ensures CanFinish(p, u)
  {
    hide Next, Outcome;
    var steps :| Outcome(Exec(Next(p, u, step), u, steps), u);
    assert ([step] + steps)[1..] == steps;
    assert Exec(p, u, [step] + steps) == Exec(Next(p, u, step), u, steps);
  }

  lemma FinishNow(p: Pair, u: Setup)
    requires Outcome(p, u)
    ensures CanFinish(p, u)
  {
    hide Outcome;
    assert Exec(p, u, []) == p;
  }

  lemma FinishServerReady(p: Pair, u: Setup)
    requires ServerReadyPhase(p, u) && Compatible(u)
    ensures CanFinish(p, u)
  {
    if p.toClient == [] {
      ServerReadyKept(p, u, ServerPack);
      FinishDelivered(Next(p, u, ServerPack), u);
      StepToFinish(p, u, ServerPack);
    } else {
      FinishDelivered(p, u);
    }
  }

  lemma FinishDelivered(p: Pair, u: Setup)
    requires ServerReadyPhase(p, u) && Compatible(u) && p.toClient != []
    ensures CanFinish(p, u)
  {
    var n := Next(p, u, ClientReceive(0));
    ServerReadyKept(p, u, ClientReceive(0));
    assert n.client.ready;
    FinishNow(n, u);
    StepToFinish(p, u, ClientReceive(0));
  }

  /** The refusal goes out, the client closes on it, and the server once it was sent. */
  lemma FinishRefused(p: Pair, u: Setup)
    requires RefusedPhase(p, u)
    ensures CanFinish(p, u)
    decreases 2 * |p.server.outbox| + |p.toClient| + if p.server.open then 1 else 0
  {
    if Closed(p, u) {
      FinishNow(p, u);
    } else {
      var step := if p.server.outbox != [] then ServerPack else if p.toClient != [] then ClientReceive(0)
                  else ServerClosed;
      RefusedKept(p, u, step);
      FinishRefused(Next(p, u, step), u);
      StepToFinish(p, u, step);
    }
  }

  lemma FinishReply(p: Pair, u: Setup)
    requires ReplyPhase(p, u)
    ensures CanFinish(p, u)
    decreases |p.client.outbox|
  {
    var step := if p.toServer == [] then ClientPack else ServerReceive(0);
    ReplyKept(p, u, step);
    var n := Next(p, u, step);
    if p.toServer == [] {
      assert ReplyPhase(n, u);
      FinishReply(n, u);
    } else if Compatible(u) {
      assert ServerReadyPhase(n, u);
      FinishServerReady(n, u);
    } else {
      assert BadKeyPhase(n, u);
      FinishNow(n, u);
    }
    StepToFinish(p, u, step);
  }

  lemma FinishSetup(p: Pair, u: Setup)
    requires SetupPhase(p, u)
    ensures CanFinish(p, u)
    decreases |p.server.outbox|
  {
    var step := if p.toClient == [] then ServerPack else ClientReceive(0);
    SetupKept(p, u, step);
    var n := Next(p, u, step);
    if p.toClient == [] {
      assert SetupPhase(n, u);
      FinishSetup(n, u);
    } else {
      assert ReplyPhase(n, u);
      FinishReply(n, u);
    }
    StepToFinish(p, u, step);
  }

  lemma FinishSelection(p: Pair, u: Setup)
    requires SelectionPhase(p, u)
    ensures CanFinish(p, u)
    decreases |p.client.outbox| + if p.server.reading then 0 else 1
  {
    var step := if !p.server.reading then ServerSent else if p.toServer == [] then ClientPack else ServerReceive(0);
    SelectionKept(p, u, step);
    var n := Next(p, u, step);
    if !p.server.reading || p.toServer == [] {
      assert SelectionPhase(n, u);
      FinishSelection(n, u);
    } else if u.keySet {
      assert SetupPhase(n, u);
      FinishSetup(n, u);
    } else if Compatible(u) {
      assert ServerReadyPhase(n, u);
      FinishServerReady(n, u);
    } else {
      assert RefusedPhase(n, u);
      FinishRefused(n, u);
    }
    StepToFinish(p, u, step);
  }

  lemma FinishHello(p: Pair, u: Setup)
    requires HelloPhase(p, u)
    ensures CanFinish(p, u)
    decreases |p.server.outbox|
  {
    var step := if p.toClient == [] then ServerPack else ClientReceive(0);
    HelloKept(p, u, step);
    var n := Next(p, u, step);
    if p.toClient == [] {
      assert HelloPhase(n, u);
      FinishHello(n, u);
    } else {
      assert SelectionPhase(n, u);
      FinishSelection(n, u);
    }
    StepToFinish(p, u, step);
  }

  /**
   * From every reachable state the exchange can still come to what its settings allow: both sides ready, both
   * waiting in vain because their keys differ, or both closed because a required key is missing.
   */
  lemma NeverStuck(u: Setup, steps: seq<Step>)
    ensures CanFinish(Exec(Start(), u, steps), u)
  {
    hide HelloPhase, SelectionPhase, SetupPhase, ReplyPhase, ServerReadyPhase, RefusedPhase, ReadyPhase, BadKeyPhase;
    hide CanFinish, Exec;
    var p := Exec(Start(), u, steps);
    InvAlways(u, steps);
    if HelloPhase(p, u) {
      FinishHello(p, u);
    } else if SelectionPhase(p, u) {
      FinishSelection(p, u);
    } else if SetupPhase(p, u) {
      FinishSetup(p, u);
    } else if ReplyPhase(p, u) {
      FinishReply(p, u);
    } else if RefusedPhase(p, u) {
      FinishRefused(p, u);
    } else if ServerReadyPhase(p, u) && Compatible(u) {
      FinishServerReady(p, u);
    } else {
      BadKeys(p, u);
      FinishNow(p, u);
    }
  }

  lemma BadKeys(p: Pair, u: Setup)
    ensures BadKeyPhase(p, u) ==> u.keySet && !Compatible(u)
  {
  }

  /** A pair waiting in vain, or closed, stays as it is: no message is left that could change anything. */
  lemma {:induction false} OutcomeStays(p: Pair, u: Setup, more: seq<Step>)
    requires Outcome(p, u) && !Compatible(u)
    ensures Exec(p, u, more) == p && !p.client.ready && !p.server.ready
    ensures p.client.open == p.server.open == u.keySet
    decreases |more|
  {
    if more != [] {
      assert Next(p, u, more[0]) == p;
      OutcomeStays(p, u, more[1..]);
    }
  }

  lemma InvAlways(u: Setup, steps: seq<Step>)
    ensures Inv(Exec(Start(), u, steps), u)
  {
    EveryRun(Start(), u, steps);
  }

  /**
   * Some run makes both sides ready exactly when the session keys are equal, or there is no key and
   * the application does not require one.
   */
  lemma ReadyIffCompatible(u: Setup)
    ensures (exists steps :: var p := Exec(Start(), u, steps); p.client.ready && p.server.ready) <==> Compatible(u)
  {
    if Compatible(u) {
      NeverStuck(u, []);
      assert Exec(Start(), u, []) == Start();
      var steps :| Outcome(Exec(Start(), u, steps), u);
      var p := Exec(Start(), u, steps);
      assert p.client.ready && p.server.ready;
    }
    if steps :| (var p := Exec(Start(), u, steps); p.client.ready && p.server.ready) {
      ReadyAgreement(u, steps);
      InvAlways(u, steps);
    }
  }
}
