/**
 * What every run of the two nodes of `Rpc` keeps: the state of one node, and the state of the channel
 * from one node to the other together with what the receiver holds from it. Each predicate takes just the
 * fields it is about.
 */
module RpcSafety {
  import opened Rpc
  import opened Wrappers

  type Messages = map<nat, Msg>
  type Stacks = map<nat, seq<Frame>>

  // ---- one node ----------------------------------------------------------------------------

  ghost predicate Numbered(side: Side, calls: nat, k: nat) {
    exists i: nat :: 1 <= i <= calls && k == CallId(side, i)
  }

  predicate RequestOk(side: Side, k: nat, m: Msg) {
    m.id == k && m.error == 0 && OwnType(side, m.mtype)
  }

  /** Requests are numbered by the node's counter, carry no error and keep their own id. */
  ghost predicate SentOk(side: Side, calls: nat, sent: Messages) {
    calls <= CallLimit(side) && forall k | k in sent :: RequestOk(side, k, sent[k]) && Numbered(side, calls, k)
  }

  /** A waiting call sits where `places` says, under its own message; once registered, its slot exists. */
  predicate FrameOk(maxDepth: nat, sent: Messages, places: map<nat, Place>, keys: set<nat>, transmitted: set<nat>,
                    t: nat, d: nat, f: Frame)
  {
    match f
    case Handling(_) => d + 1 <= maxDepth
    case Calling(m, stage, _) =>
      && m.id in sent && sent[m.id] == m
      && m.id in places && places[m.id] == Place(t, d)
      && (stage == Configured || m.id in keys)
      && (stage == Waiting <==> m.id in transmitted)
  }

  ghost predicate FramesOk(maxDepth: nat, sent: Messages, places: map<nat, Place>, keys: set<nat>,
                           transmitted: set<nat>, threads: Stacks)
  {
    forall t, d | t in threads && 0 <= d < |threads[t]| ::
      FrameOk(maxDepth, sent, places, keys, transmitted, t, d, threads[t][d])
  }

  /** The call `k` is on some stack, registered and not left. */
  predicate Held(places: map<nat, Place>, threads: Stacks, k: nat) {
    && k in places
    && var p := places[k];
    && p.thread in threads && p.depth < |threads[p.thread]|
    && var f := threads[p.thread][p.depth];
    && f.Calling? && f.m.id == k && f.stage != Configured
  }

  /** Only calls still being waited for have slots. */
  ghost predicate SlotsOk(keys: set<nat>, places: map<nat, Place>, threads: Stacks) {
    forall k | k in keys :: Held(places, threads, k)
  }

  /** Every message a node takes from its peer is first received, then at most queued, then started, then answered. */
  ghost predicate StagesOk(n: Node) {
    && n.transmitted <= n.sent.Keys
    && n.places.Keys <= n.sent.Keys
    && n.queued.Keys <= n.received
    && n.started <= n.received
    && n.closures.Keys <= n.started
    && n.answers.Keys <= n.started
    && n.queued.Keys !! n.started
    && n.closures.Keys !! n.answers.Keys
  }

  /** No id twice, and all of them known. */
  predicate OnceOk(ids: seq<nat>, known: set<nat>) {
    && (forall i | 0 <= i < |ids| :: ids[i] in known)
    && (forall i, j | 0 <= i < j < |ids| :: ids[i] != ids[j])
  }

  predicate Inserted(side: Side, m: Msg) {
    m.mtype == CallbackType(Other(side))
  }

  /** Callbacks in one slot are neither queued nor started yet, and all different. */
  predicate QueueOk(side: Side, waiting: set<nat>, q: seq<Msg>) {
    && (forall i | 0 <= i < |q| :: Inserted(side, q[i]) ==> q[i].id in waiting)
    && (forall i, j | 0 <= i < j < |q| :: Inserted(side, q[i]) && Inserted(side, q[j]) ==> q[i].id != q[j].id)
  }

  predicate Lacks(side: Side, q: seq<Msg>, id: nat) {
    forall i | 0 <= i < |q| :: Inserted(side, q[i]) ==> q[i].id != id
  }

  /** Requests received that are neither queued nor started. */
  function Undecided(n: Node): set<nat> {
    n.received - n.started - n.queued.Keys
  }

  ghost predicate InsertionsOk(side: Side, waiting: set<nat>, slots: map<nat, seq<Msg>>, pushing: Option<Delivery>) {
    && (forall k | k in slots :: QueueOk(side, waiting, slots[k]))
    && (pushing.Some? && Inserted(side, pushing.value.m) ==>
          && pushing.value.m.id in waiting
          && forall k | k in slots :: Lacks(side, slots[k], pushing.value.m.id))
  }

  ghost predicate Local(n: Node) {
    && n.limit <= CallLimit(n.side)
    && SentOk(n.side, n.calls, n.sent)
    && FramesOk(n.maxDepth, n.sent, n.places, n.slots.Keys, n.transmitted, n.threads)
    && SlotsOk(n.slots.Keys, n.places, n.threads)
    && StagesOk(n)
    && OnceOk(n.executed, n.started) && OnceOk(n.replied, n.answers.Keys)
    && InsertionsOk(n.side, Undecided(n), n.slots, n.pushing)
  }

  // ---- a channel and its two ends ----------------------------------------------------------

  /** `m` is one of these messages, under its own id. */
  predicate In(m: Msg, messages: Messages) {
    m.id in messages && messages[m.id] == m
  }

  /** What may stand in the slot `k`: its own answer, a callback aimed at it, or a broadcast system error. */
  predicate EntryOk(side: Side, sent: Messages, answers: Messages, k: nat, m: Msg) {
    || (OwnType(side, m.mtype) && m.id == k && In(m, answers))
    || (Inserted(side, m) && m.target == k && In(m, sent))
    || (m.mtype == MessageNone && m.error != 0)
  }

  ghost predicate EntriesOk(side: Side, slots: map<nat, seq<Msg>>, pushing: Option<Delivery>,
                            sent: Messages, answers: Messages)
  {
    && (forall k, i | k in slots && 0 <= i < |slots[k]| :: EntryOk(side, sent, answers, k, slots[k][i]))
    && (pushing.Some? ==> EntryOk(side, sent, answers, pushing.value.slot, pushing.value.m))
  }

  /** In the channel are requests, sent and not yet received, and answers. */
  predicate InFlightOk(side: Side, unread: set<nat>, sent: Messages, answers: Messages, m: Msg) {
    if OwnType(side, m.mtype) then In(m, answers)
    else OwnType(Other(side), m.mtype) && In(m, sent) && m.id in unread
  }

  ghost predicate ChannelOk(side: Side, unread: set<nat>, chan: seq<Msg>, sent: Messages, answers: Messages) {
    && (forall i | 0 <= i < |chan| :: InFlightOk(side, unread, sent, answers, chan[i]))
    && (forall i, j | 0 <= i < j < |chan| ::
          !OwnType(side, chan[i].mtype) && !OwnType(side, chan[j].mtype) ==> chan[i].id != chan[j].id)
  }

  predicate Keyed(messages: Messages, sent: Messages) {
    forall k | k in messages :: messages[k].id == k && In(messages[k], sent)
  }

  predicate HandledOk(f: Frame, sent: Messages) {
    f.Handling? ==> In(f.m, sent)
  }

  ghost predicate StacksOk(threads: Stacks, sent: Messages) {
    forall t, d | t in threads && 0 <= d < |threads[t]| :: HandledOk(threads[t][d], sent)
  }

  /** `a` answers `m`: it is `m` but for the error and the body, and for the options if the context is lost. */
  predicate AnswerTo(a: Msg, m: Msg) {
    || a == m.(error := a.error, body := a.body)
    || (a.error == ERR_CONTEXT && a == m.(error := a.error, body := a.body, wait := false, accept := false))
  }

  ghost predicate AnswersOk(sent: Messages, answers: Messages) {
    forall k | k in answers :: k in sent && AnswerTo(answers[k], sent[k])
  }

  ghost predicate ReturnedOk(returned: Messages, answers: Messages) {
    forall k | k in returned :: k in answers && returned[k] == answers[k] && returned[k].error == 0
  }

  /** The answer `a` is still in the channel, or past it on its way into its caller's slot, or in the slot. */
  predicate OnItsWay(chan: seq<Msg>, pushing: Option<Delivery>, slots: map<nat, seq<Msg>>, k: nat, a: Msg) {
    a in chan || pushing == Some(Delivery(k, a)) || (k in slots && a in slots[k])
  }

  ghost predicate NothingLost(places: map<nat, Place>, threads: Stacks, transmitted: set<nat>, chan: seq<Msg>,
                              pushing: Option<Delivery>, slots: map<nat, seq<Msg>>, answers: Messages)
  {
    forall k | k in answers && k in transmitted && Held(places, threads, k) ::
      OnItsWay(chan, pushing, slots, k, answers[k])
  }

  function Unread(rcv: Node, snd: Node): set<nat> {
    snd.transmitted - rcv.received
  }

  ghost predicate Link(rcv: Node, snd: Node, chan: seq<Msg>) {
    && rcv.side == Other(snd.side)
    && rcv.received <= snd.transmitted
    && EntriesOk(rcv.side, rcv.slots, rcv.pushing, snd.sent, snd.answers)
    && ChannelOk(rcv.side, Unread(rcv, snd), chan, snd.sent, snd.answers)
    && Keyed(rcv.queued, snd.sent) && Keyed(rcv.closures, snd.sent) && StacksOk(rcv.threads, snd.sent)
    && AnswersOk(rcv.sent, snd.answers) && ReturnedOk(rcv.returned, snd.answers)
    && NothingLost(rcv.places, rcv.threads, rcv.transmitted, chan, rcv.pushing, rcv.slots, snd.answers)
  }

  ghost predicate Inv(s: System) {
    && s.client.side == Client
    && Local(s.client) && Local(s.server)
    && Link(s.client, s.server, s.toClient) && Link(s.server, s.client, s.toServer)
  }

  lemma StartsRight(clientDepth: nat, serverDepth: nat)
    ensures Inv(Start(clientDepth, serverDepth))
  {
  }

  // ---- the sender's side of a step ---------------------------------------------------------

  predicate Grown(before: Messages, after: Messages) {
    forall k | k in before :: k in after && after[k] == before[k]
  }

  /** The sender puts a request in the channel, for the first time. */
  lemma RequestLeaves(rcv: Node, snd: Node, now: Node, chan: seq<Msg>, m: Msg)
    requires Link(rcv, snd, chan) && now.side == snd.side && Grown(snd.sent, now.sent)
    requires now.answers == snd.answers && now.transmitted == snd.transmitted + {m.id}
    requires OwnType(snd.side, m.mtype) && m.id !in snd.transmitted && In(m, now.sent)
    ensures Link(rcv, now, chan + [m])
  {
    SentGrows(rcv, snd, now, chan);
    hide Keyed, StacksOk, AnswersOk, ReturnedOk, EntriesOk;
    var unread := Unread(rcv, now);
    assert ChannelOk(rcv.side, unread, chan + [m], now.sent, now.answers) by {
      hide NothingLost;
      ChannelWidens(rcv.side, Unread(rcv, snd), unread, chan, now.sent, now.answers);
      assert forall i | 0 <= i < |chan| :: InFlightOk(rcv.side, Unread(rcv, snd), now.sent, now.answers, chan[i]);
    }
    ChannelAppended(rcv, chan, m, now.answers);
  }

  lemma ChannelWidens(side: Side, unread: set<nat>, wider: set<nat>, chan: seq<Msg>, sent: Messages, answers: Messages)
    requires ChannelOk(side, unread, chan, sent, answers) && unread <= wider
    ensures ChannelOk(side, wider, chan, sent, answers)
  {
    forall i | 0 <= i < |chan| ensures InFlightOk(side, wider, sent, answers, chan[i]) {
      assert InFlightOk(side, unread, sent, answers, chan[i]);
    }
  }

  lemma ChannelAppended(rcv: Node, chan: seq<Msg>, m: Msg, answers: Messages)
    requires NothingLost(rcv.places, rcv.threads, rcv.transmitted, chan, rcv.pushing, rcv.slots, answers)
    ensures NothingLost(rcv.places, rcv.threads, rcv.transmitted, chan + [m], rcv.pushing, rcv.slots, answers)
  {
    forall k | k in answers && k in rcv.transmitted && Held(rcv.places, rcv.threads, k)
      ensures OnItsWay(chan + [m], rcv.pushing, rcv.slots, k, answers[k])
    {
      assert OnItsWay(chan, rcv.pushing, rcv.slots, k, answers[k]);
    }
  }

  /** The sender makes more requests without sending anything. */
  lemma SentGrows(rcv: Node, snd: Node, now: Node, chan: seq<Msg>)
    requires Link(rcv, snd, chan) && now.side == snd.side && Grown(snd.sent, now.sent)
    requires now.answers == snd.answers && snd.transmitted <= now.transmitted
    ensures EntriesOk(rcv.side, rcv.slots, rcv.pushing, now.sent, now.answers)
    ensures ChannelOk(rcv.side, Unread(rcv, snd), chan, now.sent, now.answers)
    ensures Keyed(rcv.queued, now.sent) && Keyed(rcv.closures, now.sent) && StacksOk(rcv.threads, now.sent)
    ensures now.transmitted == snd.transmitted ==> Link(rcv, now, chan)
  {
    hide NothingLost;
    assert EntriesOk(rcv.side, rcv.slots, rcv.pushing, now.sent, now.answers) by {
      forall k, i | k in rcv.slots && 0 <= i < |rcv.slots[k]|
        ensures EntryOk(rcv.side, now.sent, now.answers, k, rcv.slots[k][i])
      {
        assert EntryOk(rcv.side, snd.sent, snd.answers, k, rcv.slots[k][i]);
      }
    }
    assert ChannelOk(rcv.side, Unread(rcv, snd), chan, now.sent, now.answers) by {
      forall i | 0 <= i < |chan| ensures InFlightOk(rcv.side, Unread(rcv, snd), now.sent, now.answers, chan[i]) {
        assert InFlightOk(rcv.side, Unread(rcv, snd), snd.sent, snd.answers, chan[i]);
      }
    }
    assert StacksOk(rcv.threads, now.sent) by {
      forall t, d | t in rcv.threads && 0 <= d < |rcv.threads[t]| ensures HandledOk(rcv.threads[t][d], now.sent) {
        assert HandledOk(rcv.threads[t][d], snd.sent);
      }
    }
    assert Keyed(rcv.queued, now.sent) && Keyed(rcv.closures, now.sent);
  }

  /** The sender answers a request for the first time. */
  lemma AnswerLeaves(rcv: Node, snd: Node, now: Node, chan: seq<Msg>, a: Msg)
    requires Link(rcv, snd, chan) && now.side == snd.side && now.sent == snd.sent
    requires now.answers == snd.answers[a.id := a] && now.transmitted == snd.transmitted
    requires a.id !in snd.answers && OwnType(rcv.side, a.mtype)
    requires a.id in rcv.sent && AnswerTo(a, rcv.sent[a.id])
    ensures Link(rcv, now, chan + [a])
  {
    hide Keyed, StacksOk;
    assert EntriesOk(rcv.side, rcv.slots, rcv.pushing, now.sent, now.answers) by {
      hide NothingLost, AnswersOk, ReturnedOk, ChannelOk;
      forall k, i | k in rcv.slots && 0 <= i < |rcv.slots[k]|
        ensures EntryOk(rcv.side, now.sent, now.answers, k, rcv.slots[k][i])
      {
        assert EntryOk(rcv.side, snd.sent, snd.answers, k, rcv.slots[k][i]);
      }
    }
    assert ChannelOk(rcv.side, Unread(rcv, now), chan + [a], now.sent, now.answers) by {
      hide NothingLost, AnswersOk, ReturnedOk, EntriesOk;
      assert forall i | 0 <= i < |chan| :: InFlightOk(rcv.side, Unread(rcv, snd), snd.sent, snd.answers, chan[i]);
    }
    assert NothingLost(rcv.places, rcv.threads, rcv.transmitted, chan + [a], rcv.pushing, rcv.slots, now.answers) by {
      hide AnswersOk, ReturnedOk, EntriesOk, ChannelOk;
      ChannelAppended(rcv, chan, a, snd.answers);
    }
    hide NothingLost, EntriesOk, ChannelOk;
  }
}
