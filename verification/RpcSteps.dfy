/** Every step of either node keeps the invariant of `RpcSafety`, on the side that moves and on the other. */
module RpcSteps {
  import opened Rpc
  import opened RpcSafety
  import opened Wrappers

  /** The invariant seen from the node that moves; `p` is its peer. */
  ghost predicate Safe(v: View, p: Node) {
    Local(v.me) && Local(p) && Link(v.me, p, v.inbox) && Link(p, v.me, v.outbox)
  }

  // ---- stacks ------------------------------------------------------------------------------

  function StackIn(threads: Stacks, t: nat): seq<Frame> {
    if t in threads then threads[t] else []
  }

  lemma FramesPush(maxDepth: nat, sent: Messages, places: map<nat, Place>, keys: set<nat>, transmitted: set<nat>,
                   threads: Stacks, t: nat, f: Frame)
    requires FramesOk(maxDepth, sent, places, keys, transmitted, threads)
    requires FrameOk(maxDepth, sent, places, keys, transmitted, t, |StackIn(threads, t)|, f)
    ensures FramesOk(maxDepth, sent, places, keys, transmitted, threads[t := StackIn(threads, t) + [f]])
  {
    hide FrameOk;
  }

  /** The top of a stack goes, and with it the slot of the call that waited there. */
  lemma FramesPop(maxDepth: nat, sent: Messages, places: map<nat, Place>, keys: set<nat>, transmitted: set<nat>,
                  threads: Stacks, t: nat)
    requires FramesOk(maxDepth, sent, places, keys, transmitted, threads)
    requires t in threads && threads[t] != []
    ensures
      var top, rest := threads[t][|threads[t]| - 1], threads[t := threads[t][..|threads[t]| - 1]];
      FramesOk(maxDepth, sent, places, if top.Calling? then keys - {top.m.id} else keys, transmitted, rest)
  {
    var d := |threads[t]| - 1;
    var top, rest := threads[t][d], threads[t := threads[t][..d]];
    assert FrameOk(maxDepth, sent, places, keys, transmitted, t, d, top);
    var kept := if top.Calling? then keys - {top.m.id} else keys;
    forall u, e | u in rest && 0 <= e < |rest[u]|
      ensures FrameOk(maxDepth, sent, places, kept, transmitted, u, e, rest[u][e])
    {
      assert rest[u][e] == threads[u][e];
      assert FrameOk(maxDepth, sent, places, keys, transmitted, u, e, threads[u][e]);
    }
  }

  /** The call on top of a stack moves on; nothing else waits under its id. */
  lemma FramesAdvance(maxDepth: nat, sent: Messages, places: map<nat, Place>, keys: set<nat>, transmitted: set<nat>,
                      threads: Stacks, t: nat, f: Frame, keys': set<nat>, transmitted': set<nat>)
    requires FramesOk(maxDepth, sent, places, keys, transmitted, threads)
    requires t in threads && threads[t] != [] && f.Calling? && threads[t][|threads[t]| - 1].Calling?
    requires threads[t][|threads[t]| - 1] == f.(stage := threads[t][|threads[t]| - 1].stage)
    requires keys <= keys' && transmitted <= transmitted' <= transmitted + {f.m.id}
    requires FrameOk(maxDepth, sent, places, keys', transmitted', t, |threads[t]| - 1, f)
    ensures FramesOk(maxDepth, sent, places, keys', transmitted',
                     threads[t := threads[t][..|threads[t]| - 1] + [f]])
  {
    var d := |threads[t]| - 1;
    var now := threads[t := threads[t][..d] + [f]];
    forall u, e | u in now && 0 <= e < |now[u]|
      ensures FrameOk(maxDepth, sent, places, keys', transmitted', u, e, now[u][e])
    {
      if u != t || e != d {
        assert now[u][e] == threads[u][e];
        assert FrameOk(maxDepth, sent, places, keys, transmitted, u, e, threads[u][e]);
      }
    }
  }

  /** A new call changes nothing for the frames already there. */
  lemma FramesGrow(maxDepth: nat, sent: Messages, places: map<nat, Place>, keys: set<nat>, transmitted: set<nat>,
                   threads: Stacks, m: Msg, places': map<nat, Place>, transmitted': set<nat>)
    requires FramesOk(maxDepth, sent, places, keys, transmitted, threads)
    requires m.id !in sent && transmitted <= transmitted' <= transmitted + {m.id}
    requires forall k | k in places && k != m.id :: k in places' && places'[k] == places[k]
    ensures FramesOk(maxDepth, sent[m.id := m], places', keys, transmitted', threads)
  {
    forall t, d | t in threads && 0 <= d < |threads[t]|
      ensures FrameOk(maxDepth, sent[m.id := m], places', keys, transmitted', t, d, threads[t][d])
    {
      assert FrameOk(maxDepth, sent, places, keys, transmitted, t, d, threads[t][d]);
    }
  }

  lemma StacksPush(threads: Stacks, sent: Messages, t: nat, f: Frame)
    requires StacksOk(threads, sent) && HandledOk(f, sent)
    ensures StacksOk(threads[t := StackIn(threads, t) + [f]], sent)
  {
    hide HandledOk;
  }

  lemma StacksPop(threads: Stacks, sent: Messages, t: nat)
    requires StacksOk(threads, sent) && t in threads && threads[t] != []
    ensures StacksOk(threads[t := threads[t][..|threads[t]| - 1]], sent)
  {
    hide HandledOk;
  }

  /** A frame pushed, of a message being handled or of a new call, changes which calls are held for nobody. */
  lemma HeldPush(places: map<nat, Place>, threads: Stacks, t: nat, f: Frame, places': map<nat, Place>)
    requires f.Calling? ==> f.stage == Configured && f.m.id !in places
    requires places' == if f.Calling? then places[f.m.id := Place(t, |StackIn(threads, t)|)] else places
    ensures HeldAlike(places, threads, places', threads[t := StackIn(threads, t) + [f]])
  {
    var now := threads[t := StackIn(threads, t) + [f]];
    forall k ensures Held(places', now, k) <==> Held(places, threads, k) {
      if k in places && !(f.Calling? && k == f.m.id) {
        assert places'[k] == places[k];
      }
    }
  }

  ghost predicate HeldAlike(places: map<nat, Place>, threads: Stacks, places': map<nat, Place>, threads': Stacks) {
    forall k :: Held(places', threads', k) <==> Held(places, threads, k)
  }

  /** Popping a stack lets go of the call that waited on top, and of no other. */
  lemma HeldPop(places: map<nat, Place>, threads: Stacks, t: nat, k: nat)
    requires t in threads && threads[t] != []
    requires
      var top := threads[t][|threads[t]| - 1];
      top.Calling? ==> top.m.id in places && places[top.m.id] == Place(t, |threads[t]| - 1)
    ensures
      var top := threads[t][|threads[t]| - 1];
      Held(places, threads[t := threads[t][..|threads[t]| - 1]], k)
      == (Held(places, threads, k) && !(top.Calling? && top.m.id == k))
  {
  }

  lemma LostAlike(places: map<nat, Place>, threads: Stacks, transmitted: set<nat>, chan: seq<Msg>,
                  pushing: Option<Delivery>, slots: map<nat, seq<Msg>>, answers: Messages,
                  places': map<nat, Place>, threads': Stacks)
    requires NothingLost(places, threads, transmitted, chan, pushing, slots, answers)
    requires HeldAlike(places, threads, places', threads')
    ensures NothingLost(places', threads', transmitted, chan, pushing, slots, answers)
  {
    hide Held, OnItsWay;
  }

  lemma SlotsAlike(keys: set<nat>, places: map<nat, Place>, threads: Stacks, places': map<nat, Place>, threads': Stacks)
    requires SlotsOk(keys, places, threads) && HeldAlike(places, threads, places', threads')
    ensures SlotsOk(keys, places', threads')
  {
    hide Held;
  }

  // ---- making calls ------------------------------------------------------------------------

  lemma FreshId(n: Node)
    requires SentOk(n.side, n.calls, n.sent) && n.calls < CallLimit(n.side)
    ensures CallId(n.side, n.calls + 1) !in n.sent
  {
    var k := CallId(n.side, n.calls + 1);
    if k in n.sent {
      assert Numbered(n.side, n.calls, k);
      var i: nat :| 1 <= i <= n.calls && k == CallId(n.side, i);
      CallIdsDiffer(n.side, i, n.calls + 1);
    }
  }

  lemma SentMore(side: Side, calls: nat, sent: Messages, m: Msg)
    requires SentOk(side, calls, sent) && calls < CallLimit(side) && RequestOk(side, CallId(side, calls + 1), m)
    ensures SentOk(side, calls + 1, sent[m.id := m])
  {
    var now := sent[m.id := m];
    assert m.id == CallId(side, calls + 1);
    forall k | k in now ensures Numbered(side, calls + 1, k) {
      if k != m.id {
        assert Numbered(side, calls, k);
        var i: nat :| 1 <= i <= calls && k == CallId(side, i);
        assert i <= calls + 1;
      }
    }
  }

  lemma ConfiguredRight(n: Node, t: nat, step: Step)
    requires step.Begin?
    ensures RequestOk(n.side, CallId(n.side, n.calls + 1), Configure(n, t, step))
  {
    hide CallId;
  }

  lemma NewCall(n: Node, t: nat, step: Step)
    requires Local(n) && step.Begin? && n.calls < n.limit
    ensures
      var m := Configure(n, t, step);
      m.id !in n.sent && OwnType(n.side, m.mtype) && SentOk(n.side, n.calls + 1, n.sent[m.id := m])
  {
    ConfiguredRight(n, t, step);
    FreshId(n);
    hide CallId, Configure, SentOk, FramesOk, SlotsOk, StagesOk, InsertionsOk, OnceOk;
    SentMore(n.side, n.calls, n.sent, Configure(n, t, step));
  }

  lemma BegunIs(v: View, step: Step)
    requires step.Begin?
    ensures
      var m := Configure(v.me, step.t, step);
      Begun(v, step) == if step.wait then v.(me := WaitBegun(v.me, m, step.raw, step.t))
                        else v.(me := PostBegun(v.me, m), outbox := v.outbox + [m])
  {
    hide CallId, Configure;
  }

  lemma BeginKept(v: View, p: Node, step: Step)
    requires Safe(v, p) && step.Begin? && Enabled(v, step)
    ensures Safe(Begun(v, step), p)
  {
    assert Local(v.me) && v.me.calls < v.me.limit;
    hide *;
    NewCall(v.me, step.t, step);
    BegunIs(v, step);
    if step.wait {
      BeginWaits(v, p, Configure(v.me, step.t, step), step.raw, step.t);
    } else {
      BeginPosts(v, p, Configure(v.me, step.t, step));
    }
  }

  function PostBegun(n: Node, m: Msg): Node {
    n.(calls := n.calls + 1, sent := n.sent[m.id := m], transmitted := n.transmitted + {m.id})
  }

  /** A call nobody waits for is sent at once. */
  lemma BeginPosts(v: View, p: Node, m: Msg)
    requires Safe(v, p) && m.id !in v.me.sent && OwnType(v.me.side, m.mtype)
    requires SentOk(v.me.side, v.me.calls + 1, v.me.sent[m.id := m])
    ensures Safe(v.(me := PostBegun(v.me, m), outbox := v.outbox + [m]), p)
  {
    hide Held, SlotsOk, StacksOk, EntriesOk, ChannelOk, Keyed, ReturnedOk, SentOk, InsertionsOk, FrameOk;
    var n, now := v.me, PostBegun(v.me, m);
    FramesGrow(n.maxDepth, n.sent, n.places, n.slots.Keys, n.transmitted, n.threads, m, n.places, now.transmitted);
    hide FramesOk;
    assert AnswersOk(now.sent, p.answers) by { hide AnswerTo, NothingLost; }
    assert NothingLost(n.places, n.threads, now.transmitted, v.inbox, n.pushing, n.slots, p.answers) by {
      hide AnswersOk;
      NotHeldYet(n, m.id);
    }
    hide NothingLost, AnswersOk;
    RequestLeaves(p, n, now, v.outbox, m);
  }

  lemma NotHeldYet(n: Node, k: nat)
    requires StagesOk(n) && k !in n.sent
    ensures !Held(n.places, n.threads, k)
  {
  }

  lemma BeginWaits(v: View, p: Node, m: Msg, raw: bool, t: nat)
    requires Safe(v, p) && m.id !in v.me.sent && OwnType(v.me.side, m.mtype)
    requires SentOk(v.me.side, v.me.calls + 1, v.me.sent[m.id := m])
    ensures Safe(v.(me := WaitBegun(v.me, m, raw, t)), p)
  {
    hide HeldAlike, Held, FramesOk, SlotsOk, StacksOk, EntriesOk, ChannelOk, Keyed, ReturnedOk, SentOk, InsertionsOk;
    var n, now := v.me, WaitBegun(v.me, m, raw, t);
    var f := Calling(m, Configured, raw);
    HeldPush(n.places, n.threads, t, f, now.places);
    assert Local(now) by {
      hide NothingLost, AnswersOk;
      FramesGrow(n.maxDepth, n.sent, n.places, n.slots.Keys, n.transmitted, n.threads, m, now.places, n.transmitted);
      FramesPush(n.maxDepth, now.sent, now.places, n.slots.Keys, n.transmitted, n.threads, t, f);
      SlotsAlike(n.slots.Keys, n.places, n.threads, now.places, now.threads);
    }
    assert Link(now, p, v.inbox) by {
      assert AnswersOk(now.sent, p.answers) by { hide AnswerTo, NothingLost; }
      hide NothingLost, AnswersOk;
      LostAlike(n.places, n.threads, n.transmitted, v.inbox, n.pushing, n.slots, p.answers, now.places, now.threads);
      StacksPush(n.threads, p.sent, t, f);
    }
    hide NothingLost, AnswersOk;
    SentGrows(p, n, now, v.outbox);
  }

  function WaitBegun(n: Node, m: Msg, raw: bool, t: nat): Node {
    n.(calls := n.calls + 1, sent := n.sent[m.id := m], places := n.places[m.id := Place(t, |Stack(n, t)|)],
       threads := n.threads[t := Stack(n, t) + [Calling(m, Configured, raw)]])
  }

  /** The call on top of a stack moves to a later stage under the same id. */
  lemma HeldAdvance(places: map<nat, Place>, threads: Stacks, t: nat, f: Frame, k: nat)
    requires t in threads && threads[t] != [] && f.Calling? && f.stage != Configured
    requires threads[t][|threads[t]| - 1].Calling? && threads[t][|threads[t]| - 1].m == f.m
    requires f.m.id in places && places[f.m.id] == Place(t, |threads[t]| - 1)
    ensures
      Held(places, threads[t := threads[t][..|threads[t]| - 1] + [f]], k) == (k == f.m.id || Held(places, threads, k))
  {
  }

  lemma StacksAdvance(threads: Stacks, sent: Messages, t: nat, f: Frame)
    requires StacksOk(threads, sent) && t in threads && threads[t] != [] && f.Calling?
    ensures StacksOk(threads[t := threads[t][..|threads[t]| - 1] + [f]], sent)
  {
  }

  predicate Calls(n: Node, t: nat) {
    Stack(n, t) != [] && Top(n, t).Calling?
  }

  lemma TopFrame(n: Node, t: nat)
    requires FramesOk(n.maxDepth, n.sent, n.places, n.slots.Keys, n.transmitted, n.threads) && Stack(n, t) != []
    ensures t in n.threads
            && FrameOk(n.maxDepth, n.sent, n.places, n.slots.Keys, n.transmitted, t, |Stack(n, t)| - 1, Top(n, t))
  {
  }

  lemma RegisterKept(v: View, p: Node, t: nat)
    requires Safe(v, p) && Calls(v.me, t) && Top(v.me, t).stage == Configured
    ensures Safe(Next(v, Register(t)), p)
  {
    hide Held, SentOk, EntriesOk, ChannelOk, Keyed, ReturnedOk, InsertionsOk, AnswersOk, StacksOk, OnItsWay;
    var n, now := v.me, Next(v, Register(t)).me;
    TopFrame(n, t);
    var f := Top(n, t).(stage := Registered);
    forall k ensures Held(n.places, now.threads, k) == (k == f.m.id || Held(n.places, n.threads, k)) {
      HeldAdvance(n.places, n.threads, t, f, k);
    }
    assert Local(now) by {
      hide NothingLost;
      FramesAdvance(n.maxDepth, n.sent, n.places, n.slots.Keys, n.transmitted, n.threads, t, f, now.slots.Keys,
          n.transmitted);
      assert InsertionsOk(n.side, Undecided(now), now.slots, n.pushing) by { SlotsEmpty(n, f.m.id); }
    }
    hide FramesOk, SlotsOk;
    StacksAdvance(n.threads, p.sent, t, f);
    assert EntriesOk(n.side, now.slots, n.pushing, p.sent, p.answers) by { EntriesEmpty(n, p, f.m.id); }
    assert NothingLost(n.places, now.threads, n.transmitted, v.inbox, n.pushing, now.slots, p.answers) by {
      assert f.m.id !in n.transmitted;
      forall k | k in p.answers && k in n.transmitted && Held(n.places, now.threads, k)
        ensures OnItsWay(v.inbox, n.pushing, now.slots, k, p.answers[k])
      {
        assert OnItsWay(v.inbox, n.pushing, n.slots, k, p.answers[k]);
        StaysOnItsWay(v.inbox, n.pushing, n.slots, k, p.answers[k], f.m.id);
      }
    }
  }

  lemma SlotsEmpty(n: Node, k: nat)
    requires InsertionsOk(n.side, Undecided(n), n.slots, n.pushing)
    ensures InsertionsOk(n.side, Undecided(n), Opened(n.slots, k), n.pushing)
  {
  }

  function Opened(slots: map<nat, seq<Msg>>, k: nat): map<nat, seq<Msg>> {
    if k in slots then slots else slots[k := []]
  }

  lemma EntriesEmpty(n: Node, p: Node, k: nat)
    requires EntriesOk(n.side, n.slots, n.pushing, p.sent, p.answers)
    ensures EntriesOk(n.side, Opened(n.slots, k), n.pushing, p.sent, p.answers)
  {
    hide EntryOk;
  }

  lemma StaysOnItsWay(chan: seq<Msg>, pushing: Option<Delivery>, slots: map<nat, seq<Msg>>, k: nat, a: Msg, key: nat)
    requires OnItsWay(chan, pushing, slots, k, a)
    ensures OnItsWay(chan, pushing, Opened(slots, key), k, a)
  {
  }

  lemma TransmitKept(v: View, p: Node, t: nat)
    requires Safe(v, p) && Calls(v.me, t) && Top(v.me, t).stage == Registered
    ensures Safe(Next(v, Transmit(t)), p)
  {
    hide Held, EntriesOk, ChannelOk, Keyed, ReturnedOk, InsertionsOk, AnswersOk, StacksOk, OnItsWay, Numbered;
    var n, now := v.me, Next(v, Transmit(t)).me;
    TopFrame(n, t);
    var f := Top(n, t).(stage := Waiting);
    assert RequestOk(n.side, f.m.id, f.m);
    hide SentOk, RequestOk;
    assert Held(n.places, n.threads, f.m.id) by { TopHeld(n, t); }
    forall k ensures Held(n.places, now.threads, k) == Held(n.places, n.threads, k) {
      HeldAdvance(n.places, n.threads, t, f, k);
    }
    assert Local(now) by {
      hide NothingLost;
      FramesAdvance(n.maxDepth, n.sent, n.places, n.slots.Keys, n.transmitted, n.threads, t, f, n.slots.Keys,
          now.transmitted);
    }
    hide FramesOk, SlotsOk;
    StacksAdvance(n.threads, p.sent, t, f);
    assert f.m.id !in p.answers;
    assert NothingLost(n.places, now.threads, now.transmitted, v.inbox, n.pushing, n.slots, p.answers);
    hide NothingLost;
    assert Link(now, p, v.inbox);
    RequestLeaves(p, n, now, v.outbox, f.m);
  }

  lemma TopHeld(n: Node, t: nat)
    requires FramesOk(n.maxDepth, n.sent, n.places, n.slots.Keys, n.transmitted, n.threads)
    requires Calls(n, t) && Top(n, t).stage != Configured
    ensures Held(n.places, n.threads, Top(n, t).m.id)
  {
    TopFrame(n, t);
  }

  lemma LeaveKept(v: View, p: Node, t: nat)
    requires Safe(v, p) && Calls(v.me, t)
    ensures Safe(v.(me := Left(v.me, t)), p)
  {
    hide Held, EntriesOk, ChannelOk, Keyed, ReturnedOk, InsertionsOk, AnswersOk, StacksOk, OnItsWay, SentOk;
    var n, now := v.me, Left(v.me, t);
    TopFrame(n, t);
    var id := Top(n, t).m.id;
    forall k ensures Held(n.places, now.threads, k) == (Held(n.places, n.threads, k) && k != id) {
      HeldPop(n.places, n.threads, t, k);
    }
    assert Local(now) by {
      hide NothingLost;
      FramesPop(n.maxDepth, n.sent, n.places, n.slots.Keys, n.transmitted, n.threads, t);
      assert now.slots.Keys == n.slots.Keys - {id};
      assert InsertionsOk(n.side, Undecided(now), now.slots, n.pushing) by { SlotsRemove(n, id); }
    }
    hide FramesOk, SlotsOk;
    StacksPop(n.threads, p.sent, t);
    assert EntriesOk(n.side, now.slots, n.pushing, p.sent, p.answers) by { EntriesRemove(n, p, id); }
    assert NothingLost(n.places, now.threads, n.transmitted, v.inbox, n.pushing, now.slots, p.answers) by {
      forall k | k in p.answers && k in n.transmitted && Held(n.places, now.threads, k)
        ensures OnItsWay(v.inbox, n.pushing, now.slots, k, p.answers[k])
      {
        assert OnItsWay(v.inbox, n.pushing, n.slots, k, p.answers[k]);
        OnItsWayStill(v.inbox, n.pushing, n.slots, k, p.answers[k], id);
      }
    }
  }

  lemma SlotsRemove(n: Node, k: nat)
    requires InsertionsOk(n.side, Undecided(n), n.slots, n.pushing)
    ensures InsertionsOk(n.side, Undecided(n), n.slots - {k}, n.pushing)
  {
  }

  lemma EntriesRemove(n: Node, p: Node, k: nat)
    requires EntriesOk(n.side, n.slots, n.pushing, p.sent, p.answers)
    ensures EntriesOk(n.side, n.slots - {k}, n.pushing, p.sent, p.answers)
  {
    hide EntryOk;
  }

  lemma OnItsWayStill(chan: seq<Msg>, pushing: Option<Delivery>, slots: map<nat, seq<Msg>>, k: nat, a: Msg, gone: nat)
    requires OnItsWay(chan, pushing, slots, k, a) && k != gone
    ensures OnItsWay(chan, pushing, slots - {gone}, k, a)
  {
  }

  // ---- requests of the peer ----------------------------------------------------------------

  /** No slot, and nothing on its way into one, holds the callback `id`. */
  predicate Nowhere(n: Node, id: nat) {
    && (forall k | k in n.slots :: Lacks(n.side, n.slots[k], id))
    && (n.pushing.Some? && Inserted(n.side, n.pushing.value.m) ==> n.pushing.value.m.id != id)
  }

  lemma DecidedNowhere(n: Node, id: nat)
    requires InsertionsOk(n.side, Undecided(n), n.slots, n.pushing) && id !in Undecided(n)
    ensures Nowhere(n, id)
  {
  }

  lemma InsertionsNarrow(n: Node, id: nat)
    requires InsertionsOk(n.side, Undecided(n), n.slots, n.pushing) && Nowhere(n, id)
    ensures InsertionsOk(n.side, Undecided(n) - {id}, n.slots, n.pushing)
  {
    forall k | k in n.slots ensures QueueOk(n.side, Undecided(n) - {id}, n.slots[k]) {
      assert QueueOk(n.side, Undecided(n), n.slots[k]) && Lacks(n.side, n.slots[k], id);
    }
  }

  /** A request received and not yet queued or started, which nothing else in the node holds. */
  predicate Loose(n: Node, p: Node, m: Msg) {
    In(m, p.sent) && m.id in Undecided(n) && Nowhere(n, m.id)
  }

  lemma OnceMore(ids: seq<nat>, known: set<nat>, id: nat)
    requires OnceOk(ids, known) && id !in known
    ensures OnceOk(ids + [id], known + {id})
  {
  }

  lemma OnceWider(ids: seq<nat>, known: set<nat>, wider: set<nat>)
    requires OnceOk(ids, known) && known <= wider
    ensures OnceOk(ids, wider)
  {
  }

  lemma AnsweredKept(v: View, p: Node, m: Msg, a: Msg)
    requires Safe(v, p) && In(m, p.sent) && AnswerTo(a, m)
    requires m.id in v.me.received - v.me.queued.Keys - v.me.answers.Keys - v.me.closures.Keys && Nowhere(v.me, m.id)
    ensures Safe(Answered(v, a), p)
  {
    hide FramesOk, SlotsOk, EntriesOk, ChannelOk, Keyed, ReturnedOk, AnswersOk, StacksOk, NothingLost, Numbered;
    hide Nowhere;
    var n, now := v.me, Answered(v, a).me;
    assert RequestOk(p.side, m.id, m);
    assert InsertionsOk(n.side, Undecided(now), n.slots, n.pushing) by {
      InsertionsNarrow(n, m.id);
      assert Undecided(now) == Undecided(n) - {m.id};
    }
    hide InsertionsOk, SentOk, OnceOk;
    OnceWider(n.executed, n.started, now.started);
    OnceMore(n.replied, n.answers.Keys, a.id);
    assert now.answers.Keys == n.answers.Keys + {a.id};
    assert Local(now);
    assert Link(now, p, v.inbox);
    assert In(a, now.answers);
    AnswerLeaves(p, n, now, v.outbox, a);
  }

  lemma MarkedKept(v: View, p: Node, id: nat)
    requires Safe(v, p) && id in v.me.received - v.me.queued.Keys && Nowhere(v.me, id)
    ensures Safe(v.(me := v.me.(started := v.me.started + {id})), p)
  {
    hide FramesOk, SlotsOk, EntriesOk, ChannelOk, Keyed, ReturnedOk, AnswersOk, StacksOk, NothingLost, Nowhere;
    hide SentOk, OnceOk;
    var n := v.me;
    var now := n.(started := n.started + {id});
    OnceWider(n.executed, n.started, now.started);
    assert InsertionsOk(n.side, Undecided(now), n.slots, n.pushing) by {
      InsertionsNarrow(n, id);
      assert Undecided(now) == Undecided(n) - {id};
    }
  }

  lemma RefusedKept(v: View, p: Node, m: Msg, error: nat)
    requires Safe(v, p) && In(m, p.sent) && error != 0
    requires m.id in v.me.received - v.me.queued.Keys - v.me.answers.Keys - v.me.closures.Keys && Nowhere(v.me, m.id)
    ensures Safe(Refused(v, m, error), p)
  {
    hide Safe, Nowhere;
    if m.wait {
      AnsweredKept(v, p, m, Answer(m, error, 0));
    } else {
      MarkedKept(v, p, m.id);
    }
  }

  lemma NoContextKept(v: View, p: Node, m: Msg)
    requires Safe(v, p) && In(m, p.sent)
    requires m.id in v.me.received - v.me.queued.Keys - v.me.answers.Keys - v.me.closures.Keys && Nowhere(v.me, m.id)
    ensures Safe(NoContext(v, m), p)
  {
    hide Safe, Nowhere;
    if m.wait {
      AnsweredKept(v, p, m, Answer(m, ERR_CONTEXT, 0).(wait := false, accept := false));
    } else {
      MarkedKept(v, p, m.id);
    }
  }

  lemma LooseParts(v: View, p: Node, m: Msg)
    requires Local(v.me) && Loose(v.me, p, m)
    ensures In(m, p.sent) && Nowhere(v.me, m.id)
    ensures m.id in v.me.received - v.me.queued.Keys - v.me.answers.Keys - v.me.closures.Keys - v.me.started
  {
  }

  lemma MakeLocalCallKept(v: View, p: Node, t: nat, outer: nat, m: Msg)
    requires Safe(v, p) && Loose(v.me, p, m)
    ensures Safe(MakeLocalCall(v, t, outer, m), p)
  {
    LooseParts(v, p, m);
    if outer + |Stack(v.me, t)| + 1 > v.me.maxDepth {
      hide Safe, Nowhere, Loose;
      RefusedKept(v, p, m, ERR_OVERFLOW);
    } else {
      EnterKept(v, p, t, outer, m);
    }
  }

  lemma EnterKept(v: View, p: Node, t: nat, outer: nat, m: Msg)
    requires Safe(v, p) && Loose(v.me, p, m) && outer + |Stack(v.me, t)| + 1 <= v.me.maxDepth
    ensures Safe(MakeLocalCall(v, t, outer, m), p)
  {
    hide EntriesOk, ChannelOk, ReturnedOk, AnswersOk, SentOk, Nowhere, Held;
    LooseParts(v, p, m);
    var n, now := v.me, MakeLocalCall(v, t, outer, m).me;
    var f := Handling(m);
    HeldPush(n.places, n.threads, t, f, n.places);
    assert Local(now) by {
      hide NothingLost, StacksOk, Keyed;
      FramesPush(n.maxDepth, n.sent, n.places, n.slots.Keys, n.transmitted, n.threads, t, f);
      SlotsAlike(n.slots.Keys, n.places, n.threads, n.places, now.threads);
      InsertionsNarrow(n, m.id);
      assert Undecided(now) == Undecided(n) - {m.id};
      hide InsertionsOk, FramesOk, SlotsOk, HeldAlike, OnceOk;
      OnceMore(n.executed, n.started, m.id);
    }
    hide FramesOk, SlotsOk, InsertionsOk;
    StacksPush(n.threads, p.sent, t, f);
    LostAlike(n.places, n.threads, n.transmitted, v.inbox, n.pushing, n.slots, p.answers, n.places, now.threads);
    hide NothingLost, StacksOk, HeldAlike;
    assert Keyed(now.closures, p.sent);
  }

  // ---- reading a slot ----------------------------------------------------------------------

  /** The oldest message of the slot `k` is taken. */
  function Taken(n: Node, k: nat): Node
    requires k in n.slots && n.slots[k] != []
  {
    n.(slots := n.slots[k := n.slots[k][1..]])
  }

  /** What a caller reads is an error, its own answer, or a callback aimed at it. */
  lemma HeadKinds(v: View, p: Node, t: nat, outer: nat)
    requires Safe(v, p) && Enabled(v, Read(t, outer))
    ensures
      var f := Top(v.me, t);
      var m := v.me.slots[f.m.id][0];
      || m.error != 0
      || (m.mtype == f.m.mtype && m.id == f.m.id && In(m, p.answers))
      || (m.mtype != f.m.mtype && Inserted(v.me.side, m) && m.target == f.m.id && In(m, p.sent))
  {
    hide ChannelOk, Keyed, ReturnedOk, StacksOk, NothingLost, InsertionsOk, Held, SlotsOk, Numbered;
    TopFrame(v.me, t);
    var f := Top(v.me, t);
    assert RequestOk(v.me.side, f.m.id, f.m);
    assert EntryOk(v.me.side, p.sent, p.answers, f.m.id, v.me.slots[f.m.id][0]);
  }

  lemma TakenKept(v: View, p: Node, k: nat)
    requires Safe(v, p) && k in v.me.slots && v.me.slots[k] != []
    requires Inserted(v.me.side, v.me.slots[k][0]) && v.me.slots[k][0].target == k && In(v.me.slots[k][0], p.sent)
    ensures Safe(v.(me := Taken(v.me, k)), p) && Loose(Taken(v.me, k), p, v.me.slots[k][0])
  {
    hide ChannelOk, Keyed, ReturnedOk, StacksOk, FramesOk, SlotsOk, Held, Numbered;
    var n, now := v.me, Taken(v.me, k);
    assert now.slots.Keys == n.slots.Keys;
    assert NothingLost(n.places, n.threads, n.transmitted, v.inbox, n.pushing, now.slots, p.answers) by {
      HeadNoAnswer(v, p, k);
    }
    hide NothingLost, AnswersOk, SentOk;
    assert EntriesOk(n.side, now.slots, n.pushing, p.sent, p.answers) by { hide InsertionsOk; EntriesTail(n, p, k); }
    assert InsertionsOk(n.side, Undecided(n), now.slots, n.pushing) by { hide EntriesOk; InsertionsTail(n, k); }
    assert Nowhere(now, n.slots[k][0].id) by { HeadNowhere(n, p, k); }
    assert n.slots[k][0].id in Undecided(n) by { assert QueueOk(n.side, Undecided(n), n.slots[k]); }
  }

  lemma HeadNoAnswer(v: View, p: Node, k: nat)
    requires Safe(v, p) && k in v.me.slots && v.me.slots[k] != [] && Inserted(v.me.side, v.me.slots[k][0])
    ensures
      NothingLost(v.me.places, v.me.threads, v.me.transmitted, v.inbox, v.me.pushing, Taken(v.me, k).slots, p.answers)
  {
    hide ChannelOk, Keyed, ReturnedOk, StacksOk, FramesOk, SlotsOk, Held, Numbered, InsertionsOk, EntriesOk;
    var n, slots := v.me, Taken(v.me, k).slots;
    forall c | c in p.answers && c in n.transmitted && Held(n.places, n.threads, c)
      ensures OnItsWay(v.inbox, n.pushing, slots, c, p.answers[c])
    {
      var a := p.answers[c];
      assert OnItsWay(v.inbox, n.pushing, n.slots, c, a);
      assert AnswerTo(a, n.sent[c]) && RequestOk(n.side, c, n.sent[c]);
      if c == k && a in n.slots[k] {
        assert a != n.slots[k][0];
        assert n.slots[k] == [n.slots[k][0]] + n.slots[k][1..];
      }
    }
  }

  lemma EntriesTail(n: Node, p: Node, k: nat)
    requires EntriesOk(n.side, n.slots, n.pushing, p.sent, p.answers) && k in n.slots && n.slots[k] != []
    ensures EntriesOk(n.side, Taken(n, k).slots, n.pushing, p.sent, p.answers)
  {
    hide EntryOk;
    var slots := Taken(n, k).slots;
    forall c, i | c in slots && 0 <= i < |slots[c]| ensures EntryOk(n.side, p.sent, p.answers, c, slots[c][i]) {
      if c == k {
        assert slots[c][i] == n.slots[k][i + 1];
      }
    }
  }

  lemma QueueTail(side: Side, waiting: set<nat>, q: seq<Msg>)
    requires QueueOk(side, waiting, q) && q != []
    ensures QueueOk(side, waiting, q[1..])
  {
    hide Inserted;
    var r := q[1..];
    forall i, j | 0 <= i < j < |r| && Inserted(side, r[i]) && Inserted(side, r[j]) ensures r[i].id != r[j].id {
      assert r[i] == q[i + 1] && r[j] == q[j + 1];
    }
  }

  lemma LacksTail(side: Side, q: seq<Msg>, id: nat)
    requires Lacks(side, q, id) && q != []
    ensures Lacks(side, q[1..], id)
  {
    hide Inserted;
  }

  lemma InsertionsTail(n: Node, k: nat)
    requires InsertionsOk(n.side, Undecided(n), n.slots, n.pushing) && k in n.slots && n.slots[k] != []
    ensures InsertionsOk(n.side, Undecided(n), Taken(n, k).slots, n.pushing)
  {
    hide QueueOk, Lacks, Inserted, Undecided;
    QueueTail(n.side, Undecided(n), n.slots[k]);
    if n.pushing.Some? && Inserted(n.side, n.pushing.value.m) {
      LacksTail(n.side, n.slots[k], n.pushing.value.m.id);
    }
  }

  /** Once taken from its slot, a callback is in no other: its target names the slot. */
  lemma HeadNowhere(n: Node, p: Node, k: nat)
    requires InsertionsOk(n.side, Undecided(n), n.slots, n.pushing)
    requires EntriesOk(n.side, n.slots, n.pushing, p.sent, p.answers) && k in n.slots && n.slots[k] != []
    requires Inserted(n.side, n.slots[k][0]) && n.slots[k][0].target == k && In(n.slots[k][0], p.sent)
    ensures Nowhere(Taken(n, k), n.slots[k][0].id)
  {
    var m, slots := n.slots[k][0], Taken(n, k).slots;
    forall c | c in slots ensures Lacks(n.side, slots[c], m.id) {
      if c == k {
        assert QueueOk(n.side, Undecided(n), n.slots[k]);
        assert forall i | 0 <= i < |slots[k]| :: slots[k][i] == n.slots[k][i + 1];
      } else {
        forall i | 0 <= i < |slots[c]| && Inserted(n.side, slots[c][i]) ensures slots[c][i].id != m.id {
          assert EntryOk(n.side, p.sent, p.answers, c, n.slots[c][i]);
        }
      }
    }
    if n.pushing.Some? && Inserted(n.side, n.pushing.value.m) {
      assert Lacks(n.side, n.slots[k], n.pushing.value.m.id);
    }
  }

  lemma ReadKept(v: View, p: Node, t: nat, outer: nat)
    requires Safe(v, p) && Enabled(v, Read(t, outer))
    ensures Safe(ReadSlot(v, t, outer), p)
  {
    var f := Top(v.me, t);
    var m := v.me.slots[f.m.id][0];
    HeadKinds(v, p, t, outer);
    hide Safe, ReadSlot, Inserted;
    if m.error != 0 || m.mtype == f.m.mtype {
      ReadLeaves(v, p, t, outer);
    } else {
      ReadRuns(v, p, t, outer);
    }
  }

  /** A caller that reads an error or its own answer leaves as it would leave otherwise. */
  lemma LeavesReading(v: View, t: nat, outer: nat)
    requires Enabled(v, Read(t, outer))
    ensures
      var f, left := Top(v.me, t), Left(v.me, t);
      var m := v.me.slots[f.m.id][0];
      && (m.error != 0 ==> ReadSlot(v, t, outer) == v.(me := left))
      && (m.error == 0 && m.mtype == f.m.mtype ==>
          ReadSlot(v, t, outer) == v.(me := left.(returned := left.returned[f.m.id := m])))
  {
    var n, k := v.me, Top(v.me, t).m.id;
    assert Taken(n, k).slots - {k} == n.slots - {k};
    assert Left(Taken(n, k), t) == Left(n, t);
  }

  lemma ReadLeaves(v: View, p: Node, t: nat, outer: nat)
    requires Safe(v, p) && Enabled(v, Read(t, outer))
    requires
      var f := Top(v.me, t);
      var m := v.me.slots[f.m.id][0];
      m.error != 0 || (m.mtype == f.m.mtype && m.id == f.m.id && In(m, p.answers))
    ensures Safe(ReadSlot(v, t, outer), p)
  {
    hide Safe, Left, In, ReadSlot;
    var m := v.me.slots[Top(v.me, t).m.id][0];
    LeavesReading(v, t, outer);
    LeaveKept(v, p, t);
    if m.error == 0 {
      ReturnedKept(v.(me := Left(v.me, t)), p, m);
    }
  }

  lemma ReadRuns(v: View, p: Node, t: nat, outer: nat)
    requires Safe(v, p) && Enabled(v, Read(t, outer))
    requires
      var f := Top(v.me, t);
      var m := v.me.slots[f.m.id][0];
      m.error == 0 && m.mtype != f.m.mtype && Inserted(v.me.side, m) && m.target == f.m.id && In(m, p.sent)
    ensures Safe(ReadSlot(v, t, outer), p)
  {
    var n, f := v.me, Top(v.me, t);
    var m := n.slots[f.m.id][0];
    TakenKept(v, p, f.m.id);
    var w := v.(me := Taken(n, f.m.id));
    assert ReadSlot(v, t, outer) ==
      if f.raw then w.(me := w.me.(started := w.me.started + {m.id})) else MakeLocalCall(w, t, outer, m);
    assert Local(w.me);
    hide Safe, ReadSlot, Local, MakeLocalCall;
    if f.raw {
      LooseParts(w, p, m);
      hide Nowhere, Loose;
      MarkedKept(w, p, m.id);
    } else {
      hide Loose;
      MakeLocalCallKept(w, p, t, outer, m);
    }
  }

  lemma ReturnedKept(v: View, p: Node, m: Msg)
    requires Safe(v, p) && In(m, p.answers) && m.error == 0
    ensures Safe(v.(me := v.me.(returned := v.me.returned[m.id := m])), p)
  {
    hide EntriesOk, ChannelOk, Keyed, AnswersOk, StacksOk, NothingLost, FramesOk, SlotsOk, InsertionsOk, SentOk;
  }

  // ---- dispatching what arrives ------------------------------------------------------------

  lemma ChannelTail(side: Side, unread: set<nat>, chan: seq<Msg>, sent: Messages, answers: Messages)
    requires ChannelOk(side, unread, chan, sent, answers) && chan != []
    ensures
      var left := if OwnType(side, chan[0].mtype) then unread else unread - {chan[0].id};
      ChannelOk(side, left, chan[1..], sent, answers)
  {
    var left := if OwnType(side, chan[0].mtype) then unread else unread - {chan[0].id};
    var rest := chan[1..];
    forall i | 0 <= i < |rest| ensures InFlightOk(side, left, sent, answers, rest[i]) {
      assert rest[i] == chan[i + 1];
      assert InFlightOk(side, unread, sent, answers, chan[i + 1]);
    }
    forall i, j | 0 <= i < j < |rest| && !OwnType(side, rest[i].mtype) && !OwnType(side, rest[j].mtype)
      ensures rest[i].id != rest[j].id
    {
      assert rest[i] == chan[i + 1] && rest[j] == chan[j + 1];
    }
  }

  lemma HeadInFlight(v: View, p: Node)
    requires Safe(v, p) && v.inbox != []
    ensures InFlightOk(v.me.side, Unread(v.me, p), p.sent, p.answers, v.inbox[0])
  {
  }

  lemma ReceivedKept(v: View, p: Node)
    requires Safe(v, p) && v.inbox != [] && v.me.pushing == None && OwnType(p.side, v.inbox[0].mtype)
    ensures Safe(Received(v), p) && Loose(Received(v).me, p, v.inbox[0])
  {
    hide EntriesOk, Keyed, ReturnedOk, StacksOk, FramesOk, SlotsOk, Numbered, Held;
    hide NothingLost, AnswersOk, SentOk, QueueOk;
    var n, now, m := v.me, Received(v).me, v.inbox[0];
    HeadInFlight(v, p);
    assert m.id !in n.received;
    assert Undecided(now) == Undecided(n) + {m.id};
    DecidedNowhere(n, m.id);
    InsertionsWiden(n, Undecided(now));
    ChannelTail(n.side, Unread(n, p), v.inbox, p.sent, p.answers);
    assert Unread(now, p) == Unread(n, p) - {m.id};
    hide InsertionsOk, ChannelOk;
    RequestNotLost(v, p);
  }

  lemma InsertionsWiden(n: Node, wider: set<nat>)
    requires InsertionsOk(n.side, Undecided(n), n.slots, n.pushing) && Undecided(n) <= wider
    ensures InsertionsOk(n.side, wider, n.slots, n.pushing)
  {
    forall k | k in n.slots ensures QueueOk(n.side, wider, n.slots[k]) {
      assert QueueOk(n.side, Undecided(n), n.slots[k]);
    }
  }

  lemma RequestNotLost(v: View, p: Node)
    requires Local(v.me) && v.inbox != [] && !OwnType(v.me.side, v.inbox[0].mtype) && AnswersOk(v.me.sent, p.answers)
    requires NothingLost(v.me.places, v.me.threads, v.me.transmitted, v.inbox, v.me.pushing, v.me.slots, p.answers)
    ensures NothingLost(v.me.places, v.me.threads, v.me.transmitted, v.inbox[1..], v.me.pushing, v.me.slots, p.answers)
  {
    hide SlotsOk, SentOk, AnswersOk, FramesOk, InsertionsOk, Held;
    var n, m := v.me, v.inbox[0];
    assert v.inbox == [m] + v.inbox[1..];
    forall k | k in p.answers && k in n.transmitted && Held(n.places, n.threads, k)
      ensures OnItsWay(v.inbox[1..], n.pushing, n.slots, k, p.answers[k])
    {
      assert OnItsWay(v.inbox, n.pushing, n.slots, k, p.answers[k]);
      AnswerKey(n, p, k);
    }
  }

  lemma QueuedKept(v: View, p: Node, m: Msg)
    requires Safe(v, p) && Loose(v.me, p, m)
    ensures Safe(v.(me := v.me.(queued := v.me.queued[m.id := m])), p)
  {
    hide FramesOk, SlotsOk, EntriesOk, ChannelOk, ReturnedOk, AnswersOk, StacksOk, NothingLost, Nowhere, SentOk;
    var n := v.me;
    var now := n.(queued := n.queued[m.id := m]);
    assert InsertionsOk(n.side, Undecided(now), n.slots, n.pushing) by {
      InsertionsNarrow(n, m.id);
      assert Undecided(now) == Undecided(n) - {m.id};
    }
    hide InsertionsOk;
    assert Keyed(now.queued, p.sent);
  }

  /** A server below its limit never sends the id 0, so no client broadcasts a request. */
  lemma IdPositive(p: Node, m: Msg)
    requires SentOk(p.side, p.calls, p.sent) && p.side == Server && In(m, p.sent)
    ensures m.id != 0
  {
    assert Numbered(p.side, p.calls, m.id);
    var i: nat :| 1 <= i <= p.calls && m.id == CallId(p.side, i);
    ServerIdZero(i);
  }

  lemma ProcessCallKept(v: View, p: Node, m: Msg, admit: bool)
    requires Safe(v, p) && Loose(v.me, p, m)
    ensures Safe(ProcessCall(v, m, admit), p)
  {
    assert v.me.side == Client ==> m.id != 0 by {
      if v.me.side == Client {
        IdPositive(p, m);
      }
    }
    LooseParts(v, p, m);
    QueuedKept(v, p, m);
    hide Safe, Loose, Nowhere;
    if v.me.side == Server && !admit {
      RefusedKept(v, p, m, ERR_BUSY);
    }
  }

  lemma AimedKept(v: View, p: Node, m: Msg)
    requires Safe(v, p) && Loose(v.me, p, m) && v.me.pushing == None && Inserted(v.me.side, m)
    ensures Safe(Aimed(v, m.target, m), p)
  {
    hide FramesOk, SlotsOk, ChannelOk, ReturnedOk, AnswersOk, StacksOk, Keyed, SentOk;
    var n := v.me;
    var now := n.(pushing := Some(Delivery(m.target, m)));
    assert EntriesOk(n.side, n.slots, now.pushing, p.sent, p.answers);
    hide EntriesOk;
    forall k | k in p.answers && k in n.transmitted && Held(n.places, n.threads, k)
      ensures OnItsWay(v.inbox, now.pushing, n.slots, k, p.answers[k])
    {
      assert OnItsWay(v.inbox, n.pushing, n.slots, k, p.answers[k]);
    }
  }

  function AnswerSlot(n: Node, m: Msg): Option<Delivery> {
    if m.id in n.slots then Some(Delivery(m.id, m)) else None
  }

  lemma AnswerArrives(v: View, p: Node)
    requires Safe(v, p) && v.inbox != [] && v.me.pushing == None && OwnType(v.me.side, v.inbox[0].mtype)
    ensures Safe(v.(inbox := v.inbox[1..], me := v.me.(pushing := AnswerSlot(v.me, v.inbox[0]))), p)
  {
    hide SlotsOk, ReturnedOk, Keyed, StacksOk, SentOk, AnswersOk, FramesOk, NothingLost;
    var n, m := v.me, v.inbox[0];
    HeadInFlight(v, p);
    assert EntriesOk(n.side, n.slots, AnswerSlot(n, m), p.sent, p.answers) by {
      hide ChannelOk, EntryOk, InsertionsOk;
      assert EntryOk(n.side, p.sent, p.answers, m.id, m);
    }
    hide EntriesOk;
    assert InsertionsOk(n.side, Undecided(n), n.slots, AnswerSlot(n, m)) by { hide ChannelOk; }
    hide InsertionsOk;
    ChannelTail(n.side, Unread(n, p), v.inbox, p.sent, p.answers);
    hide ChannelOk;
    AnswerNotLost(v, p);
  }

  lemma AnswerNotLost(v: View, p: Node)
    requires Local(v.me) && v.inbox != [] && v.me.pushing == None && AnswersOk(v.me.sent, p.answers)
    requires NothingLost(v.me.places, v.me.threads, v.me.transmitted, v.inbox, None, v.me.slots, p.answers)
    ensures
      var pushing := AnswerSlot(v.me, v.inbox[0]);
      NothingLost(v.me.places, v.me.threads, v.me.transmitted, v.inbox[1..], pushing, v.me.slots, p.answers)
  {
    hide SlotsOk, SentOk, AnswersOk, FramesOk, InsertionsOk, Held;
    var n, m := v.me, v.inbox[0];
    assert v.inbox == [m] + v.inbox[1..];
    forall k | k in p.answers && k in n.transmitted && Held(n.places, n.threads, k)
      ensures OnItsWay(v.inbox[1..], AnswerSlot(n, m), n.slots, k, p.answers[k])
    {
      assert OnItsWay(v.inbox, None, n.slots, k, p.answers[k]);
      AnswerKey(n, p, k);
      HeldHasSlot(n, k);
    }
  }

  lemma AnswerKey(n: Node, p: Node, k: nat)
    requires AnswersOk(n.sent, p.answers) && SentOk(n.side, n.calls, n.sent) && k in p.answers
    ensures p.answers[k].id == k && OwnType(n.side, p.answers[k].mtype)
  {
    assert AnswerTo(p.answers[k], n.sent[k]) && RequestOk(n.side, k, n.sent[k]);
  }

  lemma HeldHasSlot(n: Node, k: nat)
    requires FramesOk(n.maxDepth, n.sent, n.places, n.slots.Keys, n.transmitted, n.threads)
    requires Held(n.places, n.threads, k)
    ensures k in n.slots
  {
    var q := n.places[k];
    assert FrameOk(n.maxDepth, n.sent, n.places, n.slots.Keys, n.transmitted, q.thread, q.depth,
        n.threads[q.thread][q.depth]);
  }

  lemma DeliverKept(v: View, p: Node, admit: bool)
    requires Safe(v, p) && Enabled(v, Deliver(admit))
    ensures Safe(Dispatch(v, admit), p)
  {
    var m := v.inbox[0];
    HeadInFlight(v, p);
    hide Safe, Local, Link, Loose;
    if OwnType(v.me.side, m.mtype) {
      AnswerArrives(v, p);
      AnswerDispatch(v, admit);
    } else {
      ReceivedKept(v, p);
      RequestArrives(v, p, admit);
    }
  }

  lemma AnswerDispatch(v: View, admit: bool)
    requires v.inbox != [] && v.me.pushing == None && OwnType(v.me.side, v.inbox[0].mtype)
    ensures Dispatch(v, admit) == v.(inbox := v.inbox[1..], me := v.me.(pushing := AnswerSlot(v.me, v.inbox[0])))
  {
    hide Received, ProcessCall, NoContext;
    assert v.me == v.me.(pushing := None);
  }

  lemma RequestArrives(v: View, p: Node, admit: bool)
    requires v.inbox != [] && v.me.pushing == None && OwnType(Other(v.me.side), v.inbox[0].mtype)
    requires Safe(Received(v), p) && Loose(Received(v).me, p, v.inbox[0])
    ensures Safe(Dispatch(v, admit), p)
  {
    var w, m := Received(v), v.inbox[0];
    LooseParts(w, p, m);
    assert w.me.slots == v.me.slots && w.me.pushing == None && w.me.side == v.me.side;
    hide Safe, Loose, Nowhere, ProcessCall, NoContext, Received, Aimed;
    if m.mtype == DirectType(Other(v.me.side)) {
      ProcessCallKept(w, p, m, admit);
    } else if m.target in v.me.slots {
      AimedKept(w, p, m);
    } else if m.alone {
      ProcessCallKept(w, p, m, admit);
    } else {
      NoContextKept(w, p, m);
    }
  }

  // ---- filling slots -----------------------------------------------------------------------

  lemma PushKept(v: View, p: Node)
    requires Safe(v, p) && v.me.pushing != None
    ensures Safe(Next(v, Push), p)
  {
    hide ReturnedOk, Keyed, StacksOk, ChannelOk, SlotsOk, SentOk, AnswersOk, FramesOk, NothingLost, InsertionsOk;
    hide EntriesOk;
    var n, d := v.me, v.me.pushing.value;
    var slots := Pushed(n.slots, d);
    assert slots.Keys == n.slots.Keys;
    PushedInsertions(n);
    PushedEntries(n, p);
    PushedNotLost(v, p);
    assert Next(v, Push).me == n.(pushing := None, slots := slots);
  }

  lemma PushedEntries(n: Node, p: Node)
    requires EntriesOk(n.side, n.slots, n.pushing, p.sent, p.answers) && n.pushing != None
    ensures EntriesOk(n.side, Pushed(n.slots, n.pushing.value), None, p.sent, p.answers)
  {
    hide EntryOk;
  }

  lemma PushedNotLost(v: View, p: Node)
    requires Local(v.me) && v.me.pushing != None
    requires NothingLost(v.me.places, v.me.threads, v.me.transmitted, v.inbox, v.me.pushing, v.me.slots, p.answers)
    ensures
      NothingLost(v.me.places, v.me.threads, v.me.transmitted, v.inbox, None, Pushed(v.me.slots, v.me.pushing.value),
          p.answers)
  {
    hide FramesOk, InsertionsOk, SentOk, SlotsOk, Held;
    var n := v.me;
    var slots := Pushed(n.slots, n.pushing.value);
    forall k | k in p.answers && k in n.transmitted && Held(n.places, n.threads, k)
      ensures OnItsWay(v.inbox, None, slots, k, p.answers[k])
    {
      assert OnItsWay(v.inbox, n.pushing, n.slots, k, p.answers[k]);
      HeldHasSlot(n, k);
    }
  }

  lemma PushedInsertions(n: Node)
    requires InsertionsOk(n.side, Undecided(n), n.slots, n.pushing) && n.pushing != None
    ensures
      var d := n.pushing.value;
      InsertionsOk(n.side, Undecided(n), Pushed(n.slots, d), None)
  {
    var d := n.pushing.value;
    if d.slot in n.slots {
      var q := n.slots[d.slot];
      assert QueueOk(n.side, Undecided(n), q);
      assert Inserted(n.side, d.m) ==> Lacks(n.side, q, d.m.id);
      assert QueueOk(n.side, Undecided(n), q + [d.m]);
    }
  }

  lemma SystemErrorKept(v: View, p: Node, error: nat)
    requires Safe(v, p) && error != 0
    ensures Safe(Next(v, SystemError(error)), p)
  {
    hide ReturnedOk, Keyed, StacksOk, ChannelOk, SlotsOk, SentOk, FramesOk, AnswersOk, NothingLost, InsertionsOk;
    hide EntriesOk;
    var n, slots := v.me, Broadcast(v.me.slots, SystemErrorMessage(error));
    assert slots.Keys == n.slots.Keys;
    BroadcastInsertions(n, SystemErrorMessage(error));
    BroadcastEntries(n, p, SystemErrorMessage(error));
    BroadcastNotLost(v, p, SystemErrorMessage(error));
  }

  lemma BroadcastInsertions(n: Node, m: Msg)
    requires InsertionsOk(n.side, Undecided(n), n.slots, n.pushing) && m.mtype == MessageNone
    ensures InsertionsOk(n.side, Undecided(n), Broadcast(n.slots, m), n.pushing)
  {
    var slots := Broadcast(n.slots, m);
    forall k | k in slots ensures QueueOk(n.side, Undecided(n), slots[k]) {
      assert QueueOk(n.side, Undecided(n), n.slots[k]);
    }
  }

  lemma BroadcastEntries(n: Node, p: Node, m: Msg)
    requires EntriesOk(n.side, n.slots, n.pushing, p.sent, p.answers) && m.mtype == MessageNone && m.error != 0
    ensures EntriesOk(n.side, Broadcast(n.slots, m), n.pushing, p.sent, p.answers)
  {
    forall k | k in n.slots ensures EntryOk(n.side, p.sent, p.answers, k, m) {
    }
    hide EntryOk;
  }

  lemma BroadcastNotLost(v: View, p: Node, m: Msg)
    requires NothingLost(v.me.places, v.me.threads, v.me.transmitted, v.inbox, v.me.pushing, v.me.slots, p.answers)
    ensures
      NothingLost(v.me.places, v.me.threads, v.me.transmitted, v.inbox, v.me.pushing, Broadcast(v.me.slots, m),
          p.answers)
  {
    hide Held;
    var n, slots := v.me, Broadcast(v.me.slots, m);
    forall k | k in p.answers && k in n.transmitted && Held(n.places, n.threads, k)
      ensures OnItsWay(v.inbox, n.pushing, slots, k, p.answers[k])
    {
      assert OnItsWay(v.inbox, n.pushing, n.slots, k, p.answers[k]);
    }
  }

  // ---- handlers ----------------------------------------------------------------------------

  lemma StartQueuedKept(v: View, p: Node, t: nat, id: nat)
    requires Safe(v, p) && Enabled(v, StartQueued(t, id))
    ensures Safe(Next(v, StartQueued(t, id)), p)
  {
    var n := v.me;
    var w := v.(me := n.(queued := n.queued - {id}));
    assert Safe(w, p) && Loose(w.me, p, n.queued[id]) by { UnqueuedKept(v, p, id); }
    hide Safe, Loose, MakeLocalCall;
    MakeLocalCallKept(w, p, t, 0, n.queued[id]);
  }

  lemma UnqueuedKept(v: View, p: Node, id: nat)
    requires Safe(v, p) && id in v.me.queued
    ensures
      var w := v.(me := v.me.(queued := v.me.queued - {id}));
      Safe(w, p) && Loose(w.me, p, v.me.queued[id])
  {
    hide FramesOk, SlotsOk, EntriesOk, ChannelOk, ReturnedOk, AnswersOk, StacksOk, NothingLost, SentOk;
    var n := v.me;
    var now := n.(queued := n.queued - {id});
    assert Undecided(now) == Undecided(n) + {id};
    DecidedNowhere(n, id);
    InsertionsWiden(n, Undecided(now));
  }

  lemma ClosureGone(v: View, p: Node, id: nat)
    requires Safe(v, p) && id in v.me.closures
    ensures Safe(v.(me := v.me.(closures := v.me.closures - {id})), p)
    ensures In(v.me.closures[id], p.sent) && v.me.closures[id].id == id
    ensures id in v.me.received - v.me.queued.Keys - v.me.answers.Keys && Nowhere(v.me, id)
  {
    hide FramesOk, SlotsOk, EntriesOk, ChannelOk, ReturnedOk, AnswersOk, StacksOk, NothingLost, SentOk;
    DecidedNowhere(v.me, id);
  }

  lemma RunClosureKept(v: View, p: Node, id: nat, error: nat, data: int)
    requires Safe(v, p) && id in v.me.closures
    ensures Safe(Next(v, RunClosure(id, error, data)), p)
  {
    ClosureGone(v, p, id);
    var w := v.(me := v.me.(closures := v.me.closures - {id}));
    var m := v.me.closures[id];
    assert AnswerTo(Answer(m, error, data), m);
    assert Next(v, RunClosure(id, error, data)) == Answered(w, Answer(m, error, data));
    assert Nowhere(w.me, id);
    hide Safe, Answered, Nowhere;
    AnsweredKept(w, p, m, Answer(m, error, data));
  }

  lemma PopHandlingKept(v: View, p: Node, t: nat)
    requires Safe(v, p) && Stack(v.me, t) != [] && Top(v.me, t).Handling?
    ensures Safe(v.(me := PopFrame(v.me, t)), p)
  {
    hide EntriesOk, ChannelOk, Keyed, ReturnedOk, AnswersOk, SentOk, InsertionsOk, Held;
    var n, now := v.me, PopFrame(v.me, t);
    TopFrame(n, t);
    FramesPop(n.maxDepth, n.sent, n.places, n.slots.Keys, n.transmitted, n.threads, t);
    forall k ensures Held(n.places, now.threads, k) == Held(n.places, n.threads, k) {
      HeldPop(n.places, n.threads, t, k);
    }
    assert HeldAlike(n.places, n.threads, n.places, now.threads);
    SlotsAlike(n.slots.Keys, n.places, n.threads, n.places, now.threads);
    LostAlike(n.places, n.threads, n.transmitted, v.inbox, n.pushing, n.slots, p.answers, n.places, now.threads);
    StacksPop(n.threads, p.sent, t);
    hide FramesOk, SlotsOk, NothingLost, StacksOk, HeldAlike;
  }

  lemma ThrowKept(v: View, p: Node, t: nat, error: nat)
    requires Safe(v, p) && Enabled(v, Throw(t, error))
    ensures Safe(Next(v, Throw(t, error)), p)
  {
    var m := Top(v.me, t).m;
    assert In(m, p.sent) by { HandledGenuine(v, p, t); }
    PopHandlingKept(v, p, t);
    var u := v.(me := PopFrame(v.me, t));
    ClosureGone(u, p, m.id);
    var w := u.(me := u.me.(closures := u.me.closures - {m.id}));
    assert Nowhere(w.me, m.id);
    assert Next(v, Throw(t, error)) == Refused(w, m, error);
    hide Safe, Refused, Nowhere;
    RefusedKept(w, p, m, error);
  }

  lemma HandledGenuine(v: View, p: Node, t: nat)
    requires Safe(v, p) && Stack(v.me, t) != [] && Top(v.me, t).Handling?
    ensures In(Top(v.me, t).m, p.sent)
  {
    hide EntriesOk, ChannelOk, Keyed, ReturnedOk, AnswersOk, SentOk, InsertionsOk, Held, NothingLost, SlotsOk;
    assert HandledOk(v.me.threads[t][|Stack(v.me, t)| - 1], p.sent);
  }

  /** Every step of a node keeps its own invariant and its peer's. */
  lemma StepKept(v: View, p: Node, step: Step)
    requires Safe(v, p) && Enabled(v, step)
    ensures Safe(Next(v, step), p)
  {
    match step
    case Begin(_, _, _, _, _, _, _) => BeginKept(v, p, step);
    case Register(t) => RegisterKept(v, p, t);
    case Transmit(t) => TransmitKept(v, p, t);
    case Leave(t) => LeaveKept(v, p, t);
    case Read(t, outer) => ReadKept(v, p, t, outer);
    case Deliver(admit) => DeliverKept(v, p, admit);
    case Push => PushKept(v, p);
    case StartQueued(t, id) => StartQueuedKept(v, p, t, id);
    case RunClosure(id, error, data) => RunClosureKept(v, p, id, error, data);
    case Return(t) => PopHandlingKept(v, p, t);
    case Throw(t, error) => ThrowKept(v, p, t, error);
    case SystemError(error) => SystemErrorKept(v, p, error);
  }
}
