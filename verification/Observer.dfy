/**
 * The observer of include/vtrc/common/observer/base.h: slots subscribed are added to the list when an
 * emission begins, slots unsubscribed are dropped when one meets them or ends.
 */
module Observer {

  datatype SlotInfo = SlotInfo(slot: nat, id: nat)

  /** What a registry holds: `list_`, `added_`, `removed_` and the next id. */
  datatype Registry = Registry(list: seq<SlotInfo>, added: seq<SlotInfo>, removed: set<nat>, nextId: nat)

  datatype Action = Subscribe(slot: nat) | Unsubscribe(id: nat)

  predicate Before(a: SlotInfo, b: SlotInfo) {
    a.id < b.id
  }

  predicate Sorted(s: seq<SlotInfo>) {
    forall i, j | 0 <= i < j < |s| :: Before(s[i], s[j])
  }

  /** The slots of `s` whose ids are not in `gone`. */
  function Filter(s: seq<SlotInfo>, gone: set<nat>): seq<SlotInfo> {
    if s == [] then []
    else (if s[0].id in gone then [] else [s[0]]) + Filter(s[1..], gone)
  }

  /** The slots subscribed and not unsubscribed, in order of subscription. */
  function Live(r: Registry): seq<SlotInfo> {
    Filter(r.list + r.added, r.removed)
  }

  predicate Below(s: seq<SlotInfo>, limit: nat) {
    forall i | 0 <= i < |s| :: s[i].id < limit
  }

  predicate Free(s: seq<SlotInfo>, gone: set<nat>) {
    forall i | 0 <= i < |s| :: s[i].id !in gone
  }

  /** Ids increase along the list and then the added slots, all below the next, and no added slot is removed. */
  predicate Inv(r: Registry) {
    && Sorted(r.list + r.added) && Below(r.list + r.added, r.nextId)
    && Free(r.added, r.removed) && (forall k | k in r.removed :: k < r.nextId)
  }

  /** `connect`, and `unsubscribe` of an id some `connect` returned. */
  function Act(r: Registry, a: Action): Registry {
    match a
    case Subscribe(slot) => r.(added := r.added + [SlotInfo(slot, r.nextId)], nextId := r.nextId + 1)
    case Unsubscribe(id) =>
      if id < r.nextId then r.(removed := r.removed + {id}, added := Filter(r.added, {id})) else r
  }

  function ActAll(r: Registry, actions: seq<Action>): Registry
    decreases |actions|
  {
    if actions == [] then r else ActAll(Act(r, actions[0]), actions[1..])
  }

  // ---- filtering ---------------------------------------------------------------------------

  lemma {:induction false} FilterConcat(a: seq<SlotInfo>, b: seq<SlotInfo>, gone: set<nat>)
    ensures Filter(a + b, gone) == Filter(a, gone) + Filter(b, gone)
  {
    if a == [] {
      assert a + b == b;
    } else {
      assert (a + b)[1..] == a[1..] + b;
      FilterConcat(a[1..], b, gone);
    }
  }

  lemma {:induction false} FilterTwice(s: seq<SlotInfo>, a: set<nat>, b: set<nat>)
    ensures Filter(Filter(s, a), b) == Filter(s, a + b)
  {
    if s != [] {
      FilterTwice(s[1..], a, b);
      FilterConcat(if s[0].id in a then [] else [s[0]], Filter(s[1..], a), b);
    }
  }

  lemma {:induction false} FilterNone(s: seq<SlotInfo>, gone: set<nat>)
    requires Free(s, gone)
    ensures Filter(s, gone) == s
  {
    if s != [] {
      FilterNone(s[1..], gone);
    }
  }

  /** Filtering looks at the ids that occur, and no others. */
  lemma {:induction false} FilterAlike(s: seq<SlotInfo>, a: set<nat>, b: set<nat>)
    requires forall i | 0 <= i < |s| :: s[i].id in a <==> s[i].id in b
    ensures Filter(s, a) == Filter(s, b)
  {
    if s != [] {
      forall i | 0 <= i < |s[1..]| ensures s[1..][i].id in a <==> s[1..][i].id in b {
        assert s[1..][i] == s[i + 1];
      }
      FilterAlike(s[1..], a, b);
    }
  }

  function Without(s: seq<SlotInfo>, i: nat): seq<SlotInfo>
    requires i < |s|
  {
    s[..i] + s[i + 1..]
  }

  /** In a sorted sequence one id occurs once: to filter it out is to remove that element. */
  lemma {:induction false} DropOne(s: seq<SlotInfo>, i: nat, gone: set<nat>)
    requires Sorted(s) && i < |s|
    ensures Filter(Without(s, i), gone) == Filter(s, gone + {s[i].id})
    decreases i
  {
    var rest := s[1..];
    assert Sorted(rest) by { SortedTail(s); }
    if i == 0 {
      assert Without(s, 0) == rest;
      forall j | 0 <= j < |rest| ensures rest[j].id != s[0].id {
        assert Before(s[0], s[j + 1]);
      }
      FilterAlike(rest, gone, gone + {s[0].id});
    } else {
      assert Before(s[0], s[i]);
      assert rest[i - 1] == s[i];
      assert Without(s, i)[1..] == Without(rest, i - 1);
      DropOne(rest, i - 1, gone);
    }
  }

  lemma SortedTail(s: seq<SlotInfo>)
    requires Sorted(s) && s != []
    ensures Sorted(s[1..])
  {
    forall i, j | 0 <= i < j < |s[1..]| ensures Before(s[1..][i], s[1..][j]) {
      assert Before(s[i + 1], s[j + 1]);
    }
  }

  lemma {:induction false} FilterNothing(s: seq<SlotInfo>)
    ensures Filter(s, {}) == s
  {
    FilterNone(s, {});
  }

  lemma {:induction false} FilterSorted(s: seq<SlotInfo>, gone: set<nat>, low: nat, limit: nat)
    requires Sorted(s) && Below(s, limit) && forall i | 0 <= i < |s| :: low <= s[i].id
    ensures Sorted(Filter(s, gone)) && Below(Filter(s, gone), limit)
    ensures forall i | 0 <= i < |Filter(s, gone)| :: low <= Filter(s, gone)[i].id
  {
    if s != [] {
      forall i | 0 <= i < |s[1..]| ensures s[0].id + 1 <= s[1..][i].id {
        assert Before(s[0], s[i + 1]);
      }
      FilterSorted(s[1..], gone, s[0].id + 1, limit);
    }
  }

  // ---- subscribing and unsubscribing -------------------------------------------------------

  /** What an action does to the live slots. */
  function LiveAct(live: seq<SlotInfo>, nextId: nat, a: Action): seq<SlotInfo> {
    match a
    case Subscribe(slot) => live + [SlotInfo(slot, nextId)]
    case Unsubscribe(id) => Filter(live, {id})
  }

  predicate Precedes(a: seq<SlotInfo>, b: seq<SlotInfo>) {
    forall i, j | 0 <= i < |a| && 0 <= j < |b| :: Before(a[i], b[j])
  }

  lemma SortedParts(a: seq<SlotInfo>, b: seq<SlotInfo>)
    requires Sorted(a + b)
    ensures Sorted(a) && Sorted(b) && Precedes(a, b)
  {
    var s := a + b;
    assert forall i | 0 <= i < |a| :: s[i] == a[i];
    assert forall i | 0 <= i < |b| :: s[|a| + i] == b[i];
    hide Before;
    forall i, j | 0 <= i < j < |b| ensures Before(b[i], b[j]) {
      assert Before(s[|a| + i], s[|a| + j]);
    }
    forall i, j | 0 <= i < |a| && 0 <= j < |b| ensures Before(a[i], b[j]) {
      assert Before(s[i], s[|a| + j]);
    }
  }

  lemma SortedWhole(a: seq<SlotInfo>, b: seq<SlotInfo>)
    requires Sorted(a) && Sorted(b) && Precedes(a, b)
    ensures Sorted(a + b)
  {
    hide Before;
  }

  lemma {:induction false} FilterMember(s: seq<SlotInfo>, gone: set<nat>, i: nat)
    requires i < |Filter(s, gone)|
    ensures exists j :: 0 <= j < |s| && s[j] == Filter(s, gone)[i] && s[j].id !in gone
  {
    if s[0].id !in gone && i == 0 {
      assert s[0] == Filter(s, gone)[0];
    } else {
      var k := if s[0].id in gone then i else i - 1;
      FilterMember(s[1..], gone, k);
      var j :| 0 <= j < |s[1..]| && s[1..][j] == Filter(s[1..], gone)[k] && s[1..][j].id !in gone;
      assert s[j + 1] == Filter(s, gone)[i];
    }
  }

  lemma BelowParts(a: seq<SlotInfo>, b: seq<SlotInfo>, limit: nat)
    ensures Below(a + b, limit) <==> Below(a, limit) && Below(b, limit)
  {
    if Below(a + b, limit) {
      assert forall i | 0 <= i < |a| :: (a + b)[i] == a[i];
      assert forall i | 0 <= i < |b| :: (a + b)[|a| + i] == b[i];
    }
  }

  lemma SortedOneMore(s: seq<SlotInfo>, x: SlotInfo)
    requires Sorted(s) && Below(s, x.id)
    ensures Sorted(s + [x]) && Below(s + [x], x.id + 1)
  {
  }

  lemma FreeOneMore(s: seq<SlotInfo>, gone: set<nat>, x: SlotInfo)
    requires Free(s, gone) && x.id !in gone
    ensures Free(s + [x], gone) && Filter([x], gone) == [x]
  {
  }

  lemma SubscribeKept(r: Registry, slot: nat)
    requires Inv(r)
    ensures Inv(Act(r, Subscribe(slot))) && Live(Act(r, Subscribe(slot))) == LiveAct(Live(r), r.nextId, Subscribe(slot))
  {
    hide Sorted, Below, Free, Filter;
    var x := SlotInfo(slot, r.nextId);
    assert r.list + (r.added + [x]) == (r.list + r.added) + [x];
    SortedOneMore(r.list + r.added, x);
    FreeOneMore(r.added, r.removed, x);
    FilterConcat(r.list + r.added, [x], r.removed);
  }

  lemma FilterPrecedes(a: seq<SlotInfo>, b: seq<SlotInfo>, ga: set<nat>, gb: set<nat>)
    requires Precedes(a, b)
    ensures Precedes(Filter(a, ga), Filter(b, gb))
  {
    hide Before, Filter;
    var fa, fb := Filter(a, ga), Filter(b, gb);
    forall i, j | 0 <= i < |fa| && 0 <= j < |fb| ensures Before(fa[i], fb[j]) {
      FilterMember(a, ga, i);
      FilterMember(b, gb, j);
    }
  }

  lemma FilterFree(s: seq<SlotInfo>, removed: set<nat>, gone: set<nat>)
    requires Free(s, removed)
    ensures Free(Filter(s, gone), removed + gone)
  {
    hide Filter;
    var f := Filter(s, gone);
    forall j | 0 <= j < |f| ensures f[j].id !in removed + gone {
      FilterMember(s, gone, j);
    }
  }

  /** Filtering the list and the added slots, each by its own ids, keeps their common order. */
  lemma FilterOrdered(a: seq<SlotInfo>, b: seq<SlotInfo>, ga: set<nat>, gb: set<nat>, limit: nat)
    requires Sorted(a + b) && Below(a + b, limit)
    ensures Sorted(Filter(a, ga) + Filter(b, gb)) && Below(Filter(a, ga) + Filter(b, gb), limit)
  {
    hide Sorted, Below, Filter, Precedes;
    SortedParts(a, b);
    BelowParts(a, b, limit);
    FilterSorted(a, ga, 0, limit);
    FilterSorted(b, gb, 0, limit);
    FilterPrecedes(a, b, ga, gb);
    SortedWhole(Filter(a, ga), Filter(b, gb));
    BelowParts(Filter(a, ga), Filter(b, gb), limit);
  }

  lemma UnsubscribeKept(r: Registry, id: nat)
    requires Inv(r) && id < r.nextId
    ensures Inv(Act(r, Unsubscribe(id))) && Live(Act(r, Unsubscribe(id))) == LiveAct(Live(r), r.nextId, Unsubscribe(id))
  {
    hide Sorted, Below, Filter, Free;
    FilterOrdered(r.list, r.added, {}, {id}, r.nextId);
    FilterNothing(r.list);
    FilterFree(r.added, r.removed, {id});
    UnsubscribeLive(r, id);
  }

  lemma UnsubscribeLive(r: Registry, id: nat)
    ensures Filter(r.list + Filter(r.added, {id}), r.removed + {id}) == Filter(Live(r), {id})
  {
    FilterConcat(r.list, Filter(r.added, {id}), r.removed + {id});
    FilterTwice(r.added, {id}, r.removed + {id});
    assert {id} + (r.removed + {id}) == r.removed + {id};
    FilterConcat(r.list, r.added, r.removed + {id});
    FilterTwice(r.list + r.added, r.removed, {id});
  }

  // ---- an emission -------------------------------------------------------------------------

  /** What happens between one slot's turn and the next: actions of other threads or of the slot that just ran. */
  datatype Turn = Turn(actions: seq<Action>, expires: bool)

  /** An emission under way: the registry, how many nodes were passed and kept, and the slots that ran. */
  datatype Emission = Emission(reg: Registry, pos: nat, ran: seq<SlotInfo>)

  /** `splice_added`. */
  function Spliced(r: Registry): Registry {
    r.(list := r.list + r.added, added := [])
  }

  /** A slot's turn: it is skipped and dropped if removed, otherwise run, and dropped if it expired. */
  function VisitNow(r: Registry, pos: nat, ran: seq<SlotInfo>, expires: bool): Emission
    requires pos < |r.list|
  {
    var s := r.list[pos];
    if s.id in r.removed then
      Emission(r.(removed := r.removed - {s.id}, list := Without(r.list, pos)), pos, ran)
    else if expires then Emission(r.(list := Without(r.list, pos)), pos, ran + [s])
    else Emission(r, pos + 1, ran + [s])
  }

  /** The next slot's turn, after what happens before it. */
  function Visit(e: Emission, turn: Turn): Emission
    requires e.pos < |ActAll(e.reg, turn.actions).list|
  {
    VisitNow(ActAll(e.reg, turn.actions), e.pos, e.ran, turn.expires)
  }

  lemma {:induction false} ActAllList(r: Registry, actions: seq<Action>)
    ensures ActAll(r, actions).list == r.list && r.removed <= ActAll(r, actions).removed
    decreases |actions|
  {
    if actions != [] {
      ActAllList(Act(r, actions[0]), actions[1..]);
    }
  }

  function TurnAt(script: seq<Turn>): Turn {
    if script == [] then Turn([], false) else script[0]
  }

  function Rest(script: seq<Turn>): seq<Turn> {
    if script == [] then [] else script[1..]
  }

  function Emitted(e: Emission, script: seq<Turn>): Emission
    requires e.pos <= |e.reg.list|
    decreases |e.reg.list| - e.pos
  {
    ActAllList(e.reg, TurnAt(script).actions);
    if e.pos == |e.reg.list| then e else Emitted(Visit(e, TurnAt(script)), Rest(script))
  }

  /** `clear_removed`. */
  function Cleared(r: Registry): Registry {
    r.(list := Filter(r.list, r.removed), removed := {})
  }

  // ---- which slots run ---------------------------------------------------------------------

  function NextId(nextId: nat, actions: seq<Action>): nat
    decreases |actions|
  {
    if actions == [] then nextId
    else NextId(if actions[0].Subscribe? then nextId + 1 else nextId, actions[1..])
  }

  function Unsubscribed(nextId: nat, actions: seq<Action>): set<nat>
    decreases |actions|
  {
    if actions == [] then {}
    else
      match actions[0]
      case Subscribe(_) => Unsubscribed(nextId + 1, actions[1..])
      case Unsubscribe(id) => (if id < nextId then {id} else {}) + Unsubscribed(nextId, actions[1..])
  }

  function LiveActAll(live: seq<SlotInfo>, nextId: nat, actions: seq<Action>): seq<SlotInfo>
    decreases |actions|
  {
    if actions == [] then live
    else
      match actions[0]
      case Subscribe(_) => LiveActAll(LiveAct(live, nextId, actions[0]), nextId + 1, actions[1..])
      case Unsubscribe(id) =>
        LiveActAll(if id < nextId then LiveAct(live, nextId, actions[0]) else live, nextId, actions[1..])
  }

  /** What a batch of actions does, whatever an emission is doing meanwhile. */
  lemma {:induction false} ActAllKept(r: Registry, actions: seq<Action>)
    requires Inv(r)
    ensures
      var now := ActAll(r, actions);
      && Inv(now) && now.list == r.list && now.nextId == NextId(r.nextId, actions)
      && now.removed == r.removed + Unsubscribed(r.nextId, actions)
      && Live(now) == LiveActAll(Live(r), r.nextId, actions)
    decreases |actions|
  {
    if actions != [] {
      hide Inv, Live, LiveAct;
      match actions[0]
      case Subscribe(slot) =>
        SubscribeKept(r, slot);
        ActAllKept(Act(r, actions[0]), actions[1..]);
      case Unsubscribe(id) =>
        if id < r.nextId {
          UnsubscribeKept(r, id);
        }
        ActAllKept(Act(r, actions[0]), actions[1..]);
    }
  }

  /**
   * The slots an emission should run, `todo` being those in the list and `gone` those unsubscribed: in order,
   * each that is not unsubscribed by the time its turn comes.
   */
  function Expected(todo: seq<SlotInfo>, gone: set<nat>, nextId: nat, script: seq<Turn>): seq<SlotInfo>
    decreases |todo|
  {
    if todo == [] then []
    else
      var actions := TurnAt(script).actions;
      var now := gone + Unsubscribed(nextId, actions);
      (if todo[0].id in now then [] else [todo[0]]) + Expected(todo[1..], now, NextId(nextId, actions), Rest(script))
  }

  /** The live slots after an emission: every action takes effect at once, and a slot that ran and expired goes. */
  function LiveAfter(live: seq<SlotInfo>, todo: seq<SlotInfo>, gone: set<nat>, nextId: nat,
                     script: seq<Turn>): seq<SlotInfo>
    decreases |todo|
  {
    if todo == [] then live
    else
      var actions := TurnAt(script).actions;
      var now := gone + Unsubscribed(nextId, actions);
      var acted := LiveActAll(live, nextId, actions);
      LiveAfter(if todo[0].id !in now && TurnAt(script).expires then Filter(acted, {todo[0].id}) else acted,
                todo[1..], now, NextId(nextId, actions), Rest(script))
  }

  /** The next id once the slots in `todo` have had their turns. */
  function IdAfter(todo: seq<SlotInfo>, nextId: nat, script: seq<Turn>): nat
    decreases |todo|
  {
    if todo == [] then nextId else IdAfter(todo[1..], NextId(nextId, TurnAt(script).actions), Rest(script))
  }

  predicate AgreeOn(todo: seq<SlotInfo>, a: set<nat>, b: set<nat>) {
    forall i | 0 <= i < |todo| :: todo[i].id in a <==> todo[i].id in b
  }

  lemma {:induction false} ExpectedAlike(todo: seq<SlotInfo>, a: set<nat>, b: set<nat>, nextId: nat, script: seq<Turn>)
    requires AgreeOn(todo, a, b)
    ensures Expected(todo, a, nextId, script) == Expected(todo, b, nextId, script)
    decreases |todo|
  {
    if todo != [] {
      var u := Unsubscribed(nextId, TurnAt(script).actions);
      assert AgreeOn(todo[1..], a + u, b + u);
      ExpectedAlike(todo[1..], a + u, b + u, NextId(nextId, TurnAt(script).actions), Rest(script));
    }
  }

  lemma {:induction false} LiveAlike(live: seq<SlotInfo>, todo: seq<SlotInfo>, a: set<nat>, b: set<nat>, nextId: nat,
                                     script: seq<Turn>)
    requires AgreeOn(todo, a, b)
    ensures LiveAfter(live, todo, a, nextId, script) == LiveAfter(live, todo, b, nextId, script)
    decreases |todo|
  {
    if todo != [] {
      var actions := TurnAt(script).actions;
      var u := Unsubscribed(nextId, actions);
      var acted := LiveActAll(live, nextId, actions);
      assert AgreeOn(todo[1..], a + u, b + u);
      LiveAlike(if todo[0].id !in a + u && TurnAt(script).expires then Filter(acted, {todo[0].id}) else acted,
                todo[1..], a + u, b + u, NextId(nextId, actions), Rest(script));
    }
  }

  /** The registry of a list element dropped: still in order, and live but for that element. */
  lemma DroppedKept(r: Registry, pos: nat, removed: set<nat>)
    requires Inv(r) && pos < |r.list| && removed <= r.removed
    ensures
      var now := r.(list := Without(r.list, pos), removed := removed);
      Inv(now) && Live(now) == Filter(r.list + r.added, removed + {r.list[pos].id})
  {
    var all := r.list + r.added;
    assert Without(all, pos) == Without(r.list, pos) + r.added && all[pos] == r.list[pos];
    assert Free(r.added, removed);
    hide Sorted, Below, Free, Filter, Without;
    DropOne(all, pos, removed);
    DropOne(all, pos, {});
    FilterNothing(Without(all, pos));
    FilterSorted(all, {} + {all[pos].id}, 0, r.nextId);
  }

  lemma VisitKept(e: Emission, turn: Turn)
    requires Inv(e.reg) && e.pos < |e.reg.list|
    ensures ActAll(e.reg, turn.actions).list == e.reg.list
    ensures
      var n := Visit(e, turn);
      var s := e.reg.list[e.pos];
      var gone := e.reg.removed + Unsubscribed(e.reg.nextId, turn.actions);
      var acted := LiveActAll(Live(e.reg), e.reg.nextId, turn.actions);
      && Inv(n.reg) && n.pos <= |n.reg.list| && n.reg.nextId == NextId(e.reg.nextId, turn.actions)
      && n.reg.list[n.pos..] == e.reg.list[e.pos + 1..]
      && n.ran == e.ran + (if s.id in gone then [] else [s])
      && n.reg.removed == (if s.id in gone then gone - {s.id} else gone)
      && Live(n.reg) == (if s.id !in gone && turn.expires then Filter(acted, {s.id}) else acted)
  {
    ActAllKept(e.reg, turn.actions);
    var r, s := ActAll(e.reg, turn.actions), e.reg.list[e.pos];
    hide Inv, Filter, LiveActAll, Unsubscribed, NextId, ActAll;
    if s.id in r.removed {
      DroppedKept(r, e.pos, r.removed - {s.id});
      assert r.removed - {s.id} + {s.id} == r.removed;
    } else if turn.expires {
      DroppedKept(r, e.pos, r.removed);
      FilterTwice(r.list + r.added, r.removed, {s.id});
    }
  }

  lemma EmittedStep(e: Emission, script: seq<Turn>)
    requires e.pos < |e.reg.list|
    ensures ActAll(e.reg, TurnAt(script).actions).list == e.reg.list
    ensures Emitted(e, script) == Emitted(Visit(e, TurnAt(script)), Rest(script))
  {
    ActAllList(e.reg, TurnAt(script).actions);
  }

  /** The account of what runs and what stays live, after one more turn. */
  lemma AccountStep(e: Emission, script: seq<Turn>)
    requires Inv(e.reg) && e.pos < |e.reg.list|
    ensures ActAll(e.reg, TurnAt(script).actions).list == e.reg.list
    ensures
      var n, todo := Visit(e, TurnAt(script)), e.reg.list[e.pos..];
      && n.ran + Expected(n.reg.list[n.pos..], n.reg.removed, n.reg.nextId, Rest(script))
         == e.ran + Expected(todo, e.reg.removed, e.reg.nextId, script)
      && LiveAfter(Live(n.reg), n.reg.list[n.pos..], n.reg.removed, n.reg.nextId, Rest(script))
         == LiveAfter(Live(e.reg), todo, e.reg.removed, e.reg.nextId, script)
      && IdAfter(n.reg.list[n.pos..], n.reg.nextId, Rest(script)) == IdAfter(todo, e.reg.nextId, script)
  {
    var turn, s := TurnAt(script), e.reg.list[e.pos];
    var todo, rest := e.reg.list[e.pos..], e.reg.list[e.pos + 1..];
    assert todo[0] == s && todo[1..] == rest;
    VisitKept(e, turn);
    SortedApart(e.reg, e.pos);
    var n := Visit(e, turn);
    var gone := e.reg.removed + Unsubscribed(e.reg.nextId, turn.actions);
    AgreeOff(rest, gone, s.id);
    ExpectedStep(todo, e.reg.removed, e.reg.nextId, script);
    LiveStep(Live(e.reg), todo, e.reg.removed, e.reg.nextId, script);
    IdStep(todo, e.reg.nextId, script);
    hide *;
    ExpectedAlike(rest, n.reg.removed, gone, n.reg.nextId, Rest(script));
    LiveAlike(Live(n.reg), rest, n.reg.removed, gone, n.reg.nextId, Rest(script));
    RunsAssoc(e.ran, if s.id in gone then [] else [s], Expected(rest, gone, n.reg.nextId, Rest(script)));
  }

  lemma RunsAssoc(a: seq<SlotInfo>, b: seq<SlotInfo>, c: seq<SlotInfo>)
    ensures (a + b) + c == a + (b + c)
  {
  }

  lemma ExpectedStep(todo: seq<SlotInfo>, gone: set<nat>, nextId: nat, script: seq<Turn>)
    requires todo != []
    ensures
      var now := gone + Unsubscribed(nextId, TurnAt(script).actions);
      Expected(todo, gone, nextId, script) ==
        (if todo[0].id in now then [] else [todo[0]])
        + Expected(todo[1..], now, NextId(nextId, TurnAt(script).actions), Rest(script))
  {
  }

  lemma IdStep(todo: seq<SlotInfo>, nextId: nat, script: seq<Turn>)
    requires todo != []
    ensures IdAfter(todo, nextId, script) == IdAfter(todo[1..], NextId(nextId, TurnAt(script).actions), Rest(script))
  {
  }

  lemma LiveStep(live: seq<SlotInfo>, todo: seq<SlotInfo>, gone: set<nat>, nextId: nat, script: seq<Turn>)
    requires todo != []
    ensures
      var actions := TurnAt(script).actions;
      var now := gone + Unsubscribed(nextId, actions);
      var acted := LiveActAll(live, nextId, actions);
      LiveAfter(live, todo, gone, nextId, script) ==
        LiveAfter(if todo[0].id !in now && TurnAt(script).expires then Filter(acted, {todo[0].id}) else acted,
                  todo[1..], now, NextId(nextId, actions), Rest(script))
  {
  }

  /**
   * Which slots an emission runs, and which are live after it, compared with the plain account of both:
   * `list` from `pos` on being the slots still to be visited.
   */
  lemma {:induction false} EmittedRight(e: Emission, script: seq<Turn>)
    requires Inv(e.reg) && e.pos <= |e.reg.list|
    ensures
      var done, todo := Emitted(e, script), e.reg.list[e.pos..];
      && Inv(done.reg)
      && done.ran == e.ran + Expected(todo, e.reg.removed, e.reg.nextId, script)
      && Live(done.reg) == LiveAfter(Live(e.reg), todo, e.reg.removed, e.reg.nextId, script)
      && done.reg.nextId == IdAfter(todo, e.reg.nextId, script)
    decreases |e.reg.list| - e.pos
  {
    if e.pos == |e.reg.list| {
      hide Inv, Live;
      assert e.reg.list[e.pos..] == [];
    } else {
      hide Inv, Live, Visit, ActAll, Emitted, Expected, LiveAfter, IdAfter;
      EmittedStep(e, script);
      AccountStep(e, script);
      VisitKept(e, TurnAt(script));
      VisitShrinks(e, TurnAt(script));
      EmittedRight(Visit(e, TurnAt(script)), Rest(script));
    }
  }

  lemma VisitShrinks(e: Emission, turn: Turn)
    requires e.pos < |e.reg.list| && ActAll(e.reg, turn.actions).list == e.reg.list
    ensures Visit(e, turn).pos <= |Visit(e, turn).reg.list|
    ensures |Visit(e, turn).reg.list| - Visit(e, turn).pos < |e.reg.list| - e.pos
  {
  }

  lemma SortedApart(r: Registry, pos: nat)
    requires Inv(r) && pos < |r.list|
    ensures Free(r.list[pos + 1..], {r.list[pos].id})
  {
    var rest := r.list[pos + 1..];
    forall i | 0 <= i < |rest| ensures rest[i].id != r.list[pos].id {
      assert Before((r.list + r.added)[pos], (r.list + r.added)[pos + 1 + i]);
    }
  }

  lemma AgreeOff(todo: seq<SlotInfo>, gone: set<nat>, id: nat)
    requires Free(todo, {id})
    ensures AgreeOn(todo, gone - {id}, gone) && AgreeOn(todo, gone, gone)
  {
  }

  lemma SplicedKept(r: Registry)
    requires Inv(r)
    ensures Inv(Spliced(r)) && Live(Spliced(r)) == Live(r)
  {
    assert (r.list + r.added) + [] == r.list + r.added;
  }

  lemma FreeOfNothing(s: seq<SlotInfo>)
    ensures Free(s, {})
  {
  }

  lemma ClearedKept(r: Registry)
    requires Inv(r)
    ensures Inv(Cleared(r)) && Live(Cleared(r)) == Live(r)
  {
    hide Sorted, Below, Filter, Free;
    FilterOrdered(r.list, r.added, r.removed, {}, r.nextId);
    FilterNothing(r.added);
    FreeOfNothing(r.added);
    FilterConcat(r.list, r.added, r.removed);
    FilterNone(r.added, r.removed);
    FilterNothing(Filter(r.list, r.removed) + r.added);
  }

  /**
   * `clear_removed` takes the removed ids first and filters the list afterwards. What others do in between is
   * the same as if they did it when the filtering is over: neither looks at what the other changes.
   */
  lemma {:induction false} ClearCommutes(r: Registry, gone: set<nat>, actions: seq<Action>)
    ensures
      ActAll(r.(list := Filter(r.list, gone)), actions) ==
        ActAll(r, actions).(list := Filter(ActAll(r, actions).list, gone))
    decreases |actions|
  {
    if actions != [] {
      var now := Act(r, actions[0]);
      assert Act(r.(list := Filter(r.list, gone)), actions[0]) == now.(list := Filter(now.list, gone));
      ClearCommutes(now, gone, actions[1..]);
    }
  }

  // ---- what an emission is for -------------------------------------------------------------

  /** The ids unsubscribed before the turn of the `i`-th slot, or earlier. */
  function GoneBy(gone: set<nat>, nextId: nat, script: seq<Turn>, i: nat): set<nat>
    decreases i
  {
    var now := gone + Unsubscribed(nextId, TurnAt(script).actions);
    if i == 0 then now else GoneBy(now, NextId(nextId, TurnAt(script).actions), Rest(script), i - 1)
  }

  /** A slot in the list runs exactly if it was not unsubscribed before its turn. */
  lemma {:induction false} RunsIff(todo: seq<SlotInfo>, gone: set<nat>, nextId: nat, script: seq<Turn>, i: nat)
    requires Sorted(todo) && i < |todo|
    ensures todo[i] in Expected(todo, gone, nextId, script) <==> todo[i].id !in GoneBy(gone, nextId, script, i)
    decreases i
  {
    var actions := TurnAt(script).actions;
    var now := gone + Unsubscribed(nextId, actions);
    var later := Expected(todo[1..], now, NextId(nextId, actions), Rest(script));
    if i == 0 {
      forall k | 0 <= k < |later| ensures later[k] != todo[0] {
        ExpectedFrom(todo[1..], now, NextId(nextId, actions), Rest(script), k);
        var j :| 0 <= j < |todo[1..]| && todo[1..][j] == later[k];
        assert Before(todo[0], todo[j + 1]);
      }
    } else {
      assert Before(todo[0], todo[i]);
      SortedTail(todo);
      assert todo[1..][i - 1] == todo[i];
      RunsIff(todo[1..], now, NextId(nextId, actions), Rest(script), i - 1);
    }
  }

  lemma {:induction false} ExpectedFrom(todo: seq<SlotInfo>, gone: set<nat>, nextId: nat, script: seq<Turn>, k: nat)
    requires k < |Expected(todo, gone, nextId, script)|
    ensures exists j :: 0 <= j < |todo| && todo[j] == Expected(todo, gone, nextId, script)[k]
    decreases |todo|
  {
    var actions := TurnAt(script).actions;
    var now := gone + Unsubscribed(nextId, actions);
    var runs := todo[0].id !in now;
    if runs && k == 0 {
      assert todo[0] == Expected(todo, gone, nextId, script)[0];
    } else {
      var m := if runs then k - 1 else k;
      ExpectedFrom(todo[1..], now, NextId(nextId, actions), Rest(script), m);
      var j :| 0 <= j < |todo[1..]|
          && todo[1..][j] == Expected(todo[1..], now, NextId(nextId, actions), Rest(script))[m];
      assert todo[j + 1] == Expected(todo, gone, nextId, script)[k];
    }
  }

  /** Slots run in order of subscription, none twice. */
  lemma {:induction false} RunsInOrder(todo: seq<SlotInfo>, gone: set<nat>, nextId: nat, script: seq<Turn>)
    requires Sorted(todo)
    ensures Sorted(Expected(todo, gone, nextId, script))
    decreases |todo|
  {
    if todo != [] {
      var actions := TurnAt(script).actions;
      var now := gone + Unsubscribed(nextId, actions);
      var later := Expected(todo[1..], now, NextId(nextId, actions), Rest(script));
      SortedTail(todo);
      RunsInOrder(todo[1..], now, NextId(nextId, actions), Rest(script));
      forall k | 0 <= k < |later| ensures Before(todo[0], later[k]) {
        ExpectedFrom(todo[1..], now, NextId(nextId, actions), Rest(script), k);
        var j :| 0 <= j < |todo[1..]| && todo[1..][j] == later[k];
        assert Before(todo[0], todo[j + 1]);
      }
    }
  }
}
