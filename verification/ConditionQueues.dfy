/**
 * Keyed queues with waiting readers: lib/vtrc/common/condition-queues.h. A queue lives behind a shared
 * pointer of its own, so a reader or writer that looked its key up may still be using it after the key is
 * erased or bound to a new queue. A step is what one thread does under the store's lock, a queue's lock, or
 * the first with the second inside.
 */
module ConditionQueues {
  import opened Wrappers

  datatype WaitResult = SUCCESS | CANCELED | TIMEOUT

  /** One queue with its record: all that was pushed to it and all that readers took from it, in order. */
  datatype Hold<T> = Hold(data: seq<T>, canceled: bool, written: seq<T>, taken: seq<T>)

  /** What a thread is in the middle of, holding a queue it looked up; a read may have a time limit. */
  datatype Op<T> = Writing(hold: nat, item: T) | Reading(hold: nat, limited: bool) | Waiting(hold: nat, limited: bool)

  /** What a read returned: its code, and what it swapped into the caller's variable, if anything. */
  datatype Result<T> = Result(code: WaitResult, item: Option<T>)

  /** A read that has returned. */
  datatype Read<T> = Read(thread: nat, hold: nat, result: Result<T>)

  /** `holds` are numbered in order of creation; `store` binds keys to them; `finished` lists the finished reads. */
  datatype State<T> = State(store: map<nat, nat>, holds: seq<Hold<T>>, ops: map<nat, Op<T>>, finished: seq<Read<T>>)

  datatype Step<T> =
    | AddQueue(key: nat)
    | EraseQueue(key: nat)
    | EraseAll
    | Cancel(key: nat)
    | CancelAll
    | WriteQueue(key: nat, item: T)
    | WriteAll(item: T)
    | WriteLookup(thread: nat, key: nat, item: T)
    | WritePush(thread: nat)
    | ReadLookup(thread: nat, key: nat, limited: bool)
    | ReadEnter(thread: nat)
    | ReadWake(thread: nat, timedOut: bool)

  function NewHold<T>(): Hold<T> {
    Hold([], false, [], [])
  }

  function PushValue<T>(h: Hold<T>, item: T): Hold<T> {
    h.(data := h.data + [item], written := h.written + [item])
  }

  function CancelValue<T>(h: Hold<T>): Hold<T> {
    h.(canceled := true)
  }

  function TakeFront<T>(h: Hold<T>): Hold<T>
    requires h.data != []
  {
    h.(data := h.data[1..], taken := h.taken + [h.data[0]])
  }

  /** What a wait waits for. */
  predicate Ready<T>(h: Hold<T>) {
    h.data != [] || h.canceled
  }

  predicate Does<T>(s: State<T>, thread: nat) {
    thread in s.ops && s.ops[thread].hold < |s.holds|
  }

  predicate Bound<T>(s: State<T>, key: nat) {
    key in s.store && s.store[key] < |s.holds|
  }

  /** A step on a key that is not there throws or returns at once, and changes nothing. */
  predicate Enabled<T>(s: State<T>, step: Step<T>) {
    match step
    case AddQueue(_) => true
    case EraseQueue(key) => Bound(s, key)
    case EraseAll => true
    case Cancel(key) => Bound(s, key)
    case CancelAll => true
    case WriteQueue(key, _) => Bound(s, key)
    case WriteAll(_) => true
    case WriteLookup(thread, key, _) => Bound(s, key) && thread !in s.ops
    case WritePush(thread) => Does(s, thread) && s.ops[thread].Writing?
    case ReadLookup(thread, key, _) => Bound(s, key) && thread !in s.ops
    case ReadEnter(thread) => Does(s, thread) && s.ops[thread].Reading?
    case ReadWake(thread, timedOut) =>
      && Does(s, thread) && s.ops[thread].Waiting?
      && (Ready(s.holds[s.ops[thread].hold]) || (s.ops[thread].limited && timedOut))
  }

  predicate IsBound<T>(s: State<T>, i: nat) {
    i in s.store.Values
  }

  /** Every queue some key is bound to is pushed to, or canceled. */
  function PushBound<T>(s: State<T>, item: T): seq<Hold<T>> {
    seq(|s.holds|, i requires 0 <= i < |s.holds| => if IsBound(s, i) then PushValue(s.holds[i], item) else s.holds[i])
  }

  function CancelBound<T>(s: State<T>): seq<Hold<T>> {
    seq(|s.holds|, i requires 0 <= i < |s.holds| => if IsBound(s, i) then CancelValue(s.holds[i]) else s.holds[i])
  }

  /** What a wait returns: with a limit whether its condition holds at last, without one always true. */
  predicate WaitValue<T>(h: Hold<T>, limited: bool) {
    !limited || Ready(h)
  }

  /** `cancel_res2wait_res`. */
  function ResultCode(canceled: bool, waited: bool): WaitResult {
    if canceled then CANCELED else if waited then SUCCESS else TIMEOUT
  }

  /** The pop of `read_impl`: what the queue becomes and what is swapped out. */
  function PopFront<T>(h: Hold<T>): (Hold<T>, Option<T>) {
    if !h.canceled && h.data != [] then (TakeFront(h), Some(h.data[0])) else (h, None)
  }

  /** The end of `read_impl`, under the queue's lock: the wait has returned, then the pop, then the code. */
  function Finish<T>(s: State<T>, thread: nat): State<T>
    requires Does(s, thread) && !s.ops[thread].Writing?
  {
    var op := s.ops[thread];
    var waited := WaitValue(s.holds[op.hold], op.limited);
    var (h, item) := PopFront(s.holds[op.hold]);
    s.(ops := s.ops - {thread}, holds := s.holds[op.hold := h],
       finished := s.finished + [Read(thread, op.hold, Result(ResultCode(h.canceled, waited), item))])
  }

  /** The beginning of `read_impl`, under the queue's lock. */
  function Entered<T>(s: State<T>, thread: nat): State<T>
    requires Does(s, thread)
  {
    var i := s.ops[thread].hold;
    s.(holds := s.holds[i := s.holds[i].(canceled := false)])
  }

  function Next<T>(s: State<T>, step: Step<T>): State<T>
    requires Enabled(s, step)
  {
    match step
    case AddQueue(key) =>
      if key in s.store then s else s.(store := s.store[key := |s.holds|], holds := s.holds + [NewHold()])
    case EraseQueue(key) =>
      var i := s.store[key];
      s.(store := s.store - {key}, holds := s.holds[i := CancelValue(s.holds[i])])
    case EraseAll => s.(store := map[], holds := CancelBound(s))
    case Cancel(key) => s.(holds := s.holds[s.store[key] := CancelValue(s.holds[s.store[key]])])
    case CancelAll => s.(holds := CancelBound(s))
    case WriteQueue(key, item) => s.(holds := s.holds[s.store[key] := PushValue(s.holds[s.store[key]], item)])
    case WriteAll(item) => s.(holds := PushBound(s, item))
    case WriteLookup(thread, key, item) => s.(ops := s.ops[thread := Writing(s.store[key], item)])
    case WritePush(thread) =>
      var w := s.ops[thread];
      s.(ops := s.ops - {thread}, holds := s.holds[w.hold := PushValue(s.holds[w.hold], w.item)])
    case ReadLookup(thread, key, limited) => s.(ops := s.ops[thread := Reading(s.store[key], limited)])
    case ReadEnter(thread) =>
      // a cancel before this point is forgotten; if the condition holds the lock is not let go
      var entered := Entered(s, thread);
      var op := s.ops[thread];
      if Ready(entered.holds[op.hold]) then Finish(entered, thread)
      else entered.(ops := s.ops[thread := Waiting(op.hold, op.limited)])
    case ReadWake(thread, _) => Finish(s, thread)
  }

  function Moved<T>(s: State<T>, step: Step<T>): State<T> {
    if Enabled(s, step) then Next(s, step) else s
  }

  function Exec<T>(s: State<T>, steps: seq<Step<T>>): State<T>
    decreases |steps|
  {
    if steps == [] then s else Exec(Moved(s, steps[0]), steps[1..])
  }

  function Empty<T>(): State<T> {
    State(map[], [], map[], [])
  }

  // ---- conservation ------------------------------------------------------------------------

  /** What was written to a queue is what was taken from it and then what it still holds. */
  predicate Conserved<T(==)>(h: Hold<T>) {
    h.written == h.taken + h.data
  }

  /** Keys are bound to queues that exist, no two to the same. */
  ghost predicate StoreOk(store: map<nat, nat>, n: nat) {
    && (forall k | k in store :: store[k] < n)
    && (forall k, l | k in store && l in store && k != l :: store[k] != store[l])
  }

  ghost predicate OpsOk<T>(ops: map<nat, Op<T>>, n: nat) {
    forall t | t in ops :: ops[t].hold < n
  }

  ghost predicate HoldsOk<T>(holds: seq<Hold<T>>) {
    forall i | 0 <= i < |holds| :: Conserved(holds[i])
  }

  /** A read returned SUCCESS exactly if it popped an item. */
  predicate CodeRight<T>(r: Result<T>) {
    r.code == SUCCESS <==> r.item.Some?
  }

  ghost predicate CodesOk<T>(finished: seq<Read<T>>) {
    forall i | 0 <= i < |finished| :: CodeRight(finished[i].result)
  }

  /** What the successful reads of queue `i` returned, in order. */
  function Returned<T>(finished: seq<Read<T>>, i: nat): seq<Option<T>> {
    if finished == [] then []
    else
      var last := finished[|finished| - 1];
      Returned(finished[..|finished| - 1], i)
      + (if last.hold == i && last.result.code == SUCCESS then [last.result.item] else [])
  }

  function Items<T>(data: seq<T>): seq<Option<T>> {
    seq(|data|, i requires 0 <= i < |data| => Some(data[i]))
  }

  /** The successful reads of each queue returned just what was taken from it. */
  ghost predicate ReadsOk<T>(holds: seq<Hold<T>>, finished: seq<Read<T>>) {
    && (forall i: nat | i < |holds| :: Returned(finished, i) == Items(holds[i].taken))
    && (forall i | 0 <= i < |finished| :: finished[i].hold < |holds|)
  }

  ghost predicate Inv<T>(s: State<T>) {
    && StoreOk(s.store, |s.holds|) && OpsOk(s.ops, |s.holds|) && HoldsOk(s.holds)
    && CodesOk(s.finished) && ReadsOk(s.holds, s.finished)
  }

  lemma PushConserves<T>(h: Hold<T>, item: T)
    requires Conserved(h)
    ensures Conserved(PushValue(h, item))
  {
    assert h.taken + (h.data + [item]) == (h.taken + h.data) + [item];
  }

  lemma TakeConserves<T>(h: Hold<T>)
    requires Conserved(h) && h.data != []
    ensures Conserved(TakeFront(h))
  {
    assert h.data == [h.data[0]] + h.data[1..];
    assert h.taken + h.data == (h.taken + [h.data[0]]) + h.data[1..];
  }

  lemma HoldsPut<T>(holds: seq<Hold<T>>, i: nat, h: Hold<T>)
    requires HoldsOk(holds) && i < |holds| && Conserved(h)
    ensures HoldsOk(holds[i := h])
  {
    hide Conserved;
  }

  // ---- the finished reads ------------------------------------------------------------------

  lemma ReturnedSnoc<T>(finished: seq<Read<T>>, r: Read<T>, i: nat)
    ensures Returned(finished + [r], i) ==
              Returned(finished, i) + (if r.hold == i && r.result.code == SUCCESS then [r.result.item] else [])
  {
    assert (finished + [r])[..|finished|] == finished;
  }

  lemma ItemsSnoc<T>(data: seq<T>, x: T)
    ensures Items(data + [x]) == Items(data) + [Some(x)]
  {
  }

  lemma {:induction false} ReturnedNone<T>(finished: seq<Read<T>>, i: nat)
    requires forall k | 0 <= k < |finished| :: finished[k].hold != i
    ensures Returned(finished, i) == []
    decreases |finished|
  {
    if finished != [] {
      ReturnedNone(finished[..|finished| - 1], i);
    }
  }

  /** Nothing is taken from any queue. */
  predicate SameTaken<T(==)>(before: seq<Hold<T>>, after: seq<Hold<T>>) {
    |after| == |before| && forall i | 0 <= i < |before| :: after[i].taken == before[i].taken
  }

  lemma ReadsSame<T>(before: seq<Hold<T>>, after: seq<Hold<T>>, finished: seq<Read<T>>)
    requires ReadsOk(before, finished) && SameTaken(before, after)
    ensures ReadsOk(after, finished)
  {
    hide Returned, Items;
  }

  lemma ReadsOpen<T>(holds: seq<Hold<T>>, finished: seq<Read<T>>)
    requires ReadsOk(holds, finished)
    ensures ReadsOk(holds + [NewHold()], finished)
  {
    var now := holds + [NewHold()];
    ReturnedNone(finished, |holds|);
    assert Items<T>([]) == [];
    hide Returned, Items;
    forall i: nat | i < |now| ensures Returned(finished, i) == Items(now[i].taken) {
      if i < |holds| {
        assert now[i] == holds[i];
      }
    }
  }

  /** The wait, the pop and the code, decided one after the other, agree. */
  lemma CodeAgrees<T>(h: Hold<T>, limited: bool)
    requires limited || Ready(h)
    ensures
      var (after, item) := PopFront(h);
      var code := ResultCode(after.canceled, WaitValue(h, limited));
      && (code == SUCCESS <==> item.Some?)
      && (item.Some? ==> h.data != [] && item == Some(h.data[0]) && after == TakeFront(h))
      && (item == None ==> after == h)
      && (code == CANCELED <==> h.canceled)
      && (code == TIMEOUT <==> !h.canceled && h.data == [])
  {
  }

  lemma ReadsFinish<T>(holds: seq<Hold<T>>, finished: seq<Read<T>>, i: nat, thread: nat, limited: bool)
    requires ReadsOk(holds, finished) && CodesOk(finished) && i < |holds| && (limited || Ready(holds[i]))
    ensures
      var (h, item) := PopFront(holds[i]);
      var r := Read(thread, i, Result(ResultCode(h.canceled, WaitValue(holds[i], limited)), item));
      ReadsOk(holds[i := h], finished + [r]) && CodesOk(finished + [r])
  {
    var (h, item) := PopFront(holds[i]);
    var r := Read(thread, i, Result(ResultCode(h.canceled, WaitValue(holds[i], limited)), item));
    CodeAgrees(holds[i], limited);
    if item.Some? {
      ItemsSnoc(holds[i].taken, holds[i].data[0]);
    }
    hide Returned, Items, ResultCode, WaitValue, PopFront, Ready;
    forall k: nat | k < |holds| ensures Returned(finished + [r], k) == Items(holds[i := h][k].taken) {
      ReturnedSnoc(finished, r, k);
    }
  }

  // ---- every step keeps the invariant ------------------------------------------------------

  lemma FinishKept<T>(s: State<T>, thread: nat)
    requires Inv(s) && Does(s, thread) && !s.ops[thread].Writing?
    requires s.ops[thread].limited || Ready(s.holds[s.ops[thread].hold])
    ensures Inv(Finish(s, thread))
  {
    var op := s.ops[thread];
    var h := s.holds[op.hold];
    ReadsFinish(s.holds, s.finished, op.hold, thread, op.limited);
    assert Conserved(PopFront(h).0) by {
      assert Conserved(h);
      if h.data != [] {
        TakeConserves(h);
      }
    }
    HoldsPut(s.holds, op.hold, PopFront(h).0);
    hide Conserved, HoldsOk, StoreOk, TakeFront, PopFront, CodesOk, ReadsOk, WaitValue, ResultCode;
  }

  lemma PushAllKept<T>(s: State<T>, item: T)
    requires HoldsOk(s.holds) && ReadsOk(s.holds, s.finished)
    ensures HoldsOk(PushBound(s, item)) && ReadsOk(PushBound(s, item), s.finished)
  {
    forall i | 0 <= i < |s.holds| ensures Conserved(PushBound(s, item)[i]) {
      PushConserves(s.holds[i], item);
    }
    assert SameTaken(s.holds, PushBound(s, item));
    ReadsSame(s.holds, PushBound(s, item), s.finished);
  }

  lemma CancelAllKept<T>(s: State<T>)
    requires HoldsOk(s.holds) && ReadsOk(s.holds, s.finished)
    ensures HoldsOk(CancelBound(s)) && ReadsOk(CancelBound(s), s.finished) && |CancelBound(s)| == |s.holds|
  {
    assert SameTaken(s.holds, CancelBound(s));
    ReadsSame(s.holds, CancelBound(s), s.finished);
  }

  lemma AddKept<T>(s: State<T>, key: nat)
    requires Inv(s)
    ensures Inv(Next(s, AddQueue(key)))
  {
    assert Conserved<T>(NewHold());
    ReadsOpen(s.holds, s.finished);
    hide Conserved, ReadsOk, CodesOk;
  }

  lemma EraseKept<T>(s: State<T>, key: nat)
    requires Inv(s) && Bound(s, key)
    ensures Inv(Next(s, EraseQueue(key)))
  {
    CanceledKept(s, s.store[key]);
    hide HoldsOk, Conserved, ReadsOk, CodesOk;
  }

  lemma EnterKept<T>(s: State<T>, thread: nat)
    requires Inv(s) && Enabled(s, ReadEnter(thread))
    ensures Inv(Next(s, ReadEnter(thread)))
  {
    var op := s.ops[thread];
    var h := s.holds[op.hold].(canceled := false);
    var entered := Entered(s, thread);
    assert Conserved(s.holds[op.hold]);
    HoldsPut(s.holds, op.hold, h);
    ReadsSame(s.holds, s.holds[op.hold := h], s.finished);
    hide HoldsOk, StoreOk, Conserved, ReadsOk, CodesOk, Finish;
    if Ready(h) {
      FinishKept(entered, thread);
    }
  }

  lemma LookupKept<T>(s: State<T>, thread: nat, op: Op<T>)
    requires Inv(s) && op.hold < |s.holds|
    ensures Inv(s.(ops := s.ops[thread := op])) && Inv(s.(ops := s.ops - {thread}))
  {
    hide HoldsOk, StoreOk, ReadsOk, CodesOk;
  }

  lemma Kept<T>(s: State<T>, step: Step<T>)
    requires Inv(s)
    ensures Inv(Moved(s, step))
  {
    hide HoldsOk, OpsOk, ReadsOk, CodesOk, Conserved, Finish, Ready;
    if Enabled(s, step) {
      match step
      case AddQueue(key) => AddKept(s, key);
      case WriteAll(item) => hide StoreOk; PushAllKept(s, item);
      case CancelAll => hide StoreOk; CancelAllKept(s);
      case EraseAll => CancelAllKept(s);
      case EraseQueue(key) => EraseKept(s, key);
      case Cancel(key) => hide StoreOk; CanceledKept(s, s.store[key]);
      case WriteQueue(key, item) => hide StoreOk; PushedKept(s, s.store[key], item);
      case WritePush(thread) => PushOpKept(s, thread);
      case ReadEnter(thread) => EnterKept(s, thread);
      case ReadWake(thread, _) => FinishKept(s, thread);
      case WriteLookup(thread, key, item) => hide StoreOk; LookupKept(s, thread, Writing(s.store[key], item));
      case ReadLookup(thread, key, limited) => hide StoreOk; LookupKept(s, thread, Reading(s.store[key], limited));
    }
  }

  lemma PushOpKept<T>(s: State<T>, thread: nat)
    requires Inv(s) && Does(s, thread) && s.ops[thread].Writing?
    ensures Inv(Next(s, WritePush(thread)))
  {
    var w := s.ops[thread];
    PushedKept(s, w.hold, w.item);
    hide HoldsOk, StoreOk, ReadsOk, CodesOk;
  }

  lemma CanceledKept<T>(s: State<T>, i: nat)
    requires HoldsOk(s.holds) && ReadsOk(s.holds, s.finished) && i < |s.holds|
    ensures HoldsOk(s.holds[i := CancelValue(s.holds[i])]) && ReadsOk(s.holds[i := CancelValue(s.holds[i])], s.finished)
  {
    assert Conserved(CancelValue(s.holds[i]));
    HoldsPut(s.holds, i, CancelValue(s.holds[i]));
    ReadsSame(s.holds, s.holds[i := CancelValue(s.holds[i])], s.finished);
  }

  lemma PushedKept<T>(s: State<T>, i: nat, item: T)
    requires HoldsOk(s.holds) && ReadsOk(s.holds, s.finished) && i < |s.holds|
    ensures
      HoldsOk(s.holds[i := PushValue(s.holds[i], item)])
          && ReadsOk(s.holds[i := PushValue(s.holds[i], item)], s.finished)
  {
    PushConserves(s.holds[i], item);
    HoldsPut(s.holds, i, PushValue(s.holds[i], item));
    ReadsSame(s.holds, s.holds[i := PushValue(s.holds[i], item)], s.finished);
  }

  lemma StartsRight<T>()
    ensures Inv<T>(Empty())
  {
  }

  /** Nothing written to a queue is lost or reordered, whoever holds it, in every run. */
  lemma {:induction false} EveryRun<T>(s: State<T>, steps: seq<Step<T>>)
    requires Inv(s)
    ensures Inv(Exec(s, steps))
    decreases |steps|
  {
    hide Inv, Moved;
    if steps != [] {
      Kept(s, steps[0]);
      EveryRun(Moved(s, steps[0]), steps[1..]);
    }
  }

  // ---- what reads return -------------------------------------------------------------------

  /**
   * In every run, each queue's successful reads together returned exactly what was taken from it, in order;
   * what was written to it is that and then what it holds. A read returned an item if and only if its code
   * is SUCCESS, though the pop and the code look at different things.
   */
  lemma ReadsReturnTaken<T>(steps: seq<Step<T>>, i: nat)
    requires i < |Exec(Empty(), steps).holds|
    ensures
      var s := Exec(Empty(), steps);
      && Returned(s.finished, i) == Items(s.holds[i].taken)
      && s.holds[i].written == s.holds[i].taken + s.holds[i].data
      && forall k | 0 <= k < |s.finished| :: CodeRight(s.finished[k].result)
  {
    StartsRight<T>();
    EveryRun(Empty(), steps);
    hide Exec, Returned, Items;
    assert Conserved(Exec(Empty(), steps).holds[i]);
  }

  /** One finished read: nothing is taken from any other queue, and from its own only the oldest item, with SUCCESS. */
  lemma ReadReturns<T>(s: State<T>, step: Step<T>)
    requires (step.ReadEnter? || step.ReadWake?) && Enabled(s, step)
    ensures
      var op, now := s.ops[step.thread], Next(s, step);
      var h := if step.ReadEnter? then s.holds[op.hold].(canceled := false) else s.holds[op.hold];
      if step.thread in now.ops then
        step.ReadEnter? && h.data == [] && now == Entered(s, step.thread).(ops := now.ops)
      else
        && |now.finished| == |s.finished| + 1 && now.finished[..|s.finished|] == s.finished
        && var r := now.finished[|s.finished|];
        && r.thread == step.thread && r.hold == op.hold
        && (r.result.code == SUCCESS <==> !h.canceled && h.data != [])
        && (r.result.code == CANCELED <==> h.canceled)
        && r.result.item == (if r.result.code == SUCCESS then Some(h.data[0]) else None)
        && now.holds == s.holds[op.hold := if r.result.code == SUCCESS then TakeFront(h) else h]
  {
    var op := s.ops[step.thread];
    var h := if step.ReadEnter? then s.holds[op.hold].(canceled := false) else s.holds[op.hold];
    if step.ReadWake? || Ready(h) {
      CodeAgrees(h, op.limited);
    }
    hide ResultCode, WaitValue, TakeFront, PopFront;
  }

  // ---- cancellation ------------------------------------------------------------------------

  /** The step cancels queue `i`. */
  predicate Cancels<T>(s: State<T>, step: Step<T>, i: nat) {
    match step
    case EraseQueue(key) => key in s.store && s.store[key] == i
    case Cancel(key) => key in s.store && s.store[key] == i
    case EraseAll => IsBound(s, i)
    case CancelAll => IsBound(s, i)
    case _ => false
  }

  /** No read enters queue `i` in the run. */
  predicate NobodyEnters<T>(s: State<T>, steps: seq<Step<T>>, i: nat)
    decreases |steps|
  {
    steps == []
    || ((Enabled(s, steps[0]) && steps[0].ReadEnter? ==> s.ops[steps[0].thread].hold != i)
        && NobodyEnters(Moved(s, steps[0]), steps[1..], i))
  }

  lemma CancelStays<T>(s: State<T>, step: Step<T>, i: nat)
    requires i < |s.holds| && s.holds[i].canceled && NobodyEnters(s, [step], i)
    ensures var now := Moved(s, step); i < |now.holds| && now.holds[i].canceled
  {
  }

  lemma {:induction false} CancelKept<T>(s: State<T>, steps: seq<Step<T>>, i: nat)
    requires i < |s.holds| && s.holds[i].canceled && NobodyEnters(s, steps, i)
    ensures var now := Exec(s, steps); i < |now.holds| && now.holds[i].canceled
    decreases |steps|
  {
    hide Moved, Enabled;
    if steps != [] {
      assert NobodyEnters(s, [steps[0]], i);
      CancelStays(s, steps[0], i);
      CancelKept(Moved(s, steps[0]), steps[1..], i);
    }
  }

  /**
   * Once a queue is canceled or erased, every read waiting on it can return, and then reports CANCELED and no
   * item, for as long as no other read enters the queue.
   */
  lemma CancelWakes<T>(s: State<T>, step: Step<T>, more: seq<Step<T>>, thread: nat)
    requires Enabled(s, step) && Does(s, thread) && Cancels(s, step, s.ops[thread].hold)
    requires NobodyEnters(Next(s, step), more, s.ops[thread].hold)
    ensures
      var i, now := s.ops[thread].hold, Exec(Next(s, step), more);
      thread in now.ops && now.ops[thread].Waiting? && now.ops[thread].hold == i ==>
        Enabled(now, ReadWake(thread, false))
        && Next(now, ReadWake(thread, false)).finished == now.finished + [Read(thread, i, Result(CANCELED, None))]
        && Next(now, ReadWake(thread, false)).holds == now.holds
  {
    var i := s.ops[thread].hold;
    assert Next(s, step).holds[i].canceled;
    CancelKept(Next(s, step), more, i);
    hide Exec, NobodyEnters;
  }

  /** A read that enters before a waiting one wakes takes the cancellation back: the waiting one goes on waiting. */
  lemma CancelForgotten<T>(s: State<T>, thread: nat, other: nat)
    requires Enabled(s, ReadEnter(other)) && Does(s, thread) && s.ops[thread].Waiting?
    requires s.ops[thread].hold == s.ops[other].hold && s.holds[s.ops[thread].hold].data == []
    ensures !Enabled(Next(s, ReadEnter(other)), ReadWake(thread, false))
  {
    assert thread != other;
    assert !Ready(Entered(s, other).holds[s.ops[thread].hold]);
  }

  // ---- refinement --------------------------------------------------------------------------

  /** What a reader or writer of the keys sees: a queue of items for each key. */
  function Queues<T>(s: State<T>): map<nat, seq<T>>
    requires forall k | k in s.store :: s.store[k] < |s.holds|
  {
    map k | k in s.store :: s.holds[s.store[k]].data
  }

  /** What a step does to the map from keys to queues. */
  datatype Action<T> =
    | Nothing
    | Open(key: nat)
    | Close(key: nat)
    | CloseAll
    | Append(key: nat, item: T)
    | AppendAll(item: T)
    | Take(key: nat)

  function Apply<T>(q: map<nat, seq<T>>, a: Action<T>): map<nat, seq<T>> {
    match a
    case Nothing => q
    case Open(key) => if key in q then q else q[key := []]
    case Close(key) => q - {key}
    case CloseAll => map[]
    case Append(key, item) => if key in q then q[key := q[key] + [item]] else q
    case AppendAll(item) => map k | k in q :: q[k] + [item]
    case Take(key) => if key in q && q[key] != [] then q[key := q[key][1..]] else q
  }

  /** The key a queue is bound to. */
  ghost function KeyOf<T>(s: State<T>, i: nat): (k: nat)
    requires IsBound(s, i)
    ensures k in s.store && s.store[k] == i
  {
    var k :| k in s.store && s.store[k] == i;
    k
  }

  /** The step's action: a writer or reader whose queue is no longer bound to any key does nothing to the map. */
  ghost function ActionOf<T>(s: State<T>, step: Step<T>): Action<T>
    requires Enabled(s, step)
  {
    match step
    case AddQueue(key) => Open(key)
    case EraseQueue(key) => Close(key)
    case EraseAll => CloseAll
    case WriteQueue(key, item) => Append(key, item)
    case WriteAll(item) => AppendAll(item)
    case WritePush(thread) =>
      var w := s.ops[thread];
      if IsBound(s, w.hold) then Append(KeyOf(s, w.hold), w.item) else Nothing
    case ReadEnter(thread) =>
      var i := s.ops[thread].hold;
      if IsBound(s, i) && s.holds[i].data != [] then Take(KeyOf(s, i)) else Nothing
    case ReadWake(thread, _) =>
      var i := s.ops[thread].hold;
      if IsBound(s, i) && s.holds[i].data != [] && !s.holds[i].canceled then Take(KeyOf(s, i)) else Nothing
    case _ => Nothing
  }

  /** A queue bound to `key` changes: the map changes at `key` alone. */
  lemma QueuesPut<T>(s: State<T>, now: State<T>, key: nat, h: Hold<T>)
    requires Bound(s, key) && StoreOk(s.store, |s.holds|)
    requires now.store == s.store && now.holds == s.holds[s.store[key] := h]
    ensures Queues(now) == Queues(s)[key := h.data]
  {
  }

  /** A queue no key is bound to changes: the map does not. */
  lemma QueuesElsewhere<T>(s: State<T>, now: State<T>, i: nat, h: Hold<T>)
    requires StoreOk(s.store, |s.holds|) && i < |s.holds| && !IsBound(s, i)
    requires now.store == s.store && now.holds == s.holds[i := h]
    ensures Queues(now) == Queues(s)
  {
    forall k | k in s.store ensures s.store[k] != i {
      assert s.store[k] in s.store.Values;
    }
  }

  lemma Changes<T>(s: State<T>, now: State<T>, i: nat, h: Hold<T>)
    requires StoreOk(s.store, |s.holds|) && i < |s.holds|
    requires now.store == s.store && now.holds == s.holds[i := h]
    ensures Queues(now) == if IsBound(s, i) then Queues(s)[KeyOf(s, i) := h.data] else Queues(s)
  {
    if IsBound(s, i) { QueuesPut(s, now, KeyOf(s, i), h); } else { QueuesElsewhere(s, now, i, h); }
  }

  lemma SameData<T>(s: State<T>, now: State<T>, i: nat, h: Hold<T>)
    requires StoreOk(s.store, |s.holds|) && i < |s.holds|
    requires now.store == s.store && now.holds == s.holds[i := h] && h.data == s.holds[i].data
    ensures Queues(now) == Queues(s)
  {
  }

  lemma PushedAt<T>(s: State<T>, item: T, k: nat)
    requires Bound(s, k)
    ensures |PushBound(s, item)| == |s.holds|
            && PushBound(s, item)[s.store[k]].data == s.holds[s.store[k]].data + [item]
  {
    assert IsBound(s, s.store[k]);
  }

  lemma AllChange<T>(s: State<T>, item: T)
    requires StoreOk(s.store, |s.holds|)
    ensures Queues(s.(holds := PushBound(s, item))) == Apply(Queues(s), AppendAll(item))
  {
    hide PushBound, IsBound;
    assert |PushBound(s, item)| == |s.holds| by { PushedLength(s, item); }
    var now, after := Queues(s.(holds := PushBound(s, item))), Apply(Queues(s), AppendAll(item));
    forall k | k in s.store ensures now[k] == after[k] {
      PushedAt(s, item, k);
    }
  }

  lemma PushedLength<T>(s: State<T>, item: T)
    ensures |PushBound(s, item)| == |s.holds|
  {
  }

  lemma AllCanceled<T>(s: State<T>)
    requires StoreOk(s.store, |s.holds|)
    ensures Queues(s.(holds := CancelBound(s))) == Queues(s)
  {
  }

  lemma EnterChanges<T>(s: State<T>, thread: nat)
    requires StoreOk(s.store, |s.holds|) && Enabled(s, ReadEnter(thread))
    ensures
      var now := Next(s, ReadEnter(thread));
      StoreOk(now.store, |now.holds|) && Queues(now) == Apply(Queues(s), ActionOf(s, ReadEnter(thread)))
  {
    var i := s.ops[thread].hold;
    var entered := s.(holds := s.holds[i := s.holds[i].(canceled := false)]);
    SameData(s, entered, i, s.holds[i].(canceled := false));
    assert IsBound(s, i) == IsBound(entered, i);
    if s.holds[i].data != [] {
      ReadChanges(entered, thread);
      if IsBound(s, i) {
        assert KeyOf(entered, i) == KeyOf(s, i);
      }
    }
  }

  lemma ReadChanges<T>(s: State<T>, thread: nat)
    requires StoreOk(s.store, |s.holds|) && Does(s, thread) && !s.ops[thread].Writing?
    ensures
      var i := s.ops[thread].hold;
      && Finish(s, thread).store == s.store && |Finish(s, thread).holds| == |s.holds|
      && Queues(Finish(s, thread)) ==
          Apply(Queues(s),
                if IsBound(s, i) && s.holds[i].data != [] && !s.holds[i].canceled then Take(KeyOf(s, i)) else Nothing)
  {
    var i := s.ops[thread].hold;
    if s.holds[i].data != [] && !s.holds[i].canceled {
      hide IsBound;
      Changes(s, Finish(s, thread), i, TakeFront(s.holds[i]));
    }
  }

  lemma Opens<T>(s: State<T>, now: State<T>, key: nat)
    requires StoreOk(s.store, |s.holds|) && key !in s.store
    requires now.store == s.store[key := |s.holds|] && now.holds == s.holds + [NewHold()]
    ensures Queues(now) == Queues(s)[key := []]
  {
  }

  lemma Closes<T>(s: State<T>, key: nat)
    requires StoreOk(s.store, |s.holds|) && Bound(s, key)
    ensures Queues(Next(s, EraseQueue(key))) == Apply(Queues(s), Close(key))
  {
    hide CancelValue;
  }

  lemma KeysChange<T>(s: State<T>, step: Step<T>)
    requires step.AddQueue? || step.EraseQueue? || step.EraseAll? || step.Cancel? || step.CancelAll?
    requires Enabled(s, step) && StoreOk(s.store, |s.holds|) && StoreOk(Next(s, step).store, |Next(s, step).holds|)
    ensures Queues(Next(s, step)) == Apply(Queues(s), ActionOf(s, step))
  {
    hide StoreOk, IsBound, CancelBound;
    match step
    case AddQueue(key) =>
      if key !in s.store {
        Opens(s, Next(s, step), key);
      }
    case EraseQueue(key) => Closes(s, key);
    case EraseAll =>
    case Cancel(key) => SameData(s, Next(s, step), s.store[key], CancelValue(s.holds[s.store[key]]));
    case CancelAll => AllCanceled(s);
  }

  lemma ItemsChange<T>(s: State<T>, step: Step<T>)
    requires !(step.AddQueue? || step.EraseQueue? || step.EraseAll? || step.Cancel? || step.CancelAll?)
    requires Enabled(s, step) && StoreOk(s.store, |s.holds|) && StoreOk(Next(s, step).store, |Next(s, step).holds|)
    ensures Queues(Next(s, step)) == Apply(Queues(s), ActionOf(s, step))
  {
    hide StoreOk, IsBound, PushBound, Finish;
    match step
    case WriteQueue(key, item) => QueuesPut(s, Next(s, step), key, PushValue(s.holds[s.store[key]], item));
    case WriteAll(item) => AllChange(s, item);
    case WritePush(thread) => WriterChanges(s, thread);
    case ReadEnter(thread) => EnterChanges(s, thread);
    case ReadWake(thread, _) => ReadChanges(s, thread);
    case WriteLookup(_, _, _) =>
    case ReadLookup(_, _, _) =>
  }

  lemma NextKept<T>(s: State<T>, step: Step<T>)
    requires Inv(s) && Enabled(s, step)
    ensures StoreOk(s.store, |s.holds|) && Inv(Next(s, step)) && StoreOk(Next(s, step).store, |Next(s, step).holds|)
  {
    Kept(s, step);
    hide Next, Enabled, StoreOk, OpsOk, HoldsOk, CodesOk, ReadsOk;
  }

  /** Every step does to the queues seen through the keys exactly its action, whatever other threads are doing. */
  lemma Refines<T>(s: State<T>, step: Step<T>)
    requires Inv(s) && Enabled(s, step)
    ensures Inv(Next(s, step)) && (forall k | k in s.store :: s.store[k] < |s.holds|)
    ensures Queues(Next(s, step)) == Apply(Queues(s), ActionOf(s, step))
  {
    hide Next, Enabled, OpsOk, HoldsOk, CodesOk, ReadsOk, Queues, Apply, ActionOf;
    NextKept(s, step);
    if step.AddQueue? || step.EraseQueue? || step.EraseAll? || step.Cancel? || step.CancelAll? {
      KeysChange(s, step);
    } else {
      ItemsChange(s, step);
    }
  }

  lemma WriterChanges<T>(s: State<T>, thread: nat)
    requires StoreOk(s.store, |s.holds|) && Enabled(s, WritePush(thread))
    ensures Queues(Next(s, WritePush(thread))) == Apply(Queues(s), ActionOf(s, WritePush(thread)))
  {
    hide IsBound;
    var w := s.ops[thread];
    Changes(s, Next(s, WritePush(thread)), w.hold, PushValue(s.holds[w.hold], w.item));
  }

  // ---- refinement over runs ----------------------------------------------------------------

  /** The actions of a run, one for each step that happened. */
  ghost function Actions<T>(s: State<T>, steps: seq<Step<T>>): seq<Action<T>>
    decreases |steps|
  {
    if steps == [] then []
    else (if Enabled(s, steps[0]) then [ActionOf(s, steps[0])] else []) + Actions(Moved(s, steps[0]), steps[1..])
  }

  function ApplyAll<T>(q: map<nat, seq<T>>, actions: seq<Action<T>>): map<nat, seq<T>>
    decreases |actions|
  {
    if actions == [] then q else ApplyAll(Apply(q, actions[0]), actions[1..])
  }

  predicate Whole<T>(s: State<T>) {
    forall k | k in s.store :: s.store[k] < |s.holds|
  }

  lemma InvWhole<T>(s: State<T>)
    requires Inv(s)
    ensures Whole(s)
  {
  }

  lemma ApplyFirst<T>(q: map<nat, seq<T>>, a: Action<T>, rest: seq<Action<T>>)
    ensures ApplyAll(q, [a] + rest) == ApplyAll(Apply(q, a), rest)
  {
    assert ([a] + rest)[1..] == rest;
  }

  lemma {:induction false} RunRefines<T>(s: State<T>, steps: seq<Step<T>>)
    requires Inv(s)
    ensures Whole(s) && Whole(Exec(s, steps))
    ensures Queues(Exec(s, steps)) == ApplyAll(Queues(s), Actions(s, steps))
    decreases |steps|
  {
    InvWhole(s);
    if steps != [] {
      hide Inv, Queues, Apply, ActionOf, Next, Enabled;
      var now, rest := Moved(s, steps[0]), Actions(Moved(s, steps[0]), steps[1..]);
      Kept(s, steps[0]);
      RunRefines(now, steps[1..]);
      if Enabled(s, steps[0]) {
        Refines(s, steps[0]);
        ApplyFirst(Queues(s), ActionOf(s, steps[0]), rest);
      } else {
        assert [] + rest == rest;
      }
    }
  }

  /** Every run from the start leaves, seen through the keys, what its actions make of no queues at all. */
  lemma RefinesEveryRun<T>(steps: seq<Step<T>>)
    ensures Whole(Exec(Empty<T>(), steps))
    ensures Queues(Exec(Empty<T>(), steps)) == ApplyAll(map[], Actions(Empty<T>(), steps))
  {
    StartsRight<T>();
    RunRefines(Empty<T>(), steps);
    assert Queues(Empty<T>()) == map[];
  }

  /** An action that takes from a key's queue is a read that returns the front of that queue. */
  lemma TakesFront<T>(s: State<T>, step: Step<T>)
    requires Inv(s) && Enabled(s, step) && ActionOf(s, step).Take?
    ensures
      var key, now := ActionOf(s, step).key, Next(s, step);
      && Whole(s) && key in Queues(s) && Queues(s)[key] != []
      && |now.finished| == |s.finished| + 1
      && now.finished[|s.finished|].result == Result(SUCCESS, Some(Queues(s)[key][0]))
  {
    InvWhole(s);
    assert step.ReadEnter? || step.ReadWake?;
    ReadReturns(s, step);
    hide HoldsOk, OpsOk, CodesOk, ReadsOk, Finish, IsBound;
  }
}
