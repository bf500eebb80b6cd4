/**
 * How many calls the server of one connection runs at once: `process_call` of
 * lib/vtrc/server/protocol-layer-s.cpp with the closure holder of lib/vtrc/common/protocol-layer.cpp. The
 * dispatch loop is one thread; pool threads and whoever runs a closure interleave with it and with each
 * other.
 */
module Admission {

  /** The counter is an unsigned 32-bit integer, and so is the bound on it. */
  const COUNTER_RANGE: nat := 0x1_0000_0000

  /**
   * A call counted on arrival. `Refusing`: over the bound, busy answer not sent yet. `Posted`: given to the
   * pool. `Preparing`: in `make_local_call_impl`, before the holder knows the connection. `Serving`: its
   * service method was entered; `ran` the closure was run, `inside` the method has neither returned nor
   * thrown, `armed` the holder still has the closure that decrements. `Over`: decremented. `Leaked`: its
   * holder is gone without having decremented.
   */
  datatype Phase = Refusing | Posted | Preparing | Serving(ran: bool, inside: bool, armed: bool) | Over | Leaked

  datatype Call = Call(wait: bool, phase: Phase)

  datatype State = State(max: nat, count: nat, calls: map<nat, Call>, admitted: set<nat>, decrements: seq<nat>)

  /**
   * `alive` says whether the connection still exists when a holder dies. The last two fields of the state
   * record which calls were admitted and which calls decremented the counter, in order.
   */
  datatype Step =
    | Arrive(id: nat, wait: bool)
    | Release(id: nat)
    | Begin(id: nat)
    | FailEarly(id: nat)
    | Enter(id: nat)
    | RunClosure(id: nat, alive: bool)
    | Return(id: nat, alive: bool)
    | Throw(id: nat, alive: bool)

  function New(max: nat): State {
    State(max, 0, map[], {}, [])
  }

  predicate In(s: State, id: nat, phase: Phase) {
    id in s.calls && s.calls[id].phase == phase
  }

  predicate Serves(s: State, id: nat) {
    id in s.calls && s.calls[id].phase.Serving?
  }

  function Put(s: State, id: nat, phase: Phase): State
    requires id in s.calls
  {
    s.(calls := s.calls[id := s.calls[id].(phase := phase)])
  }

  /** `++current_calls_`. */
  function Incremented(count: nat): nat {
    (count + 1) % COUNTER_RANGE
  }

  /** `--current_calls_` on account of the call `id`. */
  function Decremented(s: State, id: nat): State {
    s.(count := if s.count == 0 then COUNTER_RANGE - 1 else s.count - 1, decrements := s.decrements + [id])
  }

  /** The holder of the call dies: its closure decrements if it is still armed and the connection lives. */
  function HolderGone(s: State, id: nat, armed: bool, alive: bool): State
    requires id in s.calls
  {
    if !armed then Put(s, id, Over)
    else if alive then Put(Decremented(s, id), id, Over)
    else Put(s, id, Leaked)
  }

  predicate Enabled(s: State, step: Step) {
    match step
    case Arrive(id, _) => id !in s.calls && forall k | k in s.calls :: s.calls[k].phase != Refusing
    case Release(id) => In(s, id, Refusing)
    case Begin(id) => In(s, id, Posted)
    case FailEarly(id) => In(s, id, Preparing)
    case Enter(id) => In(s, id, Preparing)
    case RunClosure(id, _) => Serves(s, id) && !s.calls[id].phase.ran
    case Return(id, _) => Serves(s, id) && s.calls[id].phase.inside
    case Throw(id, _) => Serves(s, id) && s.calls[id].phase.inside
  }

  function Next(s: State, step: Step): State
    requires Enabled(s, step)
  {
    match step
    case Arrive(id, wait) =>
      Arrived(s, id, wait)
    case Release(id) => Put(Decremented(s, id), id, Over)
    case Begin(id) => Put(s, id, Preparing)
    case FailEarly(id) =>
      // without a connection the holder's destructor calls nothing
      if s.calls[id].wait then Put(Decremented(s, id), id, Over) else Put(s, id, Leaked)
    case Enter(id) => Put(s, id, Serving(false, true, true))
    case RunClosure(id, alive) =>
      var p := s.calls[id].phase;
      if p.inside then Put(s, id, p.(ran := true)) else HolderGone(s, id, p.armed, alive)
    case Return(id, alive) =>
      var p := s.calls[id].phase;
      if p.ran then HolderGone(s, id, p.armed, alive) else Put(s, id, p.(inside := false))
    case Throw(id, alive) =>
      var p := s.calls[id].phase;
      if s.calls[id].wait then
        // the error is answered, the counter decremented, and the holder disarmed
        var d := Decremented(s, id);
        if p.ran then Put(d, id, Over) else Put(d, id, Serving(false, false, false))
      else if p.ran then HolderGone(s, id, p.armed, alive)
      else Put(s, id, p.(inside := false))
  }

  function Moved(s: State, step: Step): State {
    if Enabled(s, step) then Next(s, step) else s
  }

  function Exec(s: State, steps: seq<Step>): State
    decreases |steps|
  {
    if steps == [] then s else Exec(Moved(s, steps[0]), steps[1..])
  }

  // ---- what every run keeps ----------------------------------------------------------------

  /** The call still counts: no decrement was made for it. */
  predicate Counts(c: Call) {
    match c.phase
    case Over => false
    case Serving(_, _, armed) => armed
    case _ => true
  }

  function Counted(calls: map<nat, Call>): set<nat> {
    set k | k in calls && Counts(calls[k])
  }

  function Turned(calls: map<nat, Call>): set<nat> {
    set k | k in calls && calls[k].phase == Refusing
  }

  /** Calls admitted and not completed. */
  function Active(s: State): set<nat> {
    s.admitted * Counted(s.calls)
  }

  /** The counter counts the active calls and the one being turned away, if any. */
  ghost predicate SetsOk(max: nat, count: nat, admitted: set<nat>, counted: set<nat>, turned: set<nat>) {
    && turned !! admitted && |turned| <= 1
    && counted == admitted * counted + turned
    && count == |counted|
    && |admitted * counted| <= max
  }

  /** The calls that decremented are all different and count no more. */
  ghost predicate HistoryOk(decrements: seq<nat>, calls: map<nat, Call>) {
    && (forall i | 0 <= i < |decrements| :: decrements[i] in calls && !Counts(calls[decrements[i]]))
    && (forall i, j | 0 <= i < j < |decrements| :: decrements[i] != decrements[j])
  }

  ghost predicate InsideOk(calls: map<nat, Call>) {
    forall k | k in calls && calls[k].phase.Serving? :: calls[k].phase.inside ==> calls[k].phase.armed
  }

  ghost predicate Inv(s: State) {
    && s.admitted <= s.calls.Keys
    && SetsOk(s.max, s.count, s.admitted, Counted(s.calls), Turned(s.calls))
    && HistoryOk(s.decrements, s.calls)
    && InsideOk(s.calls)
  }

  lemma Without(a: set<nat>, id: nat)
    ensures |a - {id}| == if id in a then |a| - 1 else |a|
  {
    if id !in a {
      assert a - {id} == a;
    }
  }

  lemma SetsLess(max: nat, count: nat, admitted: set<nat>, counted: set<nat>, turned: set<nat>, id: nat)
    requires SetsOk(max, count, admitted, counted, turned) && id in counted
    ensures count > 0 && SetsOk(max, count - 1, admitted, counted - {id}, turned - {id})
  {
    assert admitted * (counted - {id}) == admitted * counted - {id};
    Without(counted, id);
    Without(turned, id);
    Without(admitted * counted, id);
    assert turned - {id} !! admitted;
    assert counted - {id} == (admitted * counted - {id}) + (turned - {id});
  }

  lemma SetsMore(max: nat, count: nat, admitted: set<nat>, counted: set<nat>, turned: set<nat>, id: nat)
    requires SetsOk(max, count, admitted, counted, turned) && turned == {}
    requires id !in counted && id !in admitted && max < COUNTER_RANGE - 1
    ensures Incremented(count) == count + 1
    ensures count + 1 <= max <==> |admitted * counted| < max
    ensures
      if count + 1 <= max then SetsOk(max, count + 1, admitted + {id}, counted + {id}, turned - {id})
      else SetsOk(max, count + 1, admitted, counted + {id}, turned + {id})
  {
    assert counted == admitted * counted;
    if count + 1 <= max {
      assert (admitted + {id}) * (counted + {id}) == admitted * counted + {id};
    } else {
      assert admitted * (counted + {id}) == admitted * counted;
      assert turned + {id} == {id};
    }
  }

  lemma InsidePut(calls: map<nat, Call>, id: nat, c: Call)
    requires InsideOk(calls) && (c.phase.Serving? && c.phase.inside ==> c.phase.armed)
    ensures InsideOk(calls[id := c])
  {
  }

  /** A change of one call that decremented nothing leaves the record as it was. */
  lemma HistoryPut(decrements: seq<nat>, calls: map<nat, Call>, id: nat, c: Call)
    requires HistoryOk(decrements, calls) && (id in calls && !Counts(calls[id]) ==> !Counts(c))
    ensures HistoryOk(decrements, calls[id := c])
  {
    hide Counts;
  }

  lemma HistoryMore(decrements: seq<nat>, calls: map<nat, Call>, id: nat, c: Call)
    requires HistoryOk(decrements, calls) && id in calls && Counts(calls[id]) && !Counts(c)
    ensures HistoryOk(decrements + [id], calls[id := c])
  {
    hide Counts;
  }

  lemma CountedPut(calls: map<nat, Call>, id: nat, c: Call)
    ensures Counted(calls[id := c]) == if Counts(c) then Counted(calls) + {id} else Counted(calls) - {id}
    ensures Turned(calls[id := c]) == if c.phase == Refusing then Turned(calls) + {id} else Turned(calls) - {id}
  {
    hide Counts;
  }

  lemma InSets(calls: map<nat, Call>, id: nat)
    requires id in calls
    ensures (id in Counted(calls)) == Counts(calls[id]) && (id in Turned(calls)) == (calls[id].phase == Refusing)
  {
  }

  /** A call moves on without being decremented. */
  lemma MovesOn(s: State, id: nat, phase: Phase)
    requires Inv(s) && id in s.calls && phase != Refusing && s.calls[id].phase != Refusing
    requires Counts(Call(s.calls[id].wait, phase)) == Counts(s.calls[id])
    requires phase.Serving? && phase.inside ==> phase.armed
    ensures Inv(Put(s, id, phase))
  {
    hide Counts, Counted, Turned, HistoryOk, SetsOk;
    var now := Put(s, id, phase);
    CountedPut(s.calls, id, now.calls[id]);
    InSets(s.calls, id);
    assert Counted(now.calls) == Counted(s.calls);
    assert Turned(now.calls) == Turned(s.calls);
    HistoryPut(s.decrements, s.calls, id, now.calls[id]);
  }

  /** A counted call is decremented: the counter is positive, and the call never counts again. */
  lemma Completes(s: State, id: nat, phase: Phase)
    requires Inv(s) && id in s.calls && Counts(s.calls[id]) && !Counts(Call(s.calls[id].wait, phase))
    requires phase.Serving? ==> !phase.inside
    ensures s.count > 0 && Inv(Put(Decremented(s, id), id, phase))
  {
    assert phase != Refusing;
    hide Counts, Counted, Turned, HistoryOk, SetsOk;
    var now := Put(Decremented(s, id), id, phase);
    CountedPut(s.calls, id, now.calls[id]);
    InSets(s.calls, id);
    SetsLess(s.max, s.count, s.admitted, Counted(s.calls), Turned(s.calls), id);
    HistoryMore(s.decrements, s.calls, id, now.calls[id]);
  }

  lemma NobodyTurned(s: State, id: nat, wait: bool)
    requires Enabled(s, Arrive(id, wait))
    ensures Turned(s.calls) == {} && id !in Counted(s.calls)
  {
  }

  /** The state once `id` has arrived. */
  function Arrived(s: State, id: nat, wait: bool): State {
    if Incremented(s.count) <= s.max then
      s.(count := Incremented(s.count), calls := s.calls[id := Call(wait, Posted)], admitted := s.admitted + {id})
    else s.(count := Incremented(s.count), calls := s.calls[id := Call(wait, Refusing)])
  }

  lemma ArrivesSets(s: State, id: nat, wait: bool)
    requires SetsOk(s.max, s.count, s.admitted, Counted(s.calls), Turned(s.calls)) && Turned(s.calls) == {}
    requires id !in s.admitted && id !in Counted(s.calls) && s.max < COUNTER_RANGE - 1
    ensures
      var now := Arrived(s, id, wait);
      SetsOk(now.max, now.count, now.admitted, Counted(now.calls), Turned(now.calls))
    ensures id in Arrived(s, id, wait).admitted <==> |Active(s)| < s.max
  {
    hide Counted, Turned, SetsOk, Incremented;
    SetsMore(s.max, s.count, s.admitted, Counted(s.calls), Turned(s.calls), id);
    CountedPut(s.calls, id, Call(wait, Posted));
    CountedPut(s.calls, id, Call(wait, Refusing));
  }

  lemma Arrives(s: State, id: nat, wait: bool)
    requires Inv(s) && Enabled(s, Arrive(id, wait)) && s.max < COUNTER_RANGE - 1
    ensures Inv(Arrived(s, id, wait))
    ensures id in Arrived(s, id, wait).admitted <==> |Active(s)| < s.max
  {
    NobodyTurned(s, id, wait);
    assert id !in s.admitted && id !in s.calls;
    hide Counted, Turned, HistoryOk, SetsOk, Incremented, Enabled, InsideOk, Active;
    ArrivesSets(s, id, wait);
    HistoryPut(s.decrements, s.calls, id, Call(wait, Posted));
    HistoryPut(s.decrements, s.calls, id, Call(wait, Refusing));
    InsidePut(s.calls, id, Call(wait, Posted));
    InsidePut(s.calls, id, Call(wait, Refusing));
  }

  lemma Starts(max: nat)
    ensures Inv(New(max))
  {
  }

  lemma Kept(s: State, step: Step)
    requires Inv(s) && s.max < COUNTER_RANGE - 1
    ensures Inv(Moved(s, step)) && Moved(s, step).max == s.max
  {
    hide SetsOk, HistoryOk, Counted, Turned;
    if Enabled(s, step) {
      match step
      case Arrive(id, wait) => Arrives(s, id, wait);
      case Release(id) => Completes(s, id, Over);
      case Begin(id) => MovesOn(s, id, Preparing);
      case FailEarly(id) => if s.calls[id].wait { Completes(s, id, Over); } else { MovesOn(s, id, Leaked); }
      case Enter(id) => MovesOn(s, id, Serving(false, true, true));
      case RunClosure(id, alive) =>
        var p := s.calls[id].phase;
        if p.inside { MovesOn(s, id, p.(ran := true)); } else { Dies(s, id, alive); }
      case Return(id, alive) =>
        var p := s.calls[id].phase;
        if p.ran { Dies(s, id, alive); } else { MovesOn(s, id, p.(inside := false)); }
      case Throw(id, alive) =>
        var p := s.calls[id].phase;
        if s.calls[id].wait {
          Completes(s, id, if p.ran then Over else Serving(false, false, false));
        } else if p.ran { Dies(s, id, alive); } else { MovesOn(s, id, p.(inside := false)); }
    }
  }

  lemma Dies(s: State, id: nat, alive: bool)
    requires Inv(s) && Serves(s, id)
    ensures Inv(HolderGone(s, id, s.calls[id].phase.armed, alive))
            && HolderGone(s, id, s.calls[id].phase.armed, alive).max == s.max
  {
    if !s.calls[id].phase.armed { MovesOn(s, id, Over); }
    else if alive { Completes(s, id, Over); }
    else { MovesOn(s, id, Leaked); }
  }

  /** In every run the admitted and not completed calls stay within the bound, and each decrements at most once. */
  lemma {:induction false} EveryRun(s: State, steps: seq<Step>)
    requires Inv(s) && s.max < COUNTER_RANGE - 1
    ensures Inv(Exec(s, steps)) && Exec(s, steps).max == s.max
    decreases |steps|
  {
    hide Inv, Moved;
    if steps != [] {
      Kept(s, steps[0]);
      EveryRun(Moved(s, steps[0]), steps[1..]);
    }
  }

  /** A step that decrements does so for a call that counts, and so at a positive counter. */
  lemma DecrementsAbove(s: State, step: Step)
    requires Inv(s) && Enabled(s, step) && Next(s, step).decrements != s.decrements
    ensures s.count > 0
  {
    hide SetsOk, HistoryOk, Counted, Turned;
    assert step.id in s.calls && Counts(s.calls[step.id]);
    hide Counts, InsideOk, Next;
    CountsAbove(s, step.id);
  }

  lemma CountsAbove(s: State, id: nat)
    requires Inv(s) && id in s.calls && Counts(s.calls[id])
    ensures s.count > 0
  {
    InvParts(s);
    InSets(s.calls, id);
  }

  /** Active calls and the one being turned away, if any, are counted apart. */
  lemma CountsApart(s: State)
    requires Inv(s)
    ensures |Active(s)| <= s.max && s.count == |Active(s)| + |Turned(s.calls)|
  {
    hide Counted, Turned, HistoryOk, InsideOk;
    assert Active(s) !! Turned(s.calls);
    assert |Active(s) + Turned(s.calls)| == |Active(s)| + |Turned(s.calls)|;
  }

  /**
   * The bound holds in every run, the counter is never decremented at zero, and a call is turned away
   * exactly when as many as the bound allows are active.
   */
  lemma WithinBound(max: nat, steps: seq<Step>, id: nat, wait: bool)
    requires max < COUNTER_RANGE - 1
    ensures
      var s := Exec(New(max), steps);
      && |Active(s)| <= max
      && s.count == |Active(s)| + |Turned(s.calls)|
      && (Enabled(s, Arrive(id, wait)) ==> (id in Next(s, Arrive(id, wait)).admitted <==> |Active(s)| < max))
      && (forall i, j | 0 <= i < j < |s.decrements| :: s.decrements[i] != s.decrements[j])
      && (forall step | Enabled(s, step) && Next(s, step).decrements != s.decrements :: s.count > 0)
  {
    Starts(max);
    EveryRun(New(max), steps);
    var s := Exec(New(max), steps);
    CountsApart(s);
    hide SetsOk, InsideOk, Exec, Active, Enabled, Counts;
    if Enabled(s, Arrive(id, wait)) {
      Arrives(s, id, wait);
    }
    hide Next;
    forall step | Enabled(s, step) && Next(s, step).decrements != s.decrements ensures s.count > 0 {
      DecrementsAbove(s, step);
    }
  }

  // ---- places that are never given back ----------------------------------------------------

  /** A leaked call stays leaked: its id is taken, and no step is about it any more. */
  lemma {:induction false} LeakedStays(s: State, steps: seq<Step>, id: nat)
    requires In(s, id, Leaked)
    ensures In(Exec(s, steps), id, Leaked)
    decreases |steps|
  {
    if steps != [] {
      LeakedStays(Moved(s, steps[0]), steps[1..], id);
    }
  }

  lemma ExecFirst(s: State, step: Step, more: seq<Step>)
    ensures Exec(s, [step] + more) == Exec(Moved(s, step), more)
  {
    assert ([step] + more)[1..] == more;
  }

  lemma ExecNothing(s: State)
    ensures Exec(s, []) == s
  {
  }

  /** A call nobody waits for whose handling fails before its service is entered. */
  const LEAKING: seq<Step> := [Arrive(0, false), Begin(0), FailEarly(0)]

  /** That is enough to lose a place, whatever the bound. */
  lemma CallsLeak(max: nat)
    requires max > 0
    ensures In(Exec(New(max), LEAKING), 0, Leaked)
  {
    var s := New(max);
    var arrived := Moved(s, Arrive(0, false));
    var begun := Moved(arrived, Begin(0));
    assert In(begun, 0, Preparing);
    assert LEAKING == [Arrive(0, false)] + ([Begin(0)] + ([FailEarly(0)] + []));
    hide Exec, Moved;
    ExecFirst(s, Arrive(0, false), [Begin(0)] + ([FailEarly(0)] + []));
    ExecFirst(arrived, Begin(0), [FailEarly(0)] + []);
    ExecFirst(begun, FailEarly(0), []);
    ExecNothing(Moved(begun, FailEarly(0)));
    FailsEarly(begun, 0);
  }

  lemma FailsEarly(s: State, id: nat)
    requires In(s, id, Preparing)
    ensures In(Moved(s, FailEarly(id)), id, if s.calls[id].wait then Over else Leaked)
  {
  }

  /** Nothing in the run makes the call lose its place: its caller waits, and the connection outlives its holder. */
  predicate KeepsPlace(steps: seq<Step>, id: nat) {
    forall k | 0 <= k < |steps| && steps[k].id == id ::
      match steps[k]
      case Arrive(_, wait) => wait
      case RunClosure(_, alive) => alive
      case Return(_, alive) => alive
      case Throw(_, alive) => alive
      case _ => true
  }

  /** Such a call never leaks, so that with all calls like it the counter can always come back to zero. */
  lemma {:induction false} NoLeak(s: State, steps: seq<Step>, id: nat)
    requires (id in s.calls ==> s.calls[id].wait && s.calls[id].phase != Leaked) && KeepsPlace(steps, id)
    ensures !In(Exec(s, steps), id, Leaked)
    decreases |steps|
  {
    if steps != [] {
      assert KeepsPlace([steps[0]], id);
      assert KeepsPlace(steps[1..], id);
      NoLeak(Moved(s, steps[0]), steps[1..], id);
    }
  }

  /** A closure runs before its method ends, or ends the call. */
  predicate RanInside(calls: map<nat, Call>) {
    forall k | k in calls && calls[k].phase.Serving? :: calls[k].phase.ran ==> calls[k].phase.inside
  }

  lemma RanInsideKept(s: State, step: Step)
    requires RanInside(s.calls)
    ensures RanInside(Moved(s, step).calls)
  {
  }

  lemma {:induction false} RanInsideRun(s: State, steps: seq<Step>)
    requires RanInside(s.calls)
    ensures RanInside(Exec(s, steps).calls)
    decreases |steps|
  {
    hide RanInside, Moved;
    if steps != [] {
      RanInsideKept(s, steps[0]);
      RanInsideRun(Moved(s, steps[0]), steps[1..]);
    }
  }

  predicate NoneLeaked(calls: map<nat, Call>) {
    forall k | k in calls :: calls[k].phase != Leaked
  }

  /** How far a call that counts and has not leaked is from its decrement. */
  function Distance(p: Phase): nat {
    match p
    case Refusing => 1
    case Posted => 4
    case Preparing => 3
    case Serving(ran, inside, _) => if inside && !ran then 2 else 1
    case _ => 0
  }

  /** The step that brings such a call nearer to its decrement, while the connection lives. */
  function Onward(c: Call, id: nat): Step {
    match c.phase
    case Refusing => Release(id)
    case Posted => Begin(id)
    case Preparing => if c.wait then FailEarly(id) else Enter(id)
    case Serving(ran, inside, _) => if inside && ran then Return(id, true) else RunClosure(id, true)
    case _ => Begin(id)
  }

  /** One step of one call: it no longer counts, or it is nearer; the other calls are as they were. */
  lemma OnwardMoves(s: State, id: nat)
    requires RanInside(s.calls) && InsideOk(s.calls) && NoneLeaked(s.calls)
    requires id in s.calls && Counts(s.calls[id])
    ensures
      var n := Moved(s, Onward(s.calls[id], id));
      && NoneLeaked(n.calls)
      && id in n.calls && (Counts(n.calls[id]) ==> Distance(n.calls[id].phase) < Distance(s.calls[id].phase))
      && Counted(n.calls) == if Counts(n.calls[id]) then Counted(s.calls) else Counted(s.calls) - {id}
  {
    var n := Moved(s, Onward(s.calls[id], id));
    assert n.calls == s.calls[id := n.calls[id]];
    assert n.calls[id].phase != Leaked;
    CountedPut(s.calls, id, n.calls[id]);
    InSets(s.calls, id);
  }

  lemma InvParts(s: State)
    requires Inv(s)
    ensures InsideOk(s.calls) && s.count == |Counted(s.calls)|
  {
  }

  /** While no call has leaked, the calls that count can be completed one after another. */
  lemma {:induction false} Completable(s: State, id: nat) returns (more: seq<Step>)
    requires Inv(s) && s.max < COUNTER_RANGE - 1 && RanInside(s.calls) && NoneLeaked(s.calls)
    requires id in Counted(s.calls) || Counted(s.calls) == {}
    ensures Exec(s, more).count == 0
    decreases |Counted(s.calls)|, if id in s.calls then Distance(s.calls[id].phase) else 0
  {
    InvParts(s);
    if Counted(s.calls) == {} {
      more := [];
      ExecNothing(s);
    } else {
      var step := Onward(s.calls[id], id);
      var n := Moved(s, step);
      OnwardMoves(s, id);
      InSets(n.calls, id);
      Without(Counted(s.calls), id);
      Kept(s, step);
      RanInsideKept(s, step);
      hide Inv, InsideOk, RanInside, NoneLeaked, Onward, Counted, Exec, Moved, Distance, Counts;
      var other := if Counts(n.calls[id]) || Counted(n.calls) == {} then id else Pick(Counted(n.calls));
      InSets(n.calls, other);
      var rest := Completable(n, other);
      ExecFirst(s, step, rest);
      more := [step] + rest;
    }
  }

  ghost function Pick(ids: set<nat>): (id: nat)
    requires ids != {}
    ensures id in ids
  {
    var id :| id in ids;
    id
  }

  /**
   * A reachable state can still return to an empty counter exactly if no call has leaked; a leaked call
   * keeps its place for as long as there is a counter.
   */
  lemma CanEmptyIff(max: nat, steps: seq<Step>)
    requires max < COUNTER_RANGE - 1
    ensures
      var s := Exec(New(max), steps);
      (exists more :: Exec(s, more).count == 0) <==> NoneLeaked(s.calls)
  {
    var s := Exec(New(max), steps);
    Starts(max);
    EveryRun(New(max), steps);
    RanInsideRun(New(max), steps);
    hide Inv, Exec, Counted, RanInside;
    if NoneLeaked(s.calls) {
      var more := Completable(s, if Counted(s.calls) == {} then 0 else Pick(Counted(s.calls)));
      assert Exec(s, more).count == 0;
    } else {
      var id :| id in s.calls && s.calls[id].phase == Leaked;
      forall more ensures Exec(s, more).count > 0 {
        LeakedStays(s, more, id);
        EveryRun(s, more);
        CountsAbove(Exec(s, more), id);
      }
    }
  }

  // ---- where the counter wraps -------------------------------------------------------------

  function Arrivals(n: nat): seq<Step> {
    seq(n, i requires 0 <= i < n => Arrive(i, true))
  }

  lemma {:induction false} ExecSnoc(s: State, steps: seq<Step>, step: Step)
    ensures Exec(s, steps + [step]) == Moved(Exec(s, steps), step)
    decreases |steps|
  {
    if steps == [] {
      assert Exec(s, [step]) == Exec(Moved(s, step), []);
    } else {
      assert (steps + [step])[1..] == steps[1..] + [step];
      ExecSnoc(Moved(s, steps[0]), steps[1..], step);
    }
  }

  function Below(n: nat): (ids: set<nat>)
    ensures |ids| == n && forall k | k in ids :: k < n
  {
    if n == 0 then {} else Below(n - 1) + {n - 1}
  }

  /** `n` calls have arrived and all were admitted. */
  ghost predicate Flooded(s: State, n: nat) {
    && s.max == COUNTER_RANGE - 1 && s.count == n % COUNTER_RANGE && s.calls.Keys == Below(n) && s.admitted == Below(n)
    && forall k | k in s.calls :: s.calls[k].phase == Posted
  }

  lemma FloodCount(n: nat)
    ensures Incremented(n % COUNTER_RANGE) == (n + 1) % COUNTER_RANGE <= COUNTER_RANGE - 1
  {
  }

  lemma FloodArrived(s: State, n: nat)
    requires Flooded(s, n)
    ensures Flooded(Arrived(s, n, true), n + 1)
  {
    hide Incremented;
    FloodCount(n);
  }

  lemma FloodMore(s: State, n: nat)
    requires Flooded(s, n)
    ensures Flooded(Moved(s, Arrive(n, true)), n + 1)
  {
    assert n !in s.calls;
    hide Below;
    assert Enabled(s, Arrive(n, true));
    assert Moved(s, Arrive(n, true)) == Arrived(s, n, true);
    hide *;
    FloodArrived(s, n);
  }

  lemma ArrivalsMore(n: nat)
    ensures Arrivals(n + 1) == Arrivals(n) + [Arrive(n, true)]
  {
  }

  lemma {:induction false} Flood(n: nat)
    ensures Flooded(Exec(New(COUNTER_RANGE - 1), Arrivals(n)), n)
  {
    if n == 0 {
      assert Exec(New(COUNTER_RANGE - 1), []) == New(COUNTER_RANGE - 1);
    } else {
      hide *;
      Flood(n - 1);
      ArrivalsMore(n - 1);
      ExecSnoc(New(COUNTER_RANGE - 1), Arrivals(n - 1), Arrive(n - 1, true));
      FloodMore(Exec(New(COUNTER_RANGE - 1), Arrivals(n - 1)), n - 1);
    }
  }

  /** With the bound at the largest 32-bit value the counter wraps, and one call too many is admitted. */
  lemma BoundFailsAtTheTop()
    ensures |Active(Exec(New(COUNTER_RANGE - 1), Arrivals(COUNTER_RANGE)))| == COUNTER_RANGE
  {
    Flood(COUNTER_RANGE);
    var s := Exec(New(COUNTER_RANGE - 1), Arrivals(COUNTER_RANGE));
    hide Exec, Arrivals;
    assert Active(s) == Below(COUNTER_RANGE);
  }

  // ---- the server's counter ----------------------------------------------------------------

  /** `current_calls_` with the record of what happened to each call counted in it. */
  class CallCounter {
    var currentCalls: nat
    const maxCalls: nat
    ghost var record: State

    ghost predicate Valid() reads this {
      record.count == currentCalls && record.max == maxCalls && maxCalls < COUNTER_RANGE - 1 && Inv(record)
    }

    constructor (maxCalls: nat)
      requires maxCalls < COUNTER_RANGE - 1
      ensures Valid() && record == New(maxCalls) && this.maxCalls == maxCalls
    {
      currentCalls := 0;
      this.maxCalls := maxCalls;
      record := New(maxCalls);
      new;
      Starts(maxCalls);
    }

    /** The first line of `process_call`: count the call and say whether it may run. */
    method ProcessCall(ghost id: nat, ghost wait: bool) returns (admitted: bool)
      requires Valid() && Enabled(record, Arrive(id, wait))
      modifies this
      ensures Valid() && record == Next(old(record), Arrive(id, wait))
      ensures admitted <==> id in record.admitted
      ensures admitted <==> |Active(old(record))| < maxCalls
    {
      Arrives(record, id, wait);
      assert id !in record.admitted;
      hide Inv, Enabled, Active;
      currentCalls := Incremented(currentCalls);
      admitted := currentCalls <= maxCalls;
      record := Arrived(record, id, wait);
    }

    /** `call_done`, or the decrement after a busy answer: the call `id` is over, or holds a closure no longer armed. */
    method CallDone(ghost id: nat, ghost phase: Phase)
      requires Valid() && id in record.calls && Counts(record.calls[id])
      requires !Counts(Call(record.calls[id].wait, phase)) && (phase.Serving? ==> !phase.inside)
      modifies this
      ensures Valid() && record == Put(Decremented(old(record), id), id, phase)
      ensures old(currentCalls) > 0 && currentCalls == old(currentCalls) - 1
    {
      Completes(record, id, phase);
      hide Inv;
      record := Put(Decremented(record, id), id, phase);
      currentCalls := currentCalls - 1;
    }
  }
}
