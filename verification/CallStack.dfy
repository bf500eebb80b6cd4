/**
 * The stack of call contexts each thread keeps: lib/vtrc/common/call-context.cpp with push_call_context,
 * pop_call_context and make_local_call of lib/vtrc/common/protocol-layer.cpp.
 */
module CallStack {

  /** A call being handled or waited for. `depth` counts the contexts from the bottom of the stack. */
  class CallContext {
    const id: nat
    var parent: CallContext?
    var depth: nat

    constructor (id: nat)
      ensures this.id == id && depth == 1 && parent == null
    {
      this.id := id;
      parent := null;
      depth := 1;
    }

    method SetNext(next: CallContext?)
      modifies this
      ensures parent == next && depth == (if next == null then 1 else old(next.depth) + 1)
    {
      parent := next;
      depth := if next == null then 1 else next.depth + 1;
    }
  }

  /**
   * What a thread does: nothing more; a local call whose service does `body` and then perhaps throws; or an
   * outgoing call that waits, runs the callbacks in `inside` meanwhile, and then perhaps raises an error.
   */
  datatype Work =
    | Done
    | Local(id: nat, body: Work, throws: bool, rest: Work)
    | Wait(id: nat, inside: Work, fails: bool, rest: Work)

  /** A service that ran, with the depth of its context, or a call refused because its depth was over the limit. */
  datatype Event = Ran(id: nat, depth: nat) | Overflowed(id: nat, depth: nat)

  datatype Outcome = Outcome(events: seq<Event>, threw: bool)

  /**
   * What doing `w` under `depth` contexts amounts to. A local call swallows what its service throws, an
   * outgoing call passes its error on, and an error ends whatever encloses it.
   */
  function Effect(w: Work, depth: nat, maxDepth: nat): Outcome {
    match w
    case Done => Outcome([], false)
    case Local(id, body, _, rest) =>
      var own := if depth + 1 > maxDepth then [Overflowed(id, depth + 1)]
                 else [Ran(id, depth + 1)] + Effect(body, depth + 1, maxDepth).events;
      var later := Effect(rest, depth, maxDepth);
      Outcome(own + later.events, later.threw)
    case Wait(_, inside, fails, rest) =>
      var during := Effect(inside, depth + 1, maxDepth);
      if during.threw || fails then Outcome(during.events, true)
      else
        var later := Effect(rest, depth, maxDepth);
        Outcome(during.events + later.events, later.threw)
  }

  predicate WithinLimit(e: Event, depth: nat, maxDepth: nat) {
    match e
    case Ran(_, d) => depth < d <= maxDepth
    case Overflowed(_, d) => depth < d && d > maxDepth
  }

  /** A service method runs only at a depth within the limit, and a call is refused only beyond it. */
  lemma {:induction false} BoundedDepth(w: Work, depth: nat, maxDepth: nat)
    ensures forall e | e in Effect(w, depth, maxDepth).events :: WithinLimit(e, depth, maxDepth)
  {
    match w
    case Done =>
    case Local(_, body, _, rest) =>
      BoundedDepth(body, depth + 1, maxDepth);
      BoundedDepth(rest, depth, maxDepth);
      forall e | e in Effect(body, depth + 1, maxDepth).events ensures WithinLimit(e, depth, maxDepth) {
        assert WithinLimit(e, depth + 1, maxDepth);
      }
    case Wait(_, inside, _, rest) =>
      BoundedDepth(inside, depth + 1, maxDepth);
      BoundedDepth(rest, depth, maxDepth);
      forall e | e in Effect(inside, depth + 1, maxDepth).events ensures WithinLimit(e, depth, maxDepth) {
        assert WithinLimit(e, depth + 1, maxDepth);
      }
  }

  /** How many contexts the deepest local call in `w` stands on, itself included. */
  function Height(w: Work): nat {
    match w
    case Done => 0
    case Local(_, body, _, rest) => Max(1 + Height(body), Height(rest))
    case Wait(_, inside, _, rest) => Max(if Height(inside) == 0 then 0 else 1 + Height(inside), Height(rest))
  }

  function Max(a: nat, b: nat): nat {
    if a < b then b else a
  }

  /** No outgoing call in `w` raises an error. */
  predicate Calm(w: Work) {
    match w
    case Done => true
    case Local(_, body, _, rest) => Calm(body) && Calm(rest)
    case Wait(_, inside, fails, rest) => !fails && Calm(inside) && Calm(rest)
  }

  predicate Refuses(o: Outcome) {
    exists e :: e in o.events && e.Overflowed?
  }

  /** When no outgoing call fails, some call is refused exactly when the nesting goes beyond the limit. */
  lemma {:induction false} RefusedIffTooDeep(w: Work, depth: nat, maxDepth: nat)
    requires Calm(w)
    ensures !Effect(w, depth, maxDepth).threw
    ensures Refuses(Effect(w, depth, maxDepth)) <==> Height(w) > 0 && depth + Height(w) > maxDepth
  {
    match w
    case Done =>
    case Local(id, body, _, rest) =>
      RefusedIffTooDeep(body, depth + 1, maxDepth);
      RefusedIffTooDeep(rest, depth, maxDepth);
      var o, later := Effect(w, depth, maxDepth), Effect(rest, depth, maxDepth);
      if depth + 1 > maxDepth {
        assert o.events[0] == Overflowed(id, depth + 1);
      } else {
        var own := [Ran(id, depth + 1)] + Effect(body, depth + 1, maxDepth).events;
        RefusesEither(own, later.events);
        RefusesEither([Ran(id, depth + 1)], Effect(body, depth + 1, maxDepth).events);
      }
    case Wait(_, inside, _, rest) =>
      RefusedIffTooDeep(inside, depth + 1, maxDepth);
      RefusedIffTooDeep(rest, depth, maxDepth);
      RefusesEither(Effect(inside, depth + 1, maxDepth).events, Effect(rest, depth, maxDepth).events);
  }

  lemma RefusesEither(a: seq<Event>, b: seq<Event>)
    ensures Refuses(Outcome(a + b, false)) <==> Refuses(Outcome(a, false)) || Refuses(Outcome(b, false))
  {
  }

  // ---- the thread's stack ------------------------------------------------------------------

  /** The `i`-th context from the top: its depth is its height, and it points at the one below it. */
  ghost predicate Linked(stack: seq<CallContext>, i: nat)
    requires i < |stack|
    reads stack
  {
    stack[i].depth == |stack| - i && stack[i].parent == if i + 1 < |stack| then stack[i + 1] else null
  }

  class ThreadContext {
    /** The deque of contexts, innermost first; `created` says whether the thread has one at all. */
    var created: bool
    var stack: seq<CallContext>
    const maxStackSize: nat

    ghost predicate Valid() reads this, stack {
      && (created <==> stack != [])
      && (forall i | 0 <= i < |stack| :: Linked(stack, i))
    }

    constructor (maxStackSize: nat)
      ensures Valid() && stack == [] && this.maxStackSize == maxStackSize
    {
      created := false;
      stack := [];
      this.maxStackSize := maxStackSize;
    }

    method PushCallContext(cc: CallContext)
      requires Valid() && cc !in stack
      modifies this, cc
      ensures Valid() && stack == [cc] + old(stack)
    {
      ghost var before := stack;
      assert forall i | 0 <= i < |stack| :: Linked(stack, i);
      created := true;
      var top: CallContext? := if stack == [] then null else stack[0];
      cc.SetNext(top);
      stack := [cc] + stack;
      forall i | 0 <= i < |stack| ensures Linked(stack, i) {
        assert forall j | 0 < j < |stack| :: stack[j] == before[j - 1];
        if i > 0 {
          assert old(Linked(before, i - 1));
        } else if before != [] {
          assert old(Linked(before, 0));
        }
      }
    }

    method PopCallContext()
      requires Valid() && created
      modifies this
      ensures Valid() && stack == old(stack)[1..]
    {
      ghost var before := stack;
      if stack != [] {
        stack := stack[1..];
      }
      forall i | 0 <= i < |stack| ensures Linked(stack, i) {
        assert Linked(before, i + 1);
      }
      if stack == [] {
        created := false;
      }
    }

    /**
     * Carries out `w`. However calls nest and whatever they throw, the stack is afterwards as it was, down to
     * the parent and depth of every context on it.
     */
    method Execute(w: Work) returns (o: Outcome)
      requires Valid()
      modifies this
      ensures Valid() && stack == old(stack)
      ensures o == Effect(w, |stack|, maxStackSize)
      decreases w, 0
    {
      match w
      case Done =>
        o := Outcome([], false);
      case Local(id, body, _, rest) =>
        var own := MakeLocalCall(id, body);
        var later := Execute(rest);
        o := Outcome(own + later.events, later.threw);
      case Wait(id, inside, fails, rest) =>
        var cc := new CallContext(id);
        PushCallContext(cc);
        var during := Execute(inside);
        PopCallContext();
        if during.threw || fails {
          return Outcome(during.events, true);
        }
        var later := Execute(rest);
        o := Outcome(during.events + later.events, later.threw);
    }

    /** `make_local_call_impl`: the context is pushed first, then its depth is compared with the limit. */
    method MakeLocalCall(id: nat, body: Work) returns (events: seq<Event>)
      requires Valid()
      modifies this
      ensures Valid() && stack == old(stack)
      ensures events == if |stack| + 1 > maxStackSize then [Overflowed(id, |stack| + 1)]
                        else [Ran(id, |stack| + 1)] + Effect(body, |stack| + 1, maxStackSize).events
      decreases body, 1
    {
      var cc := new CallContext(id);
      PushCallContext(cc);
      assert cc == stack[0] && stack[1..] == old(stack) && Linked(stack, 0);
      if cc.depth > maxStackSize {
        events := [Overflowed(id, cc.depth)];
      } else {
        var o := Execute(body);
        events := [Ran(id, cc.depth)] + o.events;
      }
      PopCallContext();
    }
  }
}
