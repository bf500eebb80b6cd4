/** The observer over its linked lists: the loops of include/vtrc/common/observer/base.h. */
module ObserverObjects {
  import opened Observer
  import L = LinkedList

  type SlotList = L.List<SlotInfo>

  lemma DatasAt(nodes: seq<L.Node<SlotInfo>>, i: nat)
    requires i < |nodes|
    ensures L.Datas(nodes)[i] == nodes[i].data
  {
  }

  /** Which of the nodes a list had are left. */
  predicate Within(nodes: seq<L.Node<SlotInfo>>, before: seq<L.Node<SlotInfo>>) {
    forall k | 0 <= k < |nodes| :: nodes[k] in before
  }

  lemma WithoutWithin(before: seq<L.Node<SlotInfo>>, i: nat)
    requires i < |before|
    ensures Within(L.Without(before, i), before)
  {
  }

  /** The id is at `i`: erasing that node filters it out. */
  lemma ErasedFilter(nodes: seq<L.Node<SlotInfo>>, i: nat)
    requires i < |nodes| && Sorted(L.Datas(nodes))
    ensures L.Datas(L.Without(nodes, i)) == Filter(L.Datas(nodes), {nodes[i].data.id})
  {
    L.WithoutDatas(nodes, i);
    DropOne(L.Datas(nodes), i, {});
    FilterNothing(Observer.Without(L.Datas(nodes), i));
    assert {} + {nodes[i].data.id} == {nodes[i].data.id};
  }

  /** No node up to `i` or from `j` on has the id, and nothing is between: there is none. */
  lemma AbsentFilter(nodes: seq<L.Node<SlotInfo>>, i: nat, id: nat)
    requires i <= |nodes| && Sorted(L.Datas(nodes))
    requires forall k | 0 <= k < i :: nodes[k].data.id < id
    requires i < |nodes| ==> id < nodes[i].data.id
    ensures Filter(L.Datas(nodes), {id}) == L.Datas(nodes)
  {
    var s := L.Datas(nodes);
    forall k | 0 <= k < |s| ensures s[k].id != id {
      if k > i {
        assert Before(s[i], s[k]);
      }
    }
    FilterNone(s, {id});
  }

  /** `remove_by_index`: the search starts from the end the id is nearer to. */
  method RemoveByIndex(list: SlotList, id: nat)
    requires list.Valid() && Sorted(L.Datas(list.nodes))
    modifies list, list.nodes
    ensures list.Valid() && L.Datas(list.nodes) == Filter(old(L.Datas(list.nodes)), {id})
    ensures Within(list.nodes, old(list.nodes))
  {
    ghost var nodes := list.nodes;
    if list.size > 0 {
      var minId, maxId := list.front.data.id, list.back.data.id;
      if id < minId || id > maxId {
        if id < minId {
          AbsentFilter(nodes, 0, id);
        } else {
          LastBelow(nodes, id);
        }
      } else if id - minId < maxId - id {
        var b: L.Node?<SlotInfo> := list.front;
        ghost var i := 0;
        while b != null && b.data.id < id
          invariant i <= |nodes| && b == L.At(nodes, i)
          invariant forall k | 0 <= k < i :: nodes[k].data.id < id
          decreases |nodes| - i
        {
          assert L.Linked(nodes, i);
          b := b.next;
          i := i + 1;
        }
        if b != null && b.data.id == id {
          ErasedFilter(nodes, i);
          WithoutWithin(nodes, i);
          var _ := list.Erase(b, i);
        } else {
          AbsentFilter(nodes, i, id);
        }
      } else {
        var b: L.Node?<SlotInfo> := list.back;
        ghost var i: int := |nodes| - 1;
        while b != null && id < b.data.id
          invariant -1 <= i < |nodes| && b == L.At(nodes, i)
          invariant forall k | i < k < |nodes| :: id < nodes[k].data.id
          decreases i
        {
          assert L.Linked(nodes, i);
          b := b.prev;
          i := i - 1;
        }
        if b != null && b.data.id == id {
          ErasedFilter(nodes, i);
          WithoutWithin(nodes, i);
          var _ := list.ReverseErase(b, i);
        } else {
          forall k | 0 <= k < i + 1 ensures nodes[k].data.id < id {
            if k < i {
              assert Before(L.Datas(nodes)[k], L.Datas(nodes)[i]);
            }
          }
          AbsentFilter(nodes, i + 1, id);
        }
      }
    } else {
      AbsentFilter(nodes, 0, id);
    }
  }

  lemma LastBelow(nodes: seq<L.Node<SlotInfo>>, id: nat)
    requires nodes != [] && Sorted(L.Datas(nodes)) && nodes[|nodes| - 1].data.id < id
    ensures Filter(L.Datas(nodes), {id}) == L.Datas(nodes)
  {
    forall k | 0 <= k < |nodes| ensures nodes[k].data.id < id {
      if k < |nodes| - 1 {
        assert Before(L.Datas(nodes)[k], L.Datas(nodes)[|nodes| - 1]);
      }
    }
    AbsentFilter(nodes, |nodes|, id);
  }

  lemma {:induction false} Least(s: set<nat>) returns (m: nat)
    requires s != {}
    ensures m in s && forall x | x in s :: m <= x
    decreases s
  {
    m :| m in s;
    var rest := set x | x in s && x < m;
    if rest != {} {
      assert m !in rest;
      var above := m;
      m := Least(rest);
      forall x | x in s ensures m <= x {
        assert x in rest || above <= x;
      }
    } else {
      forall x | x in s ensures m <= x {
        assert x !in rest;
      }
    }
  }

  /** Nothing left to remove can be in the list. */
  lemma NothingMore(nodes: seq<L.Node<SlotInfo>>, gone: set<nat>)
    requires forall k, x | 0 <= k < |nodes| && x in gone :: nodes[k].data.id < x
    ensures Filter(L.Datas(nodes), gone) == L.Datas(nodes)
  {
    FilterNone(L.Datas(nodes), gone);
  }

  /** One id dealt with: erased if it was in the list. */
  lemma OneLess(s: seq<SlotInfo>, gone: set<nat>, id: nat)
    requires id in gone
    ensures Filter(Filter(s, {id}), gone - {id}) == Filter(s, gone)
  {
    FilterTwice(s, {id}, gone - {id});
    assert {id} + (gone - {id}) == gone;
  }

  lemma PastTheEnd(nodes: seq<L.Node<SlotInfo>>, i: nat)
    requires i <= |nodes|
    ensures L.At(nodes, i) == null <==> i == |nodes|
  {
    if i < |nodes| {
      var n: L.Node<SlotInfo> := nodes[i];
    }
  }

  /** The merge of `clear_removed`: the list and the ids, both in increasing order, are walked side by side. */
  method ClearRemoved(list: SlotList, removed: set<nat>)
    requires list.Valid() && Sorted(L.Datas(list.nodes))
    modifies list, list.nodes
    ensures list.Valid() && L.Datas(list.nodes) == Filter(old(L.Datas(list.nodes)), removed)
    ensures Within(list.nodes, old(list.nodes))
  {
    hide Filter, Sorted, Before, Below, L.Distinct, L.Chained, L.Datas;
    var rest := removed;
    var b := list.front;
    ghost var i: nat := 0;
    while rest != {} && b != null
      invariant list.Valid() && Sorted(L.Datas(list.nodes))
      invariant Within(list.nodes, old(list.nodes))
      invariant i <= |list.nodes| && b == L.At(list.nodes, i)
      invariant forall k, x | 0 <= k < i && x in rest :: list.nodes[k].data.id < x
      invariant Filter(L.Datas(list.nodes), rest) == Filter(old(L.Datas(list.nodes)), removed)
      decreases |rest|
    {
      ghost var least := Least(rest);
      var id :| id in rest && forall x | x in rest :: id <= x;
      OneLess(L.Datas(list.nodes), rest, id);
      b, i := RemoveFrom(list, b, id, i);
      assert forall x | x in rest - {id} :: id < x;
      rest := rest - {id};
    }
    if rest == {} {
      FilterNothing(L.Datas(list.nodes));
    } else {
      PastTheEnd(list.nodes, i);
      NothingMore(list.nodes, rest);
    }
  }

  /** One id's part of the merge. */
  method RemoveFrom(list: SlotList, start: L.Node?<SlotInfo>, id: nat, ghost from: nat)
    returns (b: L.Node?<SlotInfo>, ghost i: nat)
    requires list.Valid() && Sorted(L.Datas(list.nodes)) && from <= |list.nodes| && start == L.At(list.nodes, from)
    requires forall k | 0 <= k < from :: list.nodes[k].data.id < id
    modifies list, list.nodes
    ensures list.Valid() && Sorted(L.Datas(list.nodes)) && Within(list.nodes, old(list.nodes))
    ensures L.Datas(list.nodes) == Filter(old(L.Datas(list.nodes)), {id})
    ensures i <= |list.nodes| && b == L.At(list.nodes, i)
    ensures forall k | 0 <= k < i :: list.nodes[k].data.id < id
  {
    b, i := SkipBelow(list, start, id, from);
    ghost var nodes := list.nodes;
    if b != null && b.data.id == id {
      ErasedFilter(nodes, i);
      WithoutWithin(nodes, i);
      FilterSorted(L.Datas(nodes), {id}, 0, MaxId(L.Datas(nodes)));
      b := list.Erase(b, i);
    } else {
      AbsentFilter(nodes, i, id);
    }
  }

  ghost function MaxId(s: seq<SlotInfo>): (m: nat)
    ensures Below(s, m)
  {
    if s == [] then 0
    else
      var rest := MaxId(s[1..]);
      assert forall i | 1 <= i < |s| :: s[i] == s[1..][i - 1];
      if s[0].id < rest then rest else s[0].id + 1
  }

  method SkipBelow(list: SlotList, start: L.Node?<SlotInfo>, id: nat, ghost from: nat)
    returns (b: L.Node?<SlotInfo>, ghost i: nat)
    requires list.Valid() && from <= |list.nodes| && start == L.At(list.nodes, from)
    requires forall k | 0 <= k < from :: list.nodes[k].data.id < id
    ensures i <= |list.nodes| && b == L.At(list.nodes, i)
    ensures forall k | 0 <= k < i :: list.nodes[k].data.id < id
    ensures b != null ==> id <= b.data.id
  {
    b, i := start, from;
    while b != null && b.data.id < id
      invariant i <= |list.nodes| && b == L.At(list.nodes, i)
      invariant forall k | 0 <= k < i :: list.nodes[k].data.id < id
      decreases |list.nodes| - i
    {
      assert L.Linked(list.nodes, i);
      b := b.next;
      i := i + 1;
    }
  }

  lemma WithoutApart(a: seq<L.Node<SlotInfo>>, b: seq<L.Node<SlotInfo>>, i: nat)
    requires i < |a| && L.Apart(a, b)
    ensures L.Apart(L.Without(a, i), b)
  {
  }

  class Observers {
    const list: SlotList
    const added: SlotList
    var removed: set<nat>
    var id: nat

    ghost function State(): Registry
      reads this, list, added
    {
      Registry(L.Datas(list.nodes), L.Datas(added.nodes), removed, id)
    }

    /** The two lists are well formed and share nothing. */
    ghost predicate Shaped()
      reads this, list, added, list.nodes, added.nodes
    {
      list != added && list.Valid() && added.Valid() && L.Apart(list.nodes, added.nodes)
    }

    ghost predicate Valid()
      reads this, list, added, list.nodes, added.nodes
    {
      Shaped() && Inv(State())
    }

    constructor ()
      ensures Valid() && State() == Registry([], [], {}, 1) && fresh(list) && fresh(added)
    {
      list := new L.List();
      added := new L.List();
      removed := {};
      id := 1;
    }

    method Connect(slot: nat) returns (next: nat)
      requires Valid()
      modifies this, added, added.nodes
      ensures Valid() && State() == Act(old(State()), Subscribe(slot)) && next == old(id)
      ensures list.nodes == old(list.nodes)
      ensures forall k | 0 <= k < |added.nodes| :: added.nodes[k] in old(added.nodes) || fresh(added.nodes[k])
    {
      SubscribeKept(State(), slot);
      next := id;
      id := id + 1;
      added.PushBack(SlotInfo(slot, next));
    }

    /** The id is one that `Connect` returned. */
    method Unsubscribe(id: nat)
      requires Valid() && id < this.id
      modifies this, added, added.nodes
      ensures Valid() && State() == Act(old(State()), Action.Unsubscribe(id))
      ensures list.nodes == old(list.nodes)
      ensures forall k | 0 <= k < |added.nodes| :: added.nodes[k] in old(added.nodes) || fresh(added.nodes[k])
    {
      UnsubscribeKept(State(), id);
      SortedParts(State().list, State().added);
      removed := removed + {id};
      RemoveByIndex(added, id);
    }

    /** What other threads and slots do between two turns of an emission. */
    method PerformAll(actions: seq<Action>)
      requires Valid()
      modifies this, added, added.nodes
      ensures Valid() && State() == ActAll(old(State()), actions)
      ensures list.nodes == old(list.nodes)
      ensures forall k | 0 <= k < |added.nodes| :: added.nodes[k] in old(added.nodes) || fresh(added.nodes[k])
      decreases |actions|
    {
      if actions != [] {
        match actions[0] {
          case Subscribe(slot) =>
            var _ := Connect(slot);
          case Unsubscribe(k) =>
            if k < id {
              Unsubscribe(k);
            }
        }
        PerformAll(actions[1..]);
      }
    }

    method VisitSlot(b: L.Node<SlotInfo>, ghost i: nat, ghost ran: seq<SlotInfo>, expires: bool)
      returns (next: L.Node?<SlotInfo>, ghost j: nat, more: seq<SlotInfo>)
      requires Shaped() && i < |list.nodes| && list.nodes[i] == b
      modifies this, list, list.nodes
      ensures Shaped() && j <= |list.nodes| && next == L.At(list.nodes, j)
      ensures Emission(State(), j, ran + more) == VisitNow(old(State()), i, ran, expires)
      ensures Within(list.nodes, old(list.nodes))
    {
      L.WithoutDatas(list.nodes, i);
      WithoutWithin(list.nodes, i);
      WithoutApart(list.nodes, added.nodes, i);
      assert L.Linked(list.nodes, i);
      DatasAt(list.nodes, i);
      hide L.Apart, Within, L.Without, L.Datas;
      more := [];
      j := i;
      if b.data.id in removed {
        removed := removed - {b.data.id};
        next := list.Erase(b, i);
      } else {
        more := [b.data];
        if expires {
          next := list.Erase(b, i);
        } else {
          next := b.next;
          j := i + 1;
        }
      }
    }

    /** One turn of the loop: first whatever happens before it, then the slot under the iterator. */
    method TakeTurn(b: L.Node<SlotInfo>, ghost i: nat, ghost ran: seq<SlotInfo>, turn: Turn)
      returns (next: L.Node?<SlotInfo>, ghost j: nat, more: seq<SlotInfo>)
      requires Valid() && i < |list.nodes| && list.nodes[i] == b
      modifies this, list, added, list.nodes, added.nodes
      ensures Valid() && j <= |list.nodes| && next == L.At(list.nodes, j)
      ensures ActAll(old(State()), turn.actions).list == old(State()).list
      ensures Emission(State(), j, ran + more) == Visit(Emission(old(State()), i, ran), turn)
      ensures Within(list.nodes, old(list.nodes))
      ensures forall k | 0 <= k < |added.nodes| :: added.nodes[k] in old(added.nodes) || fresh(added.nodes[k])
    {
      VisitKept(Emission(State(), i, ran), turn);
      hide Inv, Filter, Live, ActAll, VisitNow;
      PerformAll(turn.actions);
      next, j, more := VisitSlot(b, i, ran, turn.expires);
    }

    /** `splice_added`. */
    method SpliceAdded()
      requires Valid()
      modifies this, list, added, list.nodes, added.nodes
      ensures Valid() && State() == Spliced(old(State()))
      ensures list.nodes == old(list.nodes) + old(added.nodes) && added.nodes == []
    {
      SplicedKept(State());
      L.ConcatDatas(list.nodes, added.nodes);
      list.SpliceBack(added);
    }

    method FinishEmission()
      requires Valid()
      modifies this, list, list.nodes
      ensures Valid() && State() == Cleared(old(State()))
    {
      ClearedKept(State());
      SortedParts(State().list, State().added);
      hide Inv, Filter;
      ClearRemoved(list, removed);
      removed := {};
    }

    /** The loop of an emission over the spliced list. */
    method VisitAll(script: seq<Turn>) returns (ran: seq<SlotInfo>)
      requires Valid()
      modifies this, list, added, list.nodes, added.nodes
      ensures Valid() && Emission(State(), |list.nodes|, ran) == Emitted(Emission(old(State()), 0, []), script)
      ensures Within(list.nodes, old(list.nodes))
      ensures forall k | 0 <= k < |added.nodes| :: added.nodes[k] in old(added.nodes) || fresh(added.nodes[k])
    {
      hide Inv, Filter, Live, Visit, ActAll, Emitted;
      ran := [];
      var rest := script;
      var b := list.front;
      ghost var i: nat := 0;
      while b != null
        invariant Valid() && i <= |list.nodes| && b == L.At(list.nodes, i)
        invariant Emitted(Emission(State(), i, ran), rest) == Emitted(Emission(old(State()), 0, []), script)
        invariant Within(list.nodes, old(list.nodes))
        invariant forall k | 0 <= k < |added.nodes| :: added.nodes[k] in old(added.nodes) || fresh(added.nodes[k])
        decreases |list.nodes| - i
      {
        EmittedStep(Emission(State(), i, ran), rest);
        VisitShrinks(Emission(State(), i, ran), TurnAt(rest));
        var more;
        b, i, more := TakeTurn(b, i, ran, TurnAt(rest));
        ran := ran + more;
        rest := Rest(rest);
      }
      PastTheEnd(list.nodes, i);
      EmittedEnd(Emission(State(), i, ran), rest);
    }

    /**
     * An emission; `script` says what happens before each turn and whether the slot expires when it runs, `last`
     * what happens after the last turn, before the removed slots are dropped.
     */
    method Emit(script: seq<Turn>, last: seq<Action>) returns (ran: seq<SlotInfo>)
      requires Valid()
      modifies this, list, added, list.nodes, added.nodes
      ensures Valid()
      ensures
        var before, all := old(State()), old(State()).list + old(State()).added;
        && ran == Expected(all, before.removed, before.nextId, script)
        && Live(State()) == LiveActAll(LiveAfter(Live(before), all, before.removed, before.nextId, script),
                                       IdAfter(all, before.nextId, script), last)
    {
      hide Inv, Filter, Live, Emitted, Expected, LiveAfter, ActAll, LiveActAll, IdAfter, Unsubscribed, NextId;
      SplicedKept(State());
      SpliceAdded();
      EmittedRight(Emission(State(), 0, []), script);
      ran := VisitAll(script);
      ActAllKept(State(), last);
      PerformAll(last);
      ClearedKept(State());
      FinishEmission();
    }
  }

  lemma EmittedEnd(e: Emission, script: seq<Turn>)
    requires e.pos == |e.reg.list|
    ensures Emitted(e, script) == e
  {
  }
}
