/** The objects of lib/vtrc/common/condition-queues.h, each method run without interference from other threads. */
module ConditionQueueObjects {
  import opened ConditionQueues
  import opened Wrappers

  /** `hold_value_type`. */
  class HoldValue<T> {
    var data: seq<T>
    var canceled: bool

    constructor ()
      ensures data == [] && !canceled
    {
      data := [];
      canceled := false;
    }
  }

  class QueueStore<T> {
    var store: map<nat, HoldValue<T>>

    ghost predicate Valid() reads this {
      forall k, l | k in store && l in store && k != l :: store[k] != store[l]
    }

    ghost function Contents(): map<nat, seq<T>> reads this, store.Values {
      map k | k in store :: store[k].data
    }

    constructor ()
      ensures Valid() && Contents() == map[]
    {
      store := map[];
    }

    method AddQueue(key: nat)
      requires Valid()
      modifies this
      ensures Valid() && Contents() == Apply(old(Contents()), Open(key))
      ensures forall k | k in old(store) :: k in store && store[k] == old(store[k])
    {
      var value := new HoldValue<T>();
      if key !in store {
        store := store[key := value];
      }
    }

    /** The key goes; whoever waits on its queue finds it canceled. */
    method EraseQueue(key: nat)
      requires Valid()
      modifies this, store.Values
      ensures Valid() && Contents() == Apply(old(Contents()), Close(key))
      ensures key in old(store) ==> old(store[key]).canceled
      ensures forall h | h in old(store.Values) :: h.data == old(h.data)
    {
      if key in store {
        store[key].canceled := true;
        store := store - {key};
      }
    }

    /** `cancel`; false stands for the out_of_range exception. */
    method Cancel(key: nat) returns (found: bool)
      requires Valid()
      modifies store.Values
      ensures Valid() && found == (key in store) && Contents() == old(Contents())
      ensures forall k | k in store :: store[k].canceled == (k == key || old(store[k].canceled))
    {
      found := key in store;
      if found {
        store[key].canceled := true;
      }
    }

    method WriteQueueIfExists(key: nat, item: T) returns (written: bool)
      requires Valid()
      modifies store.Values
      ensures Valid() && written == (key in old(Contents()))
      ensures Contents() == Apply(old(Contents()), Append(key, item))
    {
      written := key in store;
      if written {
        var value := store[key];
        value.data := value.data + [item];
      }
    }

    method WriteAll(item: T) returns (count: nat)
      requires Valid()
      modifies store.Values
      ensures Valid() && count == |store| && Contents() == Apply(old(Contents()), AppendAll(item))
    {
      count := 0;
      var rest := store.Keys;
      while rest != {}
        invariant Valid() && rest <= store.Keys && count + |rest| == |store.Keys|
        invariant forall k | k in rest :: store[k].data == old(store[k].data)
        invariant forall k | k in store.Keys - rest :: store[k].data == old(store[k].data) + [item]
        decreases |rest|
      {
        var key :| key in rest;
        var value := store[key];
        value.data := value.data + [item];
        rest := rest - {key};
        count := count + 1;
      }
    }

    /**
     * `read`; None stands for the out_of_range exception. If the queue is empty the thread waits, and `arrived`
     * and `cancel` are what other threads do meanwhile; without a limit the wait ends only after one of the two.
     */
    method Read(key: nat, limited: bool, arrived: seq<T>, cancel: bool) returns (r: Option<Result<T>>)
      requires Valid()
      requires key in store && store[key].data == [] && !limited ==> arrived != [] || cancel
      modifies store.Values
      ensures Valid() && (r == None <==> key !in store)
      ensures key !in store ==> Contents() == old(Contents())
      ensures key in store ==>
        var waits := old(store[key].data) == [];
        var there, canceled := if waits then arrived else old(store[key].data), waits && cancel;
        && r.value.code == (if canceled then CANCELED else if there != [] then SUCCESS else TIMEOUT)
        && r.value.item == (if r.value.code == SUCCESS then Some(there[0]) else None)
        && Contents() == old(Contents())[key := if r.value.code == SUCCESS then there[1..] else there]
        && store[key].canceled == canceled
    {
      if key !in store {
        return None;
      }
      var value := store[key];
      value.canceled := false;
      if value.data == [] {
        value.data, value.canceled := arrived, cancel;
      }
      var waited := !limited || value.data != [] || value.canceled;
      var item: Option<T> := None;
      if !value.canceled && value.data != [] {
        item := Some(value.data[0]);
        value.data := value.data[1..];
      }
      r := Some(Result(ResultCode(value.canceled, waited), item));
    }
  }
}
