/** The doubly linked list of include/vtrc/common/details/list.h. */
module LinkedList {

  class Node<T> {
    var prev: Node?<T>
    var next: Node?<T>
    const data: T

    constructor (data: T)
      ensures this.data == data && prev == null && next == null
    {
      this.data := data;
      prev := null;
      next := null;
    }
  }

  /** The data of the nodes, front to back. */
  function Datas<T>(nodes: seq<Node<T>>): seq<T> {
    seq(|nodes|, i requires 0 <= i < |nodes| => nodes[i].data)
  }

  function At<T>(nodes: seq<Node<T>>, i: int): Node?<T> {
    if 0 <= i < |nodes| then nodes[i] else null
  }

  /** The `i`-th node points at its neighbours in the sequence. */
  ghost predicate Linked<T>(nodes: seq<Node<T>>, i: int)
    requires 0 <= i < |nodes|
    reads nodes
  {
    nodes[i].prev == At(nodes, i - 1) && nodes[i].next == At(nodes, i + 1)
  }

  ghost predicate Distinct<T>(nodes: seq<Node<T>>) {
    forall i, j | 0 <= i < j < |nodes| :: nodes[i] != nodes[j]
  }

  /** No node is in both. */
  ghost predicate Apart<T>(a: seq<Node<T>>, b: seq<Node<T>>) {
    forall i, j | 0 <= i < |a| && 0 <= j < |b| :: a[i] != b[j]
  }

  ghost predicate Chained<T>(nodes: seq<Node<T>>)
    reads nodes
  {
    forall i | 0 <= i < |nodes| :: Linked(nodes, i)
  }

  /** A sequence without its `i`-th element. */
  function Without<A>(s: seq<A>, i: nat): seq<A>
    requires i < |s|
  {
    s[..i] + s[i + 1..]
  }

  lemma WithoutAt<T>(s: seq<Node<T>>, i: nat, j: int)
    requires i < |s|
    ensures At(Without(s, i), j) == if j < i then At(s, j) else At(s, j + 1)
  {
  }

  lemma ConcatAt<T>(a: seq<Node<T>>, b: seq<Node<T>>, i: int)
    ensures At(a + b, i) == if i < |a| then At(a, i) else At(b, i - |a|)
  {
  }

  lemma DistinctConcat<T>(a: seq<Node<T>>, b: seq<Node<T>>)
    requires Distinct(a) && Distinct(b) && Apart(a, b)
    ensures Distinct(a + b)
  {
  }

  lemma ConcatDatas<T>(a: seq<Node<T>>, b: seq<Node<T>>)
    ensures Datas(a + b) == Datas(a) + Datas(b)
  {
  }

  lemma EndsConcat<T>(a: seq<Node<T>>, b: seq<Node<T>>)
    ensures At(a + b, 0) == if a == [] then At(b, 0) else At(a, 0)
    ensures At(a + b, |a + b| - 1) == if b == [] then At(a, |a| - 1) else At(b, |b| - 1)
    ensures (At(a, 0) == null <==> a == []) && (At(b, 0) == null <==> b == [])
    ensures (a == [] ==> a + b == b) && (b == [] ==> a + b == a)
    ensures a != [] ==> At(a, |a| - 1) == a[|a| - 1]
    ensures b != [] ==> At(b, 0) == b[0]
  {
    ConcatAt(a, b, 0);
    ConcatAt(a, b, |a + b| - 1);
    if a == [] {
      assert a + b == b;
    }
    if b == [] {
      assert a + b == a;
    }
  }

  lemma EmptyChain<T>()
    ensures Chained<T>([]) && Distinct<T>([]) && At<T>([], 0) == null && At<T>([], -1) == null
  {
  }

  lemma WithoutDatas<T>(s: seq<Node<T>>, i: nat)
    requires i < |s|
    ensures Datas(Without(s, i)) == Without(Datas(s), i)
  {
  }

  /** Two chains become one where the last node of the first meets the first node of the second. */
  method JoinEnds<T>(last: Node<T>, first: Node<T>, ghost a: seq<Node<T>>, ghost b: seq<Node<T>>)
    requires Chained(a) && Chained(b) && Distinct(a + b)
    requires a != [] && b != [] && a[|a| - 1] == last && b[0] == first
    modifies last, first
    ensures Chained(a + b)
  {
    assert forall i | 0 <= i < |a| :: (a + b)[i] == a[i];
    assert forall j | 0 <= j < |b| :: (a + b)[|a| + j] == b[j];
    assert forall i | 0 <= i < |a| - 1 :: a[i] != last && a[i] != first;
    assert forall j | 0 < j < |b| :: b[j] != last && b[j] != first;
    assert last != first;
    hide Distinct;
    last.next := first;
    first.prev := last;
    forall i | 0 <= i < |a + b| ensures Linked(a + b, i) {
      ConcatAt(a, b, i - 1);
      ConcatAt(a, b, i + 1);
      if i < |a| {
        assert old(Linked(a, i));
      } else {
        assert old(Linked(b, i - |a|));
      }
    }
  }

  lemma WithoutLength<A>(s: seq<A>, i: nat)
    requires i < |s|
    ensures |Without(s, i)| == |s| - 1
  {
  }

  lemma DistinctWithout<T>(s: seq<Node<T>>, i: nat)
    requires Distinct(s) && i < |s|
    ensures Distinct(Without(s, i))
  {
    var w := Without(s, i);
    forall j, k | 0 <= j < k < |w| ensures w[j] != w[k] {
      assert w[j] == s[if j < i then j else j + 1] && w[k] == s[if k < i then k else k + 1];
    }
  }

  function Self<T>(node: Node?<T>): set<object> {
    if node == null then {} else {node}
  }

  /** Two nodes, either of which may be missing, become neighbours. */
  method Join<T>(left: Node?<T>, right: Node?<T>)
    modifies Self(left), Self(right)
    ensures left != null ==> left.next == right
    ensures right != null ==> right.prev == left
    ensures left != null && left != right ==> left.prev == old(left.prev)
    ensures right != null && left != right ==> right.next == old(right.next)
  {
    if left != null {
      left.next := right;
    }
    if right != null {
      right.prev := left;
    }
  }

  /** The `k`-th node points at its neighbours in the sequence, but for the `i`-th one, which is passed over. */
  ghost predicate Passed<T>(nodes: seq<Node<T>>, i: nat, k: int)
    requires 0 <= k < |nodes|
    reads nodes
  {
    && nodes[k].prev == At(nodes, if k == i + 1 then i - 1 else k - 1)
    && nodes[k].next == At(nodes, if k == i - 1 then i + 1 else k + 1)
  }

  lemma PassedChained<T>(nodes: seq<Node<T>>, i: nat)
    requires i < |nodes| && forall k | 0 <= k < |nodes| :: Passed(nodes, i, k)
    ensures Chained(Without(nodes, i))
  {
    var w := Without(nodes, i);
    forall j | 0 <= j < |w| ensures Linked(w, j) {
      WithoutAt(nodes, i, j - 1);
      WithoutAt(nodes, i, j);
      WithoutAt(nodes, i, j + 1);
      assert Passed(nodes, i, if j < i then j else j + 1);
    }
  }

  lemma DistinctAt<T>(nodes: seq<Node<T>>, k: int, i: int)
    requires Distinct(nodes) && 0 <= k < |nodes| && k != i
    ensures nodes[k] != At(nodes, i)
  {
  }

  /** A node's neighbours are made to point past it. */
  method Bypass<T>(node: Node<T>, ghost nodes: seq<Node<T>>, ghost i: nat)
    requires Chained(nodes) && Distinct(nodes) && i < |nodes| && nodes[i] == node
    modifies Self(At(nodes, i - 1)), Self(At(nodes, i + 1))
    ensures Chained(Without(nodes, i)) && node.prev == old(node.prev) && node.next == old(node.next)
  {
    assert Linked(nodes, i);
    ghost var left, right := At(nodes, i - 1), At(nodes, i + 1);
    forall k | 0 <= k < |nodes|
      ensures (k != i - 1 ==> nodes[k] != left) && (k != i + 1 ==> nodes[k] != right)
    {
      if k != i - 1 { DistinctAt(nodes, k, i - 1); }
      if k != i + 1 { DistinctAt(nodes, k, i + 1); }
    }
    hide Distinct;
    Join(node.prev, node.next);
    forall k | 0 <= k < |nodes| ensures Passed(nodes, i, k) {
      assert old(Linked(nodes, k));
    }
    hide *;
    PassedChained(nodes, i);
  }

  class List<T> {
    var front: Node?<T>
    var back: Node?<T>
    var size: nat
    ghost var nodes: seq<Node<T>>

    ghost predicate Valid()
      reads this, nodes
    {
      && Distinct(nodes) && Chained(nodes)
      && front == At(nodes, 0) && back == At(nodes, |nodes| - 1) && size == |nodes|
    }

    constructor ()
      ensures Valid() && nodes == []
    {
      front, back, size := null, null, 0;
      nodes := [];
    }

    method PushBack(data: T)
      requires Valid()
      modifies this, nodes
      ensures Valid() && |nodes| == |old(nodes)| + 1 && nodes[..|old(nodes)|] == old(nodes)
      ensures fresh(nodes[|old(nodes)|]) && Datas(nodes) == Datas(old(nodes)) + [data]
    {
      var node := new Node(data);
      if front != null {
        node.prev := back;
        back.next := node;
        back := node;
      } else {
        back, front := node, node;
      }
      size := size + 1;
      nodes := nodes + [node];
      assert Chained(nodes) by {
        forall i | 0 <= i < |nodes| ensures Linked(nodes, i) {
          if i < |nodes| - 1 {
            assert old(Linked(nodes, i));
          }
        }
      }
    }

    method PushFront(data: T)
      requires Valid()
      modifies this, nodes
      ensures Valid() && |nodes| == |old(nodes)| + 1 && nodes[1..] == old(nodes)
      ensures fresh(nodes[0]) && Datas(nodes) == [data] + Datas(old(nodes))
    {
      var node := new Node(data);
      if front != null {
        node.next := front;
        front.prev := node;
        front := node;
      } else {
        back, front := node, node;
      }
      size := size + 1;
      nodes := [node] + nodes;
      assert Chained(nodes) by {
        forall i | 0 <= i < |nodes| ensures Linked(nodes, i) {
          if i > 0 {
            assert old(Linked(nodes, i - 1));
          }
        }
      }
    }

    /** `cerase`: the node's neighbours are joined. `i` is the node's position. */
    method Unlink(node: Node<T>, ghost i: nat)
      requires Valid() && i < |nodes| && nodes[i] == node
      modifies this, nodes
      ensures Valid() && nodes == Without(old(nodes), i)
    {
      assert Linked(nodes, i);
      assert node == back <==> i == |nodes| - 1;
      assert node == front <==> i == 0;
      DistinctWithout(nodes, i);
      WithoutAt(nodes, i, 0);
      WithoutAt(nodes, i, |nodes| - 2);
      Bypass(node, nodes, i);
      hide Distinct, Chained, Linked, Without;
      assert |Without(nodes, i)| == |nodes| - 1 by { WithoutLength(nodes, i); }
      if node == back {
        back := node.prev;
      }
      if node == front {
        front := node.next;
      }
      size := size - 1;
      nodes := Without(nodes, i);
    }

    /** Returns the node after the one erased; the end of the list is left alone and returned. */
    method Erase(node: Node?<T>, ghost i: nat) returns (next: Node?<T>)
      requires Valid() && (node != null ==> i < |nodes| && nodes[i] == node)
      modifies this, nodes
      ensures Valid() && (node == null ==> nodes == old(nodes) && next == null)
      ensures node != null ==> nodes == Without(old(nodes), i) && next == At(nodes, i)
    {
      if node == null {
        return null;
      }
      assert Linked(nodes, i);
      next := node.next;
      Unlink(node, i);
    }

    /** Returns the node before the one erased; the end of the list is left alone and returned. */
    method ReverseErase(node: Node?<T>, ghost i: nat) returns (prev: Node?<T>)
      requires Valid() && (node != null ==> i < |nodes| && nodes[i] == node)
      modifies this, nodes
      ensures Valid() && (node == null ==> nodes == old(nodes) && prev == null)
      ensures node != null ==> nodes == Without(old(nodes), i) && prev == At(nodes, i - 1)
    {
      if node == null {
        return null;
      }
      assert Linked(nodes, i);
      prev := node.prev;
      Unlink(node, i);
    }

    /** The ends of this list and the link between the two, as they will be once `other` follows. */
    method LinkBack(other: List<T>)
      requires Valid() && other.Valid() && other != this && Apart(nodes, other.nodes)
      modifies this`front, this`back, nodes, other.nodes
      ensures Chained(nodes + other.nodes) && Distinct(nodes + other.nodes)
      ensures front == At(nodes + other.nodes, 0) && back == At(nodes + other.nodes, |nodes + other.nodes| - 1)
    {
      hide Distinct, Linked, Chained, At, Apart;
      DistinctConcat(nodes, other.nodes);
      EndsConcat(nodes, other.nodes);
      if front == null {
        front, back := other.front, other.back;
      } else if other.front != null {
        MeetEnds(other);
        back := other.back;
      }
    }

    /** Neither list is empty: the last node of this one meets the first of the other. */
    method MeetEnds(other: List<T>)
      requires Valid() && other.Valid() && Distinct(nodes + other.nodes) && front != null && other.front != null
      modifies nodes, other.nodes
      ensures Chained(nodes + other.nodes)
    {
      EndsConcat(nodes, other.nodes);
      hide Distinct, Linked, Chained, At;
      assert back in nodes && other.front in other.nodes;
      JoinEnds(back, other.front, nodes, other.nodes);
    }

    /** All of `other`'s nodes move to the end of this list; a list is not spliced into itself. */
    method SpliceBack(other: List<T>)
      requires Valid() && other.Valid() && (other != this ==> Apart(nodes, other.nodes))
      modifies this, other, nodes, other.nodes
      ensures Valid() && nodes == old(nodes) + if other == this then [] else old(other.nodes)
      ensures other != this ==> other.Valid() && other.nodes == []
    {
      if other == this {
        assert nodes + [] == nodes;
        return;
      }
      LinkBack(other);
      hide Distinct, Linked, Chained, At;
      size := size + other.size;
      nodes := nodes + other.nodes;
      other.front, other.back, other.size, other.nodes := null, null, 0, [];
      EmptyChain<T>();
    }

    method Swap(other: List<T>)
      requires Valid() && other.Valid()
      modifies this, other
      ensures Valid() && other.Valid() && nodes == old(other.nodes) && other.nodes == old(nodes)
    {
      hide Chained, Distinct, At;
      front, other.front := other.front, front;
      back, other.back := other.back, back;
      size, other.size := other.size, size;
      nodes, other.nodes := other.nodes, nodes;
    }
  }
}
