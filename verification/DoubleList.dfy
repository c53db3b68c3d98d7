/** The doubly linked list of components/kvs_utils/src/double_linked_list.c against the sequence of its
    nodes. */
module DoubleList {

  datatype Status = Success | InvalidArg | InternalError

  class Node {
    var data: nat
    var next: Node?
    var prev: Node?

    constructor (data: nat)
      ensures this.data == data && next == null && prev == null
    {
      this.data, next, prev := data, null, null;
    }
  }

  /** Entry k of s, null outside it. */
  function At(s: seq<Node>, k: int): Node? { if 0 <= k < |s| then s[k] else null }

  ghost predicate Distinct(s: seq<Node>) { forall i, j | 0 <= i < j < |s| :: s[i] != s[j] }

  /** Neighbours in s point to each other, except, if there is a gap, the entries around it. */
  ghost predicate Joined(s: seq<Node>, gap: int)
    reads s
  {
    forall i, j | 0 <= i < j < |s| && j == i + 1 && j != gap :: s[i].next == s[j] && s[j].prev == s[i]
  }

  /** Neighbours in s point to each other, except entry k and those around it. */
  ghost predicate JoinedAround(s: seq<Node>, k: int)
    reads s
  {
    forall i, j | 0 <= i < j < |s| && j == i + 1 && i != k && j != k :: s[i].next == s[j] && s[j].prev == s[i]
  }

  /** Each node points to its neighbours in s, and no node is there twice. */
  ghost predicate Linked(s: seq<Node>)
    reads s
  {
    && Distinct(s) && Joined(s, 0)
    && (s != [] ==> s[0].prev == null && s[|s| - 1].next == null)
  }

  /** The nodes met by following next from n, at most fuel of them. */
  ghost function Forward(n: Node?, fuel: nat, all: set<Node>): seq<Node>
    reads all
  {
    if n == null || fuel == 0 || n !in all then [] else [n] + Forward(n.next, fuel - 1, all)
  }

  /** The nodes met by following prev from n. */
  ghost function Backward(n: Node?, fuel: nat, all: set<Node>): seq<Node>
    reads all
  {
    if n == null || fuel == 0 || n !in all then [] else [n] + Backward(n.prev, fuel - 1, all)
  }

  function Reversed<T>(s: seq<T>): seq<T> {
    if s == [] then [] else [s[|s| - 1]] + Reversed(s[..|s| - 1])
  }

  lemma {:induction false} ForwardFrom(s: seq<Node>, i: nat, fuel: nat, all: set<Node>)
    requires Linked(s) && i <= |s| && |s| - i <= fuel && forall n | n in s :: n in all
    ensures Forward(if i < |s| then s[i] else null, fuel, all) == s[i..]
    decreases |s| - i
  {
    if i < |s| {
      ForwardFrom(s, i + 1, fuel - 1, all);
      assert s[i..] == [s[i]] + s[i + 1..];
    }
  }

  lemma {:induction false} BackwardFrom(s: seq<Node>, i: nat, fuel: nat, all: set<Node>)
    requires Linked(s) && i <= |s| && i <= fuel && forall n | n in s :: n in all
    ensures Backward(if i > 0 then s[i - 1] else null, fuel, all) == Reversed(s[..i])
  {
    if i > 0 {
      BackwardFrom(s, i - 1, fuel - 1, all);
      assert s[..i][..i - 1] == s[..i - 1];
    }
  }

  /** The links are right after putting x in front of entry k of s. */
  lemma LinkedWith(s: seq<Node>, k: nat, x: Node)
    requires Distinct(s) && Joined(s, k) && k <= |s| && x !in s
    requires x.prev == At(s, k - 1) && x.next == At(s, k)
    requires if k > 0 then s[k - 1].next == x && s[0].prev == null else true
    requires if k < |s| then s[k].prev == x && s[|s| - 1].next == null else true
    ensures Linked(s[..k] + [x] + s[k..])
  {}

  /** The links are right after taking entry k out of s. */
  lemma LinkedWithout(s: seq<Node>, k: nat)
    requires Distinct(s) && k < |s| && JoinedAround(s, k)
    requires k > 0 ==> s[k - 1].next == At(s, k + 1) && s[0].prev == null
    requires k + 1 < |s| ==> s[k + 1].prev == At(s, k - 1) && s[|s| - 1].next == null
    ensures Linked(s[..k] + s[k + 1..])
  {}

  class List {
    var head: Node?
    var tail: Node?
    var count: nat
    /** The nodes of the list, in order. */
    ghost var nodes: seq<Node>

    ghost predicate Valid()
      reads this, nodes
    {
      Linked(nodes) && count == |nodes| && head == At(nodes, 0) && tail == At(nodes, |nodes| - 1)
    }

    /** doubleListCreate. */
    constructor ()
      ensures Valid() && nodes == []
    {
      head, tail, count, nodes := null, null, 0, [];
    }

    /** The next links from the head spell the list and the prev links from the tail spell it backwards,
        both in count steps and no sooner or later. */
    lemma LinksSpell(all: set<Node>, fuel: nat)
      requires Valid() && fuel >= count && forall n | n in nodes :: n in all
      ensures Forward(head, fuel, all) == nodes && Backward(tail, fuel, all) == Reversed(nodes)
      ensures |Forward(head, fuel, all)| == count == |Backward(tail, fuel, all)|
    {
      ForwardFrom(nodes, 0, fuel, all);
      BackwardFrom(nodes, count, fuel, all);
      assert nodes[..count] == nodes && nodes[0..] == nodes;
      ReversedLength(nodes);
    }

    /** doubleListInsertNodeHeadInternal. */
    method InsertNodeHead(node: Node) returns (status: Status)
      requires Valid() && node !in nodes
      modifies this, node`next, node`prev, nodes`prev
      ensures Valid() && status == Success && nodes == [node] + old(nodes)
    {
      node.prev := null;
      node.next := head;
      if head != null {
        head.prev := node;
      } else {
        if tail != null { return InternalError; }
        tail := node;
      }
      head := node;
      count := count + 1;
      LinkedWith(nodes, 0, node);
      assert nodes[..0] + [node] + nodes[0..] == [node] + nodes;
      nodes := [node] + nodes;
      status := Success;
    }

    /** doubleListInsertNodeTailInternal. */
    method InsertNodeTail(node: Node) returns (status: Status)
      requires Valid() && node !in nodes
      modifies this, node`next, node`prev, nodes`next
      ensures Valid() && status == Success && nodes == old(nodes) + [node]
    {
      node.prev := tail;
      node.next := null;
      if tail != null {
        tail.next := node;
      } else {
        if head != null { return InternalError; }
        head := node;
      }
      tail := node;
      count := count + 1;
      LinkedWith(nodes, |nodes|, node);
      assert nodes[..|nodes|] + [node] + nodes[|nodes|..] == nodes + [node];
      nodes := nodes + [node];
      status := Success;
    }

    /** doubleListInsertNodeBeforeInternal, in front of entry i. */
    method InsertNodeBefore(node: Node, insert: Node, ghost i: nat) returns (status: Status)
      requires Valid() && i < |nodes| && node == nodes[i] && insert !in nodes
      modifies this, insert`next, insert`prev, nodes`next, nodes`prev
      ensures Valid() && status == Success && nodes == old(nodes[..i] + [insert] + nodes[i..])
    {
      assert node.prev == At(nodes, i - 1);
      insert.prev := node.prev;
      insert.next := node;
      if node.prev != null {
        node.prev.next := insert;
      } else {
        if head != node { return InternalError; }
        head := insert;
      }
      node.prev := insert;
      count := count + 1;
      LinkedWith(nodes, i, insert);
      nodes := nodes[..i] + [insert] + nodes[i..];
      status := Success;
    }

    /** doubleListInsertNodeAfterInternal, behind entry i. */
    method InsertNodeAfter(node: Node, insert: Node, ghost i: nat) returns (status: Status)
      requires Valid() && i < |nodes| && node == nodes[i] && insert !in nodes
      modifies this, insert`next, insert`prev, nodes`next, nodes`prev
      ensures Valid() && status == Success && nodes == old(nodes[..i + 1] + [insert] + nodes[i + 1..])
    {
      assert node.next == At(nodes, i + 1);
      insert.prev := node;
      insert.next := node.next;
      if node.next != null {
        node.next.prev := insert;
      } else {
        if tail != node { return InternalError; }
        tail := insert;
      }
      node.next := insert;
      count := count + 1;
      LinkedWith(nodes, i + 1, insert);
      nodes := nodes[..i + 1] + [insert] + nodes[i + 1..];
      status := Success;
    }

    /** doubleListRemoveNodeInternal, of entry i. */
    method RemoveNode(node: Node, ghost i: nat) returns (status: Status)
      requires Valid() && i < |nodes| && node == nodes[i]
      modifies this, nodes`next, nodes`prev
      ensures Valid() && status == Success && nodes == old(nodes[..i] + nodes[i + 1..])
      ensures node.next == null && node.prev == null
    {
      hide Distinct, Joined, Linked;
      status := Bypass(node, i);
      if status != Success { return; }
      node.next := null;
      node.prev := null;
      count := count - 1;
      nodes := nodes[..i] + nodes[i + 1..];
    }

    /** Joins the neighbours of entry i to each other. */
    method Bypass(node: Node, ghost i: nat) returns (status: Status)
      requires Valid() && i < |nodes| && node == nodes[i]
      modifies this`head, this`tail, nodes`next, nodes`prev
      ensures status == Success && Linked(nodes[..i] + nodes[i + 1..]) && node !in nodes[..i] + nodes[i + 1..]
      ensures head == (if i == 0 then At(nodes, 1) else nodes[0])
      ensures tail == (if i == |nodes| - 1 then At(nodes, i - 1) else nodes[|nodes| - 1])
    {
      assert node.prev == At(nodes, i - 1) && node.next == At(nodes, i + 1);
      if node.prev != null {
        node.prev.next := node.next;
      } else {
        if head != node { return InternalError; }
        head := node.next;
      }
      if node.next != null {
        node.next.prev := node.prev;
      } else {
        if tail != node { return InternalError; }
        tail := node.prev;
      }
      LinkedWithout(nodes, i);
      status := Success;
    }

    /** doubleListDeleteHead; deleted is the node given back. */
    method DeleteHead() returns (status: Status, ghost deleted: Node?)
      requires Valid()
      modifies this, nodes`next, nodes`prev
      ensures Valid() && status == Success
      ensures if old(nodes) == [] then nodes == [] && deleted == null else nodes == old(nodes[1..]) && deleted == old(nodes[0])
    {
      if head == null { return Success, null; }
      var node := head;
      assert nodes[..0] + nodes[1..] == nodes[1..];
      status := RemoveNode(node, 0);
      deleted := node;
    }

    /** doubleListDeleteTail. */
    method DeleteTail() returns (status: Status, ghost deleted: Node?)
      requires Valid()
      modifies this, nodes`next, nodes`prev
      ensures Valid() && status == Success
      ensures if old(nodes) == [] then nodes == [] && deleted == null
        else nodes == old(nodes[..|nodes| - 1]) && deleted == old(nodes[|nodes| - 1])
    {
      if tail == null { return Success, null; }
      var node := tail;
      assert nodes[..|nodes| - 1] + nodes[|nodes|..] == nodes[..|nodes| - 1];
      status := RemoveNode(node, |nodes| - 1);
      deleted := node;
    }

    /** doubleListGetNodeAt. */
    method GetNodeAt(index: nat) returns (status: Status, node: Node?)
      requires Valid()
      ensures if index < |nodes| then status == Success && node == nodes[index] else status == InvalidArg && node == null
    {
      if index >= count { return InvalidArg, null; }
      node := head;
      var i := 0;
      while i < index
        invariant i <= index < |nodes| && node == nodes[i]
      {
        if node == null { return InternalError, null; }
        assert nodes[i].next == nodes[i + 1];
        node := node.next;
        i := i + 1;
      }
      status := Success;
    }

    /** Frees the data of a node. */
    method ClearData(n: Node)
      requires Linked(nodes)
      modifies n`data
      ensures n.data == 0 && Linked(nodes)
    {
      n.data := 0;
    }

    /** doubleListClear: gives back every node; freed are they, in order. */
    method Clear(freeData: bool) returns (ghost freed: seq<Node>)
      requires Valid()
      modifies this, nodes`data
      ensures Valid() && nodes == [] && freed == old(nodes)
      ensures freeData ==> forall n | n in freed :: n.data == 0
    {
      freed := [];
      var cur := head;
      hide Distinct, Joined;
      while cur != null
        invariant Linked(nodes)
        invariant |freed| <= |nodes| && freed == nodes[..|freed|] && cur == At(nodes, |freed|)
        invariant freeData ==> forall n | n in freed :: n.data == 0
        decreases |nodes| - |freed|
        modifies nodes`data
      {
        assert nodes[..|freed| + 1] == freed + [cur];
        NextOf(nodes, |freed|);
        var next := cur.next;
        if freeData && cur.data != 0 { ClearData(cur); }
        freed := freed + [cur];
        cur := next;
      }
      count, head, tail, nodes := 0, null, null, [];
      LinkedNone();
    }

    /** doubleListAppendList: joins the lists and gives back the other's structure. */
    method AppendList(other: List?) returns (status: Status, rest: List?)
      requires Valid()
      requires other != null ==> other != this && other.Valid() && forall n | n in nodes :: n !in other.nodes
      modifies this, nodes`next
      modifies if other == null then [] else other.nodes`prev
      ensures Valid() && status == Success && rest == null
      ensures nodes == old(nodes) + (if other == null then [] else old(other.nodes))
    {
      rest := null;
      if other == null { return Success, null; }
      if count == 0 {
        head, tail := other.head, other.tail;
      } else if other.count != 0 {
        assert nodes[0] in nodes && nodes[|nodes| - 1] in nodes && other.nodes[0] in other.nodes;
        assert other.nodes[|other.nodes| - 1] !in nodes;
        tail.next := other.head;
        other.head.prev := tail;
        tail := other.tail;
      }
      count := count + other.count;
      JoinedLists(nodes, other.nodes);
      nodes := nodes + other.nodes;
      status := Success;
    }
  }

  lemma LinkedNone()
    ensures Linked([])
  {}

  lemma NextOf(s: seq<Node>, i: nat)
    requires Linked(s) && i < |s|
    ensures s[i].next == At(s, i + 1)
  {}

  /** Two lists whose ends point to each other are one. */
  lemma JoinedLists(a: seq<Node>, b: seq<Node>)
    requires Distinct(a) && Distinct(b) && Joined(a, 0) && Joined(b, 0) && forall n | n in a :: n !in b
    requires a != [] ==> a[0].prev == null && a[|a| - 1].next == At(b, 0)
    requires b != [] ==> b[0].prev == At(a, |a| - 1) && b[|b| - 1].next == null
    ensures Linked(a + b)
  {
    var t := a + b;
    assert forall i | 0 <= i < |a| :: t[i] == a[i] && a[i] !in b;
    assert forall i | |a| <= i < |t| :: t[i] == b[i - |a|];
  }

  lemma {:induction false} ReversedLength<T>(s: seq<T>)
    ensures |Reversed(s)| == |s|
  {
    if s != [] { ReversedLength(s[..|s| - 1]); }
  }
}
