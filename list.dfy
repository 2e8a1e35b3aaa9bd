/** The intrusive doubly-linked FIFO list of the libdill generation
    (Sources/Venice/List.swift; Sources/Channel.swift carries a private copy
    of the same code).  `previous` is a weak reference in Swift, which makes
    no difference to the links modelled here. */
module DList {
  import opened Base

  class Node<T> {
    var value: T
    var next: Node?<T>
    var previous: Node?<T>

    constructor (value: T)
      ensures this.value == value && next == null && previous == null
    {
      this.value := value;
      next := null;
      previous := null;
    }
  }

  /** The position of `n` in `nodes`. */
  ghost function IndexOf<T>(nodes: seq<Node<T>>, n: Node<T>): (k: nat)
    requires n in nodes
    ensures k < |nodes| && nodes[k] == n
    ensures forall j :: 0 <= j < k ==> nodes[j] != n
  {
    if nodes[0] == n then 0 else 1 + IndexOf(nodes[1..], n)
  }

  /** Taking the element at position `k` out of a sequence without
      duplicates shifts the later elements down by one, keeps the rest
      distinct and removes exactly that element from its set. */
  lemma RemoveAt<U>(s: seq<U>, k: nat)
    requires Distinct(s) && k < |s|
    ensures var r := s[..k] + s[k + 1..];
      && |r| == |s| - 1
      && (forall i :: 0 <= i < |r| ==> r[i] == s[if i < k then i else i + 1])
      && Distinct(r)
      && (set x | x in r) == (set x | x in s) - {s[k]}
  {
    var r := s[..k] + s[k + 1..];
    forall i | 0 <= i < |r|
      ensures r[i] == s[if i < k then i else i + 1]
    {
    }
    forall x | x in s
      ensures x in r <==> x != s[k]
    {
      var j :| 0 <= j < |s| && s[j] == x;
      if j < k {
        assert r[j] == x;
      } else if j > k {
        assert r[j - 1] == x;
      }
    }
  }

  class List<T> {
    var head: Node?<T>
    var tail: Node?<T>

    /** The nodes from head to tail, and the values they hold. */
    ghost var Nodes: seq<Node<T>>
    ghost var Contents: seq<T>
    ghost var Repr: set<Node<T>>

    /** `next` and `previous` link the nodes in order, `head` and `tail` are
        the first and last (both nil exactly when the list is empty), and
        every node holds the value at its position. */
    ghost predicate Valid()
      reads this, Repr
    {
      && Repr == (set n | n in Nodes)
      && |Contents| == |Nodes|
      && Distinct(Nodes)
      && (forall i :: 0 <= i < |Nodes| ==> Nodes[i].value == Contents[i])
      && (forall i :: 0 <= i < |Nodes| - 1 ==> Nodes[i].next == Nodes[i + 1])
      && (forall i :: 0 < i < |Nodes| ==> Nodes[i].previous == Nodes[i - 1])
      && (Nodes != [] ==> Nodes[|Nodes| - 1].next == null && Nodes[0].previous == null)
      && head == (if Nodes == [] then null else Nodes[0])
      && tail == (if Nodes == [] then null else Nodes[|Nodes| - 1])
    }

    constructor ()
      ensures Valid() && Contents == [] && Nodes == [] && Repr == {}
      ensures head == null && tail == null
    {
      head, tail := null, null;
      Nodes, Contents, Repr := [], [], {};
    }

    /** `append`: links a fresh node after the tail and returns it. */
    method Append(value: T) returns (node: Node<T>)
      requires Valid()
      modifies this, Repr
      ensures Valid()
      ensures fresh(node) && Repr == old(Repr) + {node}
      ensures Nodes == old(Nodes) + [node]
      ensures Contents == old(Contents) + [value]
      ensures tail == node
      ensures head == (if old(Nodes) == [] then node else old(head))
    {
      node := new Node(value);
      if tail != null {
        node.previous := tail;
        tail.next := node;
      } else {
        head := node;
      }
      tail := node;
      Nodes := Nodes + [node];
      Contents := Contents + [value];
      Repr := Repr + {node};
      forall i | 0 <= i < |old(Nodes)| - 1
        ensures Nodes[i].next == Nodes[i + 1]
      {
        assert old(Nodes[i]) != old(Nodes[|Nodes| - 1]);
      }
    }

    /** After `remove` has unlinked the node at position `k` — only the
        predecessor's `next` and the successor's `previous` changed, both now
        skipping position `k` — the links of the remaining nodes are in order. */
    twostate lemma LinksAfterRemove(k: nat)
      requires old(Valid()) && k < |old(Nodes)|
      requires Nodes == old(Nodes)[..k] + old(Nodes)[k + 1..]
      requires Contents == old(Contents)[..k] + old(Contents)[k + 1..]
      requires Repr == old(Repr) - {old(Nodes)[k]}
      requires forall m :: m in old(Repr) ==>
                 && m.value == old(m.value)
                 && (m.next == if k > 0 && m == old(Nodes)[k - 1] then
                                 (if k + 1 < |old(Nodes)| then old(Nodes)[k + 1] else null)
                               else if m == old(Nodes)[k] then null else old(m.next))
                 && (m.previous == if k + 1 < |old(Nodes)| && m == old(Nodes)[k + 1] then
                                     (if k > 0 then old(Nodes)[k - 1] else null)
                                   else if m == old(Nodes)[k] then null else old(m.previous))
      requires head == if k == 0 then (if 1 < |old(Nodes)| then old(Nodes)[1] else null) else old(head)
      requires tail == if k == |old(Nodes)| - 1 then (if k > 0 then old(Nodes)[k - 1] else null) else old(tail)
      ensures forall i :: 0 <= i < |Nodes| - 1 ==> Nodes[i].next == Nodes[i + 1]
      ensures forall i :: 0 < i < |Nodes| ==> Nodes[i].previous == Nodes[i - 1]
    {
      var on := old(Nodes);
      forall i | 0 <= i < |Nodes| - 1
        ensures Nodes[i].next == Nodes[i + 1]
      {
        var j := if i < k then i else i + 1;
        assert Nodes[i] == on[j] && Nodes[i + 1] == on[if i + 1 < k then i + 1 else i + 2];
        if j != k - 1 {
          assert on[j] in old(Repr) && on[j] != on[k];
          assert old(on[j].next) == on[j + 1];
        }
      }
      forall i | 0 < i < |Nodes|
        ensures Nodes[i].previous == Nodes[i - 1]
      {
        var j := if i < k then i else i + 1;
        assert Nodes[i] == on[j] && Nodes[i - 1] == on[if i - 1 < k then i - 1 else i];
        if j != k + 1 {
          assert on[j] in old(Repr) && on[j] != on[k];
          assert old(on[j].previous) == on[j - 1];
        }
      }
    }

    /** ... and with `head`/`tail` moved past the node when it was the
        first/last, the whole list is well formed again. */
    twostate lemma ValidAfterRemove(k: nat)
      requires old(Valid()) && k < |old(Nodes)|
      requires Nodes == old(Nodes)[..k] + old(Nodes)[k + 1..]
      requires Contents == old(Contents)[..k] + old(Contents)[k + 1..]
      requires Repr == old(Repr) - {old(Nodes)[k]}
      requires forall m :: m in old(Repr) ==>
                 && m.value == old(m.value)
                 && (m.next == if k > 0 && m == old(Nodes)[k - 1] then
                                 (if k + 1 < |old(Nodes)| then old(Nodes)[k + 1] else null)
                               else if m == old(Nodes)[k] then null else old(m.next))
                 && (m.previous == if k + 1 < |old(Nodes)| && m == old(Nodes)[k + 1] then
                                     (if k > 0 then old(Nodes)[k - 1] else null)
                                   else if m == old(Nodes)[k] then null else old(m.previous))
      requires head == if k == 0 then (if 1 < |old(Nodes)| then old(Nodes)[1] else null) else old(head)
      requires tail == if k == |old(Nodes)| - 1 then (if k > 0 then old(Nodes)[k - 1] else null) else old(tail)
      ensures Valid()
    {
      LinksAfterRemove(k);
      RemoveAt(old(Nodes), k);
      var on := old(Nodes);
      var n := |on|;
      forall i | 0 <= i < |Nodes|
        ensures Nodes[i].value == Contents[i]
      {
        var j := if i < k then i else i + 1;
        assert Nodes[i] == on[j];
        assert on[j] in old(Repr);
        assert old(on[j].value) == old(Contents[j]);
      }
      if Nodes != [] {
        assert on[n - 1] in old(Repr) && on[0] in old(Repr);
        if k != n - 1 {
          assert Nodes[|Nodes| - 1] == on[n - 1];
          assert k != n - 2 ==> k > 0 ==> on[n - 1] != on[k - 1];
        }
        if k != 0 {
          assert Nodes[0] == on[0];
          assert k != 1 ==> k + 1 < n ==> on[0] != on[k + 1];
        }
      }
    }

    /** `remove`: unlinks a node of this list, clears its links and returns
        its value; the other elements keep their order. */
    method Remove(node: Node<T>) returns (value: T)
      requires Valid() && node in Repr
      modifies this, Repr
      ensures Valid()
      ensures Repr == old(Repr) - {node}
      ensures var k := IndexOf(old(Nodes), node);
        && value == old(Contents)[k]
        && Contents == old(Contents)[..k] + old(Contents)[k + 1..]
        && Nodes == old(Nodes)[..k] + old(Nodes)[k + 1..]
      ensures node.next == null && node.previous == null
      ensures head == (if old(head) == node then old(node.next) else old(head))
      ensures tail == (if old(tail) == node then old(node.previous) else old(tail))
    {
      ghost var k := IndexOf(Nodes, node);
      ghost var n := |Nodes|;
      assert node.previous == if 0 < k then Nodes[k - 1] else null;
      assert node.next == if k + 1 < n then Nodes[k + 1] else null;
      var prev := node.previous;
      var next := node.next;

      if prev != null {
        prev.next := next;
      } else {
        head := next;
      }

      if next != null {
        next.previous := prev;
      }

      if next == null {
        tail := prev;
      }

      node.previous := null;
      node.next := null;

      value := node.value;
      Nodes := old(Nodes)[..k] + old(Nodes)[k + 1..];
      Contents := Contents[..k] + Contents[k + 1..];
      Repr := Repr - {node};

      ValidAfterRemove(k);
    }

    /** `removeFirst`: takes out the head, or reports failure (Swift throws
        `unexpectedError`) and changes nothing when the list is empty. */
    method RemoveFirst() returns (r: Option<T>)
      requires Valid()
      modifies this, Repr
      ensures Valid()
      ensures old(Contents) == [] ==> r == None && Contents == [] && Nodes == old(Nodes) && Repr == old(Repr)
      ensures old(Contents) != [] ==> r == Some(old(Contents)[0]) && Contents == old(Contents)[1..]
      ensures old(Contents) != [] ==> Nodes == old(Nodes)[1..] && Repr == old(Repr) - {old(head)}
    {
      if head == null {
        return None;
      }
      var first := head;
      var v := Remove(first);
      r := Some(v);
    }
  }
}
