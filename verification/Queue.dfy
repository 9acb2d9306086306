/** The intrusive doubly linked circular list that every list of the switchboard is made of. */
module Queue {

  /** A list header, or the link inside an object on a list. A new one is linked to itself. */
  class Queue {
    var p1: Queue       // previous; of a header, the last element
    var p2: Queue       // next; of a header, the first element

    constructor ()
      ensures p1 == this && p2 == this
    {
      p1 := this;
      p2 := this;
    }
  }

  ghost predicate NoRepeats(ns: seq<Queue>) {
    forall i, j :: 0 <= i < j < |ns| ==> ns[i] != ns[j]
  }

  /** `ns` is a closed ring: `p2` leads from each node to the next and from the last to the first, and `p1` back. */
  ghost predicate Ring(ns: seq<Queue>)
    reads ns
  {
    && ns != [] && NoRepeats(ns)
    && ns[|ns| - 1].p2 == ns[0] && ns[0].p1 == ns[|ns| - 1]
    && (forall i :: 0 <= i < |ns| - 1 ==> ns[i].p2 == ns[i + 1])
    && (forall i :: 0 < i < |ns| ==> ns[i].p1 == ns[i - 1])
  }

  /** `h` heads a list with the given elements. */
  ghost predicate Lists(h: Queue, elements: seq<Queue>)
    reads [h] + elements
  {
    Ring([h] + elements)
  }

  /** The neighbours in a ring. */
  lemma Neighbours(ns: seq<Queue>, i: nat)
    requires Ring(ns) && i < |ns|
    ensures ns[i].p2 == if i + 1 < |ns| then ns[i + 1] else ns[0]
    ensures ns[i].p1 == if i > 0 then ns[i - 1] else ns[|ns| - 1]
    ensures ns[i].p2.p1 == ns[i] && ns[i].p1.p2 == ns[i]
  {
  }

  /** A ring whose nodes are untouched is still a ring. */
  twostate lemma RingStays(ns: seq<Queue>)
    requires old(Ring(ns)) && forall x :: x in ns ==> x.p1 == old(x.p1) && x.p2 == old(x.p2)
    ensures Ring(ns)
  {
    forall i | 0 <= i < |ns| - 1 ensures ns[i].p2 == ns[i + 1] {
      assert ns[i] in ns;
    }
    forall i | 0 < i < |ns| ensures ns[i].p1 == ns[i - 1] {
      assert ns[i] in ns;
    }
    assert ns[0] in ns && ns[|ns| - 1] in ns;
  }

  /** Insert `newnode` after `node`, which is at position `i` of the ring `ns`. */
  method QAppend(node: Queue, newnode: Queue, ghost ns: seq<Queue>, ghost i: nat) returns (r: Queue)
    requires Ring(ns) && i < |ns| && ns[i] == node && newnode !in ns
    modifies node`p2, node.p2`p1, newnode
    ensures r == newnode && Ring(ns[..i + 1] + [newnode] + ns[i + 1..])
  {
    Neighbours(ns, i);
    newnode.p1 := node;
    newnode.p2 := node.p2;
    newnode.p2.p1 := newnode;
    node.p2 := newnode;
    r := newnode;
  }

  /** Insert `newnode` before `node`, which is at position `i` of the ring `ns`. */
  method QPrepend(node: Queue, newnode: Queue, ghost ns: seq<Queue>, ghost i: nat) returns (r: Queue)
    requires Ring(ns) && i < |ns| && ns[i] == node && newnode !in ns
    modifies node`p1, node.p1`p2, newnode
    ensures r == newnode && Ring(ns[..i] + [newnode] + ns[i..])
  {
    Neighbours(ns, i);
    newnode.p2 := node;
    newnode.p1 := node.p1;
    newnode.p1.p2 := newnode;
    node.p1 := newnode;
    r := newnode;
  }

  /** Take `node`, at position `i` of the ring `ns`, out of it. Alone in its ring, it stays as it is. */
  method QDelete(node: Queue, ghost ns: seq<Queue>, ghost i: nat) returns (r: Queue)
    requires Ring(ns) && i < |ns| && ns[i] == node
    modifies node, node.p1`p2, node.p2`p1
    ensures r == node && Ring([node])
    ensures |ns| > 1 ==> Ring(ns[..i] + ns[i + 1..])
    ensures old(node.p1) == node ==> node.p1 == old(node.p1) && node.p2 == old(node.p2)
  {
    Neighbours(ns, i);
    node.p1.p2 := node.p2;
    node.p2.p1 := node.p1;
    node.p1 := node;
    node.p2 := node;
    r := node;
  }

  // ---------- lists ----------

  /** `qappend(QLAST(h), e)`: `e` joins the end of the list, and a ring with none of these nodes stays a ring. */
  method Enqueue(h: Queue, e: Queue, ghost es: seq<Queue>, ghost other: seq<Queue>)
    requires Lists(h, es) && e != h && e !in es
    requires Ring(other) && h !in other && e !in other && (forall x :: x in es ==> x !in other)
    modifies h, es, e
    ensures Lists(h, es + [e]) && Ring(other)
  {
    ghost var ns := [h] + es;
    Neighbours(ns, 0);
    var r := QAppend(h.p1, e, ns, |es|);
    assert ns[..|es| + 1] + [e] + ns[|es| + 1..] == [h] + (es + [e]);
  }

  /** `qdelete(e)`: the element at `k` leaves the list, the others keep their order, and it is linked to itself. */
  method Remove(h: Queue, e: Queue, ghost es: seq<Queue>, ghost k: nat, ghost other: seq<Queue>)
    requires Lists(h, es) && k < |es| && es[k] == e
    requires Ring(other) && h !in other && (forall x :: x in es ==> x !in other)
    modifies h, es
    ensures Lists(h, es[..k] + es[k + 1..]) && Ring([e]) && Ring(other)
  {
    hide Ring;
    ghost var ns := [h] + es;
    Neighbours(ns, k + 1);
    assert e.p1 in ns && e.p2 in ns && forall x :: x in ns ==> x !in other;
    var r := QDelete(e, ns, k + 1);
    RingStays(other);
    assert ns[..k + 1] + ns[k + 2..] == [h] + (es[..k] + es[k + 1..]);
  }

  /** Deleting a node that has been deleted before changes nothing. */
  method RemoveAgain(e: Queue, ghost other: seq<Queue>)
    requires Ring([e]) && Ring(other)
    modifies e
    ensures Ring([e]) && Ring(other)
    ensures e.p1 == old(e.p1) && e.p2 == old(e.p2)
  {
    var r := QDelete(e, [e], 0);
  }

  // ---------- a walk that deletes behind itself ----------

  /** The elements of `es` that stay. */
  ghost function Staying(es: seq<Queue>, gone: set<Queue>): seq<Queue> {
    if es == [] then []
    else (if es[0] in gone then [] else [es[0]]) + Staying(es[1..], gone)
  }

  lemma {:induction false} StayingSnoc(es: seq<Queue>, e: Queue, gone: set<Queue>)
    ensures (forall x :: x in Staying(es, gone) ==> x in es)
    ensures Staying(es + [e], gone) == Staying(es, gone) + (if e in gone then [] else [e])
    decreases |es|
  {
    if es != [] {
      StayingSnoc(es[1..], e, gone);
      assert (es + [e])[1..] == es[1..] + [e];
    } else {
      assert [e][1..] == [];
    }
  }

  lemma Successor(h: Queue, before: seq<Queue>, c: Queue, rest: seq<Queue>)
    requires Lists(h, before + [c] + rest)
    ensures c.p2 == (if rest == [] then h else rest[0])
  {
    var ns := [h] + (before + [c] + rest);
    assert ns[|before| + 1] == c && (rest != [] ==> ns[|before| + 2] == rest[0]);
    Neighbours(ns, |before| + 1);
  }

  /** One turn of the walk: the current node stays, or is taken off the list. */
  method TakeTurn(h: Queue, c: Queue, leaves: bool, ghost before: seq<Queue>, ghost rest: seq<Queue>, ghost nodes: set<Queue>)
    requires Lists(h, before + [c] + rest) && forall x :: x in [h] + (before + [c] + rest) ==> x in nodes
    modifies nodes
    ensures Lists(h, before + (if leaves then [] else [c]) + rest)
  {
    ghost var es := before + [c] + rest;
    if leaves {
      assert es[..|before|] + es[|before| + 1..] == before + [] + rest;
      Neighbours([h] + es, |before| + 1);
      assert ([h] + es)[|before| + 1] == c;
      assert c.p1 in [h] + es && c.p2 in [h] + es;
      var r := QDelete(c, [h] + es, |before| + 1);
      assert ([h] + es)[..|before| + 1] + ([h] + es)[|before| + 2..] == [h] + (before + [] + rest);
    }
  }

  /** The walk stands at the first node of `rest`, having met `visited` and left `kept` of them on the list. */
  ghost predicate Walking(h: Queue, gone: set<Queue>, visited: seq<Queue>, kept: seq<Queue>, rest: seq<Queue>, es: seq<Queue>, nodes: set<Queue>)
    reads h, kept, rest
  {
    visited + rest == es && kept == Staying(visited, gone) && Lists(h, kept + rest)
    && forall x :: x in [h] + (kept + rest) ==> x in nodes
  }

  /** The successor is fetched first; then the current node has its turn. */
  method Visit(h: Queue, c: Queue, gone: set<Queue>, ghost visited: seq<Queue>, ghost kept: seq<Queue>, ghost rest: seq<Queue>,
               ghost es: seq<Queue>, ghost nodes: set<Queue>)
    returns (q: Queue)
    requires Walking(h, gone, visited, kept, rest, es, nodes) && rest != [] && rest[0] == c
    modifies nodes
    ensures Walking(h, gone, visited + [c], kept + (if c in gone then [] else [c]), rest[1..], es, nodes)
    ensures q == if rest[1..] == [] then h else rest[1..][0]
  {
    hide Lists, Staying;
    ghost var tail := rest[1..];
    assert kept + rest == kept + [c] + tail;
    Successor(h, kept, c, tail);
    StayingSnoc(visited, c, gone);
    q := c.p2;
    TakeTurn(h, c, c in gone, kept, tail, nodes);
    assert visited + [c] + tail == visited + rest;
  }

  /**
   The client loop of `Iowait`: the current node may be taken off the list in its turn. The walk ends at the
   header having met every element once.
   */
  method Walk(h: Queue, gone: set<Queue>, ghost es: seq<Queue>) returns (visited: seq<Queue>)
    requires Lists(h, es)
    modifies h, es
    ensures visited == es && Lists(h, Staying(es, gone))
  {
    FirstAndHeader(h, es);
    ghost var kept, rest, nodes := [], es, set x | x in [h] + es;
    assert kept + rest == es && [] + rest == es;
    visited := [];
    var q := h.p2;
    hide Lists, Staying;
    assert Walking(h, gone, visited, kept, rest, es, nodes) by { NobodyStays(gone); }
    hide Walking;
    while q != h
      invariant Walking(h, gone, visited, kept, rest, es, nodes) && (forall x :: x in rest ==> x in es)
      invariant q == if rest == [] then h else rest[0]
      decreases |rest|
    {
      var c := q;
      q := Visit(h, c, gone, visited, kept, rest, es, nodes);
      visited := visited + [c];
      kept := kept + if c in gone then [] else [c];
      rest := rest[1..];
    }
    WalkDone(h, gone, visited, kept, es, nodes);
  }

  lemma WalkDone(h: Queue, gone: set<Queue>, visited: seq<Queue>, kept: seq<Queue>, es: seq<Queue>, nodes: set<Queue>)
    requires Walking(h, gone, visited, kept, [], es, nodes)
    ensures visited == es && Lists(h, Staying(es, gone))
  {
    hide Lists, Staying;
    assert kept + [] == kept && visited + [] == visited;
  }

  lemma NobodyStays(gone: set<Queue>)
    ensures Staying([], gone) == []
  {
  }

  lemma FirstAndHeader(h: Queue, es: seq<Queue>)
    requires Lists(h, es)
    ensures h !in es && h.p2 == (if es == [] then h else es[0])
  {
    var ns := [h] + es;
    Neighbours(ns, 0);
    assert forall j :: 0 <= j < |es| ==> ns[j + 1] == es[j];
  }
}
