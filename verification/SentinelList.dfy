/** The doubly linked list of src/lib/list.c, with a sentinel at either end. */
module SentinelList {

  class Elem {
    var prev: Elem?
    var next: Elem?

    constructor () { }
  }

  ghost predicate Distinct(s: seq<Elem>) { forall i, j :: 0 <= i < j < |s| ==> s[i] != s[j] }

  /** Each element of the chain and the one after it point at each other. */
  ghost predicate Linked(c: seq<Elem>)
    reads c
  {
    forall i | 0 <= i < |c| - 1 :: c[i].next == c[i + 1] && c[i + 1].prev == c[i]
  }

  /** Where x first occurs in s, or |s|. */
  ghost function Position(s: seq<Elem>, x: Elem): (i: nat)
    ensures i <= |s| && (i < |s| ==> s[i] == x) && (i == |s| ==> x !in s)
  {
    if s == [] || s[0] == x then 0 else 1 + Position(s[1..], x)
  }

  class List {
    const head: Elem
    const tail: Elem
    ghost var elems: seq<Elem>

    ghost function Chain(): (c: seq<Elem>)
      reads this
    {
      [head] + elems + [tail]
    }

    ghost predicate Valid()
      reads this, head, tail, Chain()
    {
      Distinct(Chain()) && Linked(Chain()) && head.prev == null && tail.next == null
    }

    /** list_init */
    constructor ()
      ensures Valid() && elems == [] && fresh(head) && fresh(tail)
    {
      var h := new Elem();
      var t := new Elem();
      head, tail, elems := h, t, [];
      new;
      head.prev := null;
      head.next := tail;
      tail.prev := head;
      tail.next := null;
    }

    /** list_insert_before: before an element or the tail sentinel. */
    method InsertBefore(before: Elem, elem: Elem)
      requires Valid() && elem !in Chain() && (before in elems || before == tail)
      modifies this, Chain(), elem
      ensures Valid()
      ensures var i := Position(old(elems), before); elems == old(elems)[..i] + [elem] + old(elems)[i..]
    {
      ghost var i := Position(elems, before);
      ghost var c := Chain();
      TailApart();
      assert c[i + 1] == before && c[i].next == before && before.prev == c[i];
      hide Position;
      before.prev.next := elem;
      elem.prev := before.prev;
      elem.next := before;
      before.prev := elem;
      Spliced(c, elem, i + 1);
      ChainWith(head, elems, tail, elem, i);
      hide Distinct, Linked;
      elems := elems[..i] + [elem] + elems[i..];
    }

    lemma TailApart()
      requires Valid()
      ensures tail !in elems && head !in elems && head != tail
    {
      var c := Chain();
      assert c[0] == head && c[|c| - 1] == tail;
      forall k | 0 <= k < |elems| ensures elems[k] != tail && elems[k] != head {
        assert c[k + 1] == elems[k];
      }
    }

    /** list_push */
    method Push(elem: Elem)
      requires Valid() && elem !in Chain()
      modifies this, Chain(), elem
      ensures Valid() && elems == [elem] + old(elems)
    {
      TailApart();
      assert head == Chain()[0] && head.next == Chain()[1];
      InsertBefore(head.next, elem);
    }

    /** list_append */
    method Append(elem: Elem)
      requires Valid() && elem !in Chain()
      modifies this, Chain(), elem
      ensures Valid() && elems == old(elems) + [elem]
    {
      TailApart();
      InsertBefore(tail, elem);
    }

    /** list_remove of an element of this list; its own pointers stay as they are. */
    method Remove(elem: Elem)
      requires Valid() && elem in elems
      modifies this, Chain()
      ensures Valid()
      ensures var i := Position(old(elems), elem); elems == old(elems)[..i] + old(elems)[i + 1..]
      ensures elem !in Chain()
    {
      ghost var i := Position(elems, elem);
      ghost var c := Chain();
      assert c[i + 1] == elem && c[i + 1].next == c[i + 2] && c[i + 1].prev == c[i];
      hide Position;
      elem.prev.next := elem.next;
      elem.next.prev := elem.prev;
      Unlinked(c, i + 1);
      ChainWithout(head, elems, tail, i);
      hide Distinct, Linked;
      elems := elems[..i] + elems[i + 1..];
    }

    /** list_pop of a list that is not empty. */
    method Pop() returns (elem: Elem)
      requires Valid() && elems != []
      modifies this, Chain()
      ensures Valid() && [elem] + elems == old(elems) && elem !in Chain()
    {
      assert head == Chain()[0] && head.next == Chain()[1];
      elem := head.next;
      Remove(elem);
    }

    /** list_empty */
    method IsEmpty() returns (r: bool)
      requires Valid()
      ensures r <==> elems == []
    {
      TailApart();
      assert head == Chain()[0] && head.next == Chain()[1];
      return head.next == tail;
    }

    /** elem_find */
    method Find(x: Elem) returns (r: bool)
      requires Valid()
      ensures r <==> x in elems
    {
      TailApart();
      ghost var c, i := Chain(), 0;
      assert head == c[0] && head.next == c[1];
      var elem := head.next;
      while elem != tail
        invariant 0 <= i <= |elems| && elem == c[i + 1] && x !in elems[..i]
        decreases |elems| - i
      {
        assert i < |elems| && elem == elems[i];
        if elem == x {
          return true;
        }
        assert c[i + 1].next == c[i + 2];
        elem := elem.next;
        i := i + 1;
      }
      assert i == |elems|;
      return false;
    }

    /** list_len */
    method Len() returns (n: nat)
      requires Valid()
      ensures n == |elems|
    {
      TailApart();
      ghost var c := Chain();
      assert head == c[0] && head.next == c[1];
      var elem := head.next;
      n := 0;
      while elem != tail
        invariant n <= |elems| && elem == c[n + 1]
        decreases |elems| - n
      {
        assert c[n + 1].next == c[n + 2];
        n := n + 1;
        elem := elem.next;
      }
      assert n == |elems|;
    }

    /** list_traversal: the first element that satisfies the callback. */
    method Traverse(f: Elem -> bool) returns (r: Elem?)
      requires Valid()
      ensures r != null ==> exists i :: 0 <= i < |elems| && elems[i] == r && f(elems[i]) && forall k | 0 <= k < i :: !f(elems[k])
      ensures r == null ==> forall x | x in elems :: !f(x)
    {
      TailApart();
      ghost var c, i := Chain(), 0;
      assert head == c[0] && head.next == c[1];
      var elem := head.next;
      if elem == tail {
        return null;
      }
      while elem != tail
        invariant 0 <= i <= |elems| && elem == c[i + 1] && forall k | 0 <= k < i :: !f(elems[k])
        decreases |elems| - i
      {
        assert i < |elems| && elem == elems[i];
        if f(elem) {
          return elem;
        }
        assert c[i + 1].next == c[i + 2];
        elem := elem.next;
        i := i + 1;
      }
      assert i == |elems|;
      return null;
    }
  }

  ghost predicate Disjoint(a: seq<Elem>, b: seq<Elem>) { forall x | x in a :: x !in b }

  /** A list is none of its or another list's nodes. */
  lemma NoList(l: List, c: seq<Elem>)
    ensures l !in (set x | x in c :: x as object)
    ensures forall i | 0 <= i < |c| :: c[i] as object != l
  {
    forall x | x in c ensures x as object != l as object {
      var e: object := x;
      assert e is Elem && !(e is List);
    }
  }

  lemma InChain(h: Elem, s: seq<Elem>, t: Elem)
    ensures forall x :: x in [h] + s + [t] <==> x == h || x in s || x == t
  {
  }

  /** A list none of whose nodes changed. */
  twostate lemma Untouched(l: List)
    requires old(l.Valid()) && l.elems == old(l.elems)
    requires forall i | 0 <= i < |l.Chain()| :: l.Chain()[i].next == old(l.Chain()[i].next) && l.Chain()[i].prev == old(l.Chain()[i].prev)
    ensures l.Valid()
  {
    var c := l.Chain();
    assert c == old(l.Chain()) && c[0] == l.head && c[|c| - 1] == l.tail;
    assert Linked(c);
  }

  /** Taking the first element of one list leaves a disjoint list alone. */
  method PopBeside(a: List, b: List) returns (elem: Elem)
    requires a.Valid() && b.Valid() && a.elems != [] && a != b && Disjoint(a.Chain(), b.Chain())
    modifies a, a.Chain()
    ensures a.Valid() && b.Valid() && Disjoint(a.Chain(), b.Chain()) && elem !in a.Chain() && elem !in b.Chain()
    ensures [elem] + a.elems == old(a.elems) && b.elems == old(b.elems)
    ensures elem in old(a.Chain()) && forall x | x in a.Chain() :: x in old(a.Chain())
  {
    InChain(a.head, a.elems, a.tail);
    hide Distinct, Linked;
    ghost var ac, bc := a.Chain(), b.Chain();
    NoList(b, ac);
    NoList(a, bc);
    elem := a.Pop();
    InChain(a.head, a.elems, a.tail);
    forall i | 0 <= i < |bc| ensures bc[i].next == old(bc[i].next) && bc[i].prev == old(bc[i].prev) {
      assert bc[i] in bc && bc[i] !in ac;
    }
    Untouched(b);
  }

  method PushBeside(b: List, a: List, elem: Elem)
    requires a.Valid() && b.Valid() && a != b && Disjoint(a.Chain(), b.Chain()) && elem !in a.Chain() && elem !in b.Chain()
    modifies b, b.Chain(), elem
    ensures a.Valid() && b.Valid() && Disjoint(a.Chain(), b.Chain())
    ensures b.elems == [elem] + old(b.elems) && a.elems == old(a.elems)
  {
    InChain(b.head, b.elems, b.tail);
    hide Distinct, Linked;
    ghost var ac, bc := a.Chain(), b.Chain();
    NoList(b, ac);
    NoList(a, bc + [elem]);
    b.Push(elem);
    InChain(b.head, b.elems, b.tail);
    forall i | 0 <= i < |ac| ensures ac[i].next == old(ac[i].next) && ac[i].prev == old(ac[i].prev) {
      assert ac[i] in ac && ac[i] !in bc && ac[i] != elem;
    }
    Untouched(a);
  }

  /** What sema_up and task_unblock do to their lists: the first waiter moves to the front of the ready list. */
  method MoveFirst(waiters: List, ready: List) returns (elem: Elem)
    requires waiters.Valid() && ready.Valid() && waiters.elems != [] && waiters != ready
    requires Disjoint(waiters.Chain(), ready.Chain())
    modifies waiters, waiters.Chain(), ready, ready.Chain()
    ensures waiters.Valid() && ready.Valid() && Disjoint(waiters.Chain(), ready.Chain())
    ensures [elem] + waiters.elems == old(waiters.elems) && ready.elems == [elem] + old(ready.elems)
  {
    hide Distinct, Linked;
    elem := PopBeside(waiters, ready);
    PushBeside(ready, waiters, elem);
  }

  lemma ChainWith(h: Elem, s: seq<Elem>, t: Elem, x: Elem, i: nat)
    requires i <= |s|
    ensures var c := [h] + s + [t]; [h] + (s[..i] + [x] + s[i..]) + [t] == c[..i + 1] + [x] + c[i + 1..]
  {
  }

  lemma ChainWithout(h: Elem, s: seq<Elem>, t: Elem, i: nat)
    requires i < |s|
    ensures var c := [h] + s + [t]; [h] + (s[..i] + s[i + 1..]) + [t] == c[..i + 1] + c[i + 2..]
  {
  }

  /** c with x before position p, once the pointers around it are set. */
  lemma Spliced(c: seq<Elem>, x: Elem, p: nat)
    requires 1 <= p < |c| && Distinct(c) && x !in c
    requires forall i | 0 <= i < |c| - 1 && i != p - 1 :: c[i].next == c[i + 1] && c[i + 1].prev == c[i]
    requires c[p - 1].next == x && x.prev == c[p - 1] && x.next == c[p] && c[p].prev == x
    ensures Distinct(c[..p] + [x] + c[p..]) && Linked(c[..p] + [x] + c[p..])
  {
    var r := c[..p] + [x] + c[p..];
    forall i | 0 <= i < |r| - 1 ensures r[i].next == r[i + 1] && r[i + 1].prev == r[i] {
      if i > p { assert r[i] == c[i - 1] && r[i + 1] == c[i]; }
    }
  }

  /** c without position p, once its neighbours point at each other. */
  lemma Unlinked(c: seq<Elem>, p: nat)
    requires 1 <= p < |c| - 1 && Distinct(c)
    requires forall i | 0 <= i < |c| - 1 && i != p - 1 && i != p :: c[i].next == c[i + 1] && c[i + 1].prev == c[i]
    requires c[p - 1].next == c[p + 1] && c[p + 1].prev == c[p - 1]
    ensures Distinct(c[..p] + c[p + 1..]) && Linked(c[..p] + c[p + 1..]) && c[p] !in c[..p] + c[p + 1..]
  {
    var r := c[..p] + c[p + 1..];
    forall i | 0 <= i < |r| - 1 ensures r[i].next == r[i + 1] && r[i + 1].prev == r[i] {
      if i >= p { assert r[i] == c[i + 1] && r[i + 1] == c[i + 2]; }
    }
  }
}
