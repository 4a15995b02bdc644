/** The circular doubly linked lists of timers: list heads and timer nodes, and the pointer surgery on them. */
module TimerList {
  import opened TimerWheel

  /** LIST_TIMER and the TIMER_NODE around it as one object: a list head uses the two links only.
      `home` is for the proofs: it tells which list an object belongs to. */
  class TimerNode {
    var pPrev: TimerNode
    var pNext: TimerNode
    var uExpires: nat
    const uPeriod: nat
    const callback: Callback
    const id: nat
    ghost var home: int

    constructor (id: nat, uPeriod: nat, callback: Callback, ghost home: int)
      ensures this.id == id && this.uPeriod == uPeriod && this.callback == callback && this.home == home
      ensures Ring(this, [])
    {
      this.id := id;
      this.uExpires := 0;
      this.uPeriod := uPeriod;
      this.callback := callback;
      this.home := home;
      this.pPrev := this;
      this.pNext := this;
    }

    ghost function AsTimer(): Timer
      reads this
    {
      Timer(id, uExpires, uPeriod, callback)
    }
  }

  /** The object at position i of the cycle that starts at head h and runs through s. */
  function At(h: TimerNode, s: seq<TimerNode>, i: int): TimerNode {
    if 0 <= i < |s| then s[i] else h
  }

  ghost predicate Distinct(s: seq<TimerNode>) {
    forall i, k :: 0 <= i < k < |s| ==> s[i] != s[k]
  }

  /** From head h the links run through exactly s and back, in both directions. */
  ghost predicate Ring(h: TimerNode, s: seq<TimerNode>)
    reads h, s
  {
    && h !in s && Distinct(s)
    && h.pNext == At(h, s, 0) && h.pPrev == At(h, s, |s| - 1)
    && forall i :: 0 <= i < |s| ==> s[i].pNext == At(h, s, i + 1) && s[i].pPrev == At(h, s, i - 1)
  }

  lemma RingEnds(h: TimerNode, s: seq<TimerNode>)
    requires Ring(h, s)
    ensures h.pNext == h || h.pNext in s
    ensures h.pPrev == h || h.pPrev in s
  {
  }

  lemma RingIsWalk(h: TimerNode, s: seq<TimerNode>)
    requires Ring(h, s)
    ensures Distinct(s) && h !in s && h.pNext == At(h, s, 0)
    ensures forall i :: 0 <= i < |s| ==> s[i].pNext == At(h, s, i + 1)
  {
  }

  /** Bookkeeping of the proofs: the nodes of a cycle get a new `home`. */
  ghost method SetHome(h: TimerNode, s: seq<TimerNode>, home: int)
    requires Ring(h, s)
    modifies s`home
    ensures Ring(h, s)
    ensures forall n | n in s :: n.home == home
  {
    forall n | n in s { n.home := home; }
  }

  /** Put pNew between two neighbours; they may be the same object. */
  method ListTimerInsert(pNew: TimerNode, pPrev: TimerNode, pNext: TimerNode)
    requires pNew != pPrev && pNew != pNext
    modifies pNew`pPrev, pNew`pNext, pPrev`pNext, pNext`pPrev
    ensures pPrev.pNext == pNew && pNew.pPrev == pPrev && pNew.pNext == pNext && pNext.pPrev == pNew
  {
    pNext.pPrev := pNew;
    pNew.pNext := pNext;
    pNew.pPrev := pPrev;
    pPrev.pNext := pNew;
  }

  method ListTimerInsertHead(pNew: TimerNode, pHead: TimerNode, ghost s: seq<TimerNode>)
    requires Ring(pHead, s) && pNew != pHead && pNew !in s
    modifies pNew`pPrev, pNew`pNext, pHead`pNext, pHead.pNext`pPrev
    ensures Ring(pHead, [pNew] + s)
  {
    ListTimerInsert(pNew, pHead, pHead.pNext);
  }

  method ListTimerInsertTail(pNew: TimerNode, pHead: TimerNode, ghost s: seq<TimerNode>)
    requires Ring(pHead, s) && pNew != pHead && pNew !in s
    modifies pNew`pPrev, pNew`pNext, pHead`pPrev, pHead.pPrev`pNext
    ensures Ring(pHead, s + [pNew])
  {
    ListTimerInsert(pNew, pHead.pPrev, pHead);
  }

  /** The whole cycle of pOld moves over to pNew, and pOld is left alone with itself - also when the cycle
      was empty, where every write hits pOld or pNew. */
  method ListTimerReplaceInit(pOld: TimerNode, pNew: TimerNode, ghost s: seq<TimerNode>)
    requires Ring(pOld, s) && pNew != pOld && pNew !in s
    modifies pNew`pPrev, pNew`pNext, pOld`pPrev, pOld`pNext, pOld.pNext`pPrev, pOld.pPrev`pNext
    ensures Ring(pNew, s) && Ring(pOld, [])
  {
    pNew.pNext := pOld.pNext;
    pNew.pNext.pPrev := pNew;
    pNew.pPrev := pOld.pPrev;
    pNew.pPrev.pNext := pNew;
    pOld.pNext := pOld;
    pOld.pPrev := pOld;
  }

  /** list_timer_replace_init onto a head on the stack; the nodes taken along get a new `home`. */
  method ListTimerTake(pOld: TimerNode, pNew: TimerNode, ghost s: seq<TimerNode>, ghost home: int)
    requires Ring(pOld, s) && pNew != pOld && pNew !in s
    modifies pNew, pOld, s
    ensures Ring(pOld, []) && pOld.home == old(pOld.home)
    ensures Distinct(s) && pNew !in s && pNew.pNext == At(pNew, s, 0)
    ensures forall i :: 0 <= i < |s| ==>
              s[i].pNext == At(pNew, s, i + 1) && s[i].home == home && s[i].uExpires == old(s[i].uExpires)
  {
    hide Ring;
    RingEnds(pOld, s);
    RingIsWalk(pOld, s);
    ListTimerReplaceInit(pOld, pNew, s);
    SetHome(pNew, s, home);
    RingIsWalk(pNew, s);
  }

  lemma RingNeighbours(h: TimerNode, s: seq<TimerNode>, k: nat)
    requires Ring(h, s) && k < |s|
    ensures Distinct(s) && h !in s
    ensures (s[k].pPrev == h || s[k].pPrev in s) && (s[k].pNext == h || s[k].pNext in s)
  {
  }

  ghost method SetHomeOf(n: TimerNode, h: TimerNode, s: seq<TimerNode>, home: int)
    requires Ring(h, s) && n != h && n !in s
    modifies n`home
    ensures Ring(h, s) && n.home == home
  {
    n.home := home;
  }

  lemma WithoutIsDistinct(h: TimerNode, s: seq<TimerNode>, k: nat)
    requires k < |s| && Distinct(s) && h !in s
    ensures Distinct(Without(s, k)) && h !in Without(s, k) && s[k] !in Without(s, k)
    ensures forall i :: -1 <= i < |s| ==> At(h, Without(s, k), i) == At(h, s, if i < k then i else i + 1)
  {
    hide Without;
  }

  /** delete_timer's unlinking: it touches the two neighbours and knows neither head nor position. */
  method Unlink(pListTmr: TimerNode, ghost h: TimerNode, ghost s: seq<TimerNode>, ghost k: nat)
    requires Ring(h, s) && k < |s| && s[k] == pListTmr
    modifies pListTmr.pPrev`pNext, pListTmr.pNext`pPrev
    ensures Ring(h, Without(s, k))
  {
    hide Without;
    ghost var p, q := pListTmr.pPrev, pListTmr.pNext;
    assert p == At(h, s, k - 1) && q == At(h, s, k + 1);
    pListTmr.pPrev.pNext := pListTmr.pNext;
    pListTmr.pNext.pPrev := pListTmr.pPrev;
    ghost var r := Without(s, k);
    WithoutIsDistinct(h, s, k);
    assert p == At(h, r, k - 1) && q == At(h, r, k);
    forall i | 0 <= i < |r| ensures r[i].pNext == At(h, r, i + 1) && r[i].pPrev == At(h, r, i - 1) {
      LinksWithout(h, s, k, i);
      if i != k - 1 { assert r[i] != p; }
      if i != k { assert r[i] != q; }
    }
  }

  lemma LinksWithout(h: TimerNode, s: seq<TimerNode>, k: nat, i: nat)
    requires k < |s| && Distinct(s) && h !in s && i < |s| - 1
    ensures var r := Without(s, k); var j := if i < k then i else i + 1;
            && r[i] == s[j]
            && (i != k - 1 ==> At(h, r, i + 1) == At(h, s, j + 1))
            && (i != k ==> At(h, r, i - 1) == At(h, s, j - 1))
            && (i != k - 1 ==> r[i] != At(h, s, k - 1))
            && (i != k ==> r[i] != At(h, s, k + 1))
  {
    hide Without;
    WithoutIsDistinct(h, s, k);
  }
}
