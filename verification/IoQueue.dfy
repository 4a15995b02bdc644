/** The byte queue of src/device/ioqueue.c: a ring buffer for one producer and one consumer. */
module IoQueue {

  const BUFSIZE := 64

  function NextPos(pos: nat): nat { (pos + 1) % BUFSIZE }

  predicate Full(head: nat, tail: nat) { NextPos(head) == tail }

  predicate Empty(head: nat, tail: nat) { head == tail }

  /** ioq_length */
  function Length(head: nat, tail: nat): int {
    if head >= tail then head - tail else BUFSIZE - (tail - head)
  }

  /** The unread bytes, oldest first. */
  function Unread(buf: seq<char>, head: nat, tail: nat): (r: seq<char>)
    requires |buf| == BUFSIZE && head < BUFSIZE && tail < BUFSIZE
    ensures |r| == Length(head, tail)
    decreases Length(head, tail)
  {
    if head == tail then [] else [buf[tail]] + Unread(buf, head, NextPos(tail))
  }

  lemma {:induction false} UnreadPut(buf: seq<char>, head: nat, tail: nat, b: char)
    requires |buf| == BUFSIZE && head < BUFSIZE && tail < BUFSIZE && !Full(head, tail)
    ensures Unread(buf[head := b], NextPos(head), tail) == Unread(buf, head, tail) + [b]
    decreases Length(head, tail)
  {
    if head == tail {
      assert Unread(buf[head := b], NextPos(head), NextPos(tail)) == [];
    } else {
      UnreadPut(buf, head, NextPos(tail), b);
    }
  }

  /** The queue when calls do not overlap. */
  class Queue {
    const buf: array<char>
    var head: nat
    var tail: nat

    ghost predicate Valid()
      reads this
    {
      buf.Length == BUFSIZE && head < BUFSIZE && tail < BUFSIZE
    }

    ghost function Contents(): seq<char>
      reads this, buf
      requires Valid()
    {
      Unread(buf[..], head, tail)
    }

    constructor ()
      ensures Valid() && fresh(buf) && Contents() == []
    {
      buf := new char[BUFSIZE];
      head, tail := 0, 0;
    }

    /** ioq_putchar, once the queue is not full. */
    method PutChar(b: char)
      requires Valid() && !Full(head, tail)
      modifies this, buf
      ensures Valid() && Contents() == old(Contents()) + [b]
    {
      UnreadPut(buf[..], head, tail, b);
      buf[head] := b;
      head := NextPos(head);
    }

    /** ioq_getchar, once the queue is not empty. */
    method GetChar() returns (b: char)
      requires Valid() && !Empty(head, tail)
      modifies this
      ensures Valid() && [b] + Contents() == old(Contents())
    {
      b := buf[tail];
      tail := NextPos(tail);
    }

    /** ioq_length, ioq_full and ioq_empty */
    method Measure() returns (len: int, full: bool, empty: bool)
      requires Valid()
      ensures len == |Contents()| && (full <==> |Contents()| == 63) && (empty <==> Contents() == [])
    {
      if head >= tail {
        len := head - tail;
      } else {
        len := BUFSIZE - (tail - head);
      }
      full := NextPos(head) == tail;
      empty := head == tail;
    }
  }

  // ---- Producer and consumer interleaved, statement by statement ----

  datatype Producer = Outside | TestFull(b: char) | Store(b: char) | AdvanceHead(b: char)
  datatype Consumer = Away | TestEmpty | Load | AdvanceTail(b: char)

  /** `sent` holds the bytes of all ioq_putchar calls so far, `put` those of the calls whose byte is in
      the queue, and `got` the bytes delivered. */
  datatype Ring = Ring(buf: seq<char>, head: nat, tail: nat, producer: Producer, consumer: Consumer,
                       sent: seq<char>, put: seq<char>, got: seq<char>)

  datatype Step = CallPut(b: char) | Produce | CallGet | Consume

  predicate Enabled(r: Ring, s: Step) {
    match s
    case CallPut(_) => r.producer == Outside
    case Produce => r.producer != Outside
    case CallGet => r.consumer == Away
    case Consume => r.consumer != Away
  }

  predicate Shape(r: Ring) { |r.buf| == BUFSIZE && r.head < BUFSIZE && r.tail < BUFSIZE }

  /** A caller that finds the queue full or empty waits and then tests again. */
  function Next(r: Ring, s: Step): Ring
    requires Shape(r)
  {
    match s
    case CallPut(b) => r.(producer := TestFull(b), sent := r.sent + [b])
    case CallGet => r.(consumer := TestEmpty)
    case Produce => (
      match r.producer
      case Outside => r
      case TestFull(b) => if Full(r.head, r.tail) then r else r.(producer := Store(b))
      case Store(b) => r.(buf := r.buf[r.head := b], producer := AdvanceHead(b))
      case AdvanceHead(b) => r.(head := NextPos(r.head), producer := Outside, put := r.put + [b]))
    case Consume => (
      match r.consumer
      case Away => r
      case TestEmpty => if Empty(r.head, r.tail) then r else r.(consumer := Load)
      case Load => r.(consumer := AdvanceTail(r.buf[r.tail]))
      case AdvanceTail(b) => r.(tail := NextPos(r.tail), consumer := Away, got := r.got + [b]))
  }

  ghost predicate Start(r: Ring) {
    Shape(r) && r == Ring(r.buf, 0, 0, Outside, Away, [], [], [])
  }

  predicate Prefix(a: seq<char>, b: seq<char>) { |a| <= |b| && a == b[..|a|] }

  /** The cursors count modulo the buffer size, and the unread bytes are in place. */
  ghost predicate Inv(r: Ring) {
    && Shape(r)
    && |r.got| <= |r.put| < |r.got| + BUFSIZE && Prefix(r.got, r.put)
    && r.head == |r.put| % BUFSIZE && r.tail == |r.got| % BUFSIZE
    && (forall i | |r.got| <= i < |r.put| :: r.buf[i % BUFSIZE] == r.put[i])
    && (match r.producer
        case Outside => r.sent == r.put
        case TestFull(b) => r.sent == r.put + [b]
        case Store(b) => r.sent == r.put + [b] && |r.put| < |r.got| + BUFSIZE - 1
        case AdvanceHead(b) => r.sent == r.put + [b] && |r.put| < |r.got| + BUFSIZE - 1 && r.buf[r.head] == b)
    && (match r.consumer
        case Away => true
        case TestEmpty => true
        case Load => |r.got| < |r.put|
        case AdvanceTail(b) => |r.got| < |r.put| && b == r.put[|r.got|])
  }

  lemma NextMod(n: nat)
    ensures NextPos(n % BUFSIZE) == (n + 1) % BUFSIZE
  {
  }

  lemma Apart(m: nat, n: nat)
    requires m < n < m + BUFSIZE
    ensures m % BUFSIZE != n % BUFSIZE
  {
  }

  lemma LengthIs(r: Ring)
    requires Inv(r)
    ensures Length(r.head, r.tail) == |r.put| - |r.got|
    ensures Full(r.head, r.tail) <==> |r.put| - |r.got| == 63
    ensures Empty(r.head, r.tail) <==> r.put == r.got
  {
  }

  lemma ProduceKeepsInv(r: Ring)
    requires Inv(r) && r.producer != Outside
    ensures Inv(Next(r, Produce))
  {
    LengthIs(r);
    NextMod(|r.put|);
    if r.producer.Store? {
      UnreadElsewhere(r);
    }
    hide NextPos, Full;
  }

  /** The slot the producer writes to holds no unread byte. */
  lemma UnreadElsewhere(r: Ring)
    requires Inv(r) && !Full(r.head, r.tail)
    ensures forall i | |r.got| <= i < |r.put| :: i % BUFSIZE != r.head
  {
    LengthIs(r);
  }

  lemma ConsumeKeepsInv(r: Ring)
    requires Inv(r) && r.consumer != Away
    ensures Inv(Next(r, Consume))
  {
    LengthIs(r);
    NextMod(|r.got|);
    hide NextPos, Empty, Full;
  }

  lemma StepKeepsInv(r: Ring, s: Step)
    requires Inv(r) && Enabled(r, s)
    ensures Inv(Next(r, s))
  {
    match s
    case CallPut(b) =>
    case Produce => ProduceKeepsInv(r);
    case CallGet =>
    case Consume => ConsumeKeepsInv(r);
  }

  ghost predicate IsRun(rs: seq<Ring>, steps: seq<Step>) {
    && |rs| == |steps| + 1 && Start(rs[0])
    && forall i | 0 <= i < |steps| :: Shape(rs[i]) && Enabled(rs[i], steps[i]) && rs[i + 1] == Next(rs[i], steps[i])
  }

  lemma {:induction false} RunKeepsInv(rs: seq<Ring>, steps: seq<Step>)
    requires IsRun(rs, steps)
    ensures forall i | 0 <= i < |rs| :: Inv(rs[i])
  {
    hide Inv, Next, Enabled;
    var n := |steps|;
    if n == 0 {
      StartInv(rs[0]);
    } else {
      RunKeepsInv(rs[..n], steps[..n - 1]);
      assert rs[n - 1] == rs[..n][n - 1];
      StepKeepsInv(rs[n - 1], steps[n - 1]);
      forall i | 0 <= i < |rs| ensures Inv(rs[i]) {
        if i < n { assert rs[i] == rs[..n][i]; }
      }
    }
  }

  lemma StartInv(r: Ring)
    requires Start(r)
    ensures Inv(r)
  {
  }

  /** However producer and consumer interleave: the bytes delivered are a prefix of the bytes sent, at most
      63 are in flight, ioq_length counts them, and the buffer holds them in order. */
  lemma RefinesFifo(rs: seq<Ring>, steps: seq<Step>, i: nat)
    requires IsRun(rs, steps) && i < |rs|
    ensures var r := rs[i];
            && Prefix(r.got, r.put) && Prefix(r.put, r.sent) && |r.sent| <= |r.put| + 1
            && |r.put| - |r.got| <= 63
            && Shape(r) && Length(r.head, r.tail) == |r.put| - |r.got|
            && Unread(r.buf, r.head, r.tail) == r.put[|r.got|..]
  {
    RunKeepsInv(rs, steps);
    assert Inv(rs[i]);
    LengthIs(rs[i]);
    UnreadIs(rs[i].buf, rs[i].put, |rs[i].got|);
  }

  lemma {:induction false} UnreadIs(buf: seq<char>, put: seq<char>, k: nat)
    requires |buf| == BUFSIZE && k <= |put| < k + BUFSIZE
    requires forall i | k <= i < |put| :: buf[i % BUFSIZE] == put[i]
    ensures Unread(buf, |put| % BUFSIZE, k % BUFSIZE) == put[k..]
    decreases |put| - k
  {
    hide NextPos;
    if k < |put| {
      NextMod(k);
      Apart(k, |put|);
      UnreadIs(buf, put, k + 1);
      assert put[k..] == [put[k]] + put[k + 1..];
    }
  }

  /** No step overwrites a byte that is not read yet. */
  lemma UnreadKept(rs: seq<Ring>, steps: seq<Step>, i: nat, k: nat)
    requires IsRun(rs, steps) && i < |steps| && |rs[i].got| <= k < |rs[i].put|
    ensures Shape(rs[i]) && Shape(rs[i + 1]) && rs[i + 1].buf[k % BUFSIZE] == rs[i].buf[k % BUFSIZE] == rs[i].put[k]
  {
    RunKeepsInv(rs, steps);
    assert Inv(rs[i]) && Inv(rs[i + 1]);
    LengthIs(rs[i]);
    if rs[i].producer.Store? { UnreadElsewhere(rs[i]); }
  }

  // ---- Calls come to their end ----

  /** A statement of ioq_putchar other than a test that finds 63 bytes in the queue. */
  predicate Puts(r: Ring, s: Step) { s == Produce && !(r.producer.TestFull? && |r.put| - |r.got| == 63) }

  /** A statement of ioq_getchar other than a test that finds no byte. */
  predicate Gets(r: Ring, s: Step) { s == Consume && !(r.consumer == TestEmpty && r.put == r.got) }

  ghost function PutsAmong(rs: seq<Ring>, steps: seq<Step>, i: nat, j: nat): nat
    requires i <= j <= |steps| <= |rs|
  {
    if i == j then 0 else PutsAmong(rs, steps, i, j - 1) + if Puts(rs[j - 1], steps[j - 1]) then 1 else 0
  }

  ghost function GetsAmong(rs: seq<Ring>, steps: seq<Step>, i: nat, j: nat): nat
    requires i <= j <= |steps| <= |rs|
  {
    if i == j then 0 else GetsAmong(rs, steps, i, j - 1) + if Gets(rs[j - 1], steps[j - 1]) then 1 else 0
  }

  /** Where ioq_putchar(b) is after n such statements: after the third it is over, and the byte is in the queue. */
  predicate PutAt(was: Ring, b: char, n: nat, r: Ring) {
    n <= 3
    && r.put == (if n == 3 then was.put + [b] else was.put)
    && r.producer == (if n == 0 then TestFull(b) else if n == 1 then Store(b) else if n == 2 then AdvanceHead(b) else Outside)
  }

  /** And ioq_getchar: it delivers the oldest byte that has not been delivered before. */
  predicate GetAt(was: Ring, n: nat, r: Ring) {
    n <= 3
    && |r.got| == |was.got| + (if n == 3 then 1 else 0)
    && match n
       case 0 => r.consumer == TestEmpty
       case 1 => r.consumer == Load
       case 2 => r.consumer.AdvanceTail?
       case _ => r.consumer == Away
  }

  lemma RunStep(rs: seq<Ring>, steps: seq<Step>, i: nat)
    requires IsRun(rs, steps) && i < |steps|
    ensures Inv(rs[i]) && Shape(rs[i]) && Enabled(rs[i], steps[i]) && rs[i + 1] == Next(rs[i], steps[i])
  {
    hide Inv, Next, Enabled, Shape;
    RunKeepsInv(rs, steps);
  }

  lemma PutStep(was: Ring, b: char, n: nat, r: Ring, s: Step)
    requires Inv(r) && Enabled(r, s) && PutAt(was, b, n, r) && !s.CallPut?
    ensures PutAt(was, b, if Puts(r, s) then n + 1 else n, Next(r, s))
  {
    LengthIs(r);
    hide Inv, Full, Empty, NextPos;
  }

  lemma GetStep(was: Ring, n: nat, r: Ring, s: Step)
    requires Inv(r) && Enabled(r, s) && GetAt(was, n, r) && !s.CallGet?
    ensures GetAt(was, if Gets(r, s) then n + 1 else n, Next(r, s))
  {
    LengthIs(r);
    hide Inv, Full, Empty, NextPos;
  }

  /** Whatever the consumer does meanwhile: the statements of ioq_putchar follow each other, those apart that find
      the queue full, and the third puts the byte into the queue and ends the call. */
  lemma {:induction false} PutTakes(rs: seq<Ring>, steps: seq<Step>, i: nat, j: nat, b: char)
    requires IsRun(rs, steps) && i < j < |rs| && steps[i] == CallPut(b) && forall m | i < m < j :: !steps[m].CallPut?
    ensures PutAt(rs[i], b, PutsAmong(rs, steps, i + 1, j), rs[j])
  {
    hide Inv, Shape, PutAt, Puts;
    RunStep(rs, steps, j - 1);
    if j == i + 1 {
      CallPutAt(rs[i], b);
    } else {
      PutTakes(rs, steps, i, j - 1, b);
      PutStep(rs[i], b, PutsAmong(rs, steps, i + 1, j - 1), rs[j - 1], steps[j - 1]);
    }
  }

  lemma CallPutAt(r: Ring, b: char)
    requires Shape(r) && r.producer == Outside
    ensures PutAt(r, b, 0, Next(r, CallPut(b)))
  {
  }

  /** The same of ioq_getchar, those statements apart that find the queue empty. */
  lemma {:induction false} GetTakes(rs: seq<Ring>, steps: seq<Step>, i: nat, j: nat)
    requires IsRun(rs, steps) && i < j < |rs| && steps[i] == CallGet && forall m | i < m < j :: !steps[m].CallGet?
    ensures GetAt(rs[i], GetsAmong(rs, steps, i + 1, j), rs[j])
  {
    hide Inv, Shape, GetAt, Gets;
    RunStep(rs, steps, j - 1);
    if j == i + 1 {
      CallGetAt(rs[i]);
    } else {
      GetTakes(rs, steps, i, j - 1);
      GetStep(rs[i], GetsAmong(rs, steps, i + 1, j - 1), rs[j - 1], steps[j - 1]);
    }
  }

  lemma CallGetAt(r: Ring)
    requires Shape(r) && r.consumer == Away
    ensures GetAt(r, 0, Next(r, CallGet))
  {
  }

  /** The producer's statements among steps i to j. */
  function Produced(steps: seq<Step>, i: nat, j: nat): nat
    requires i <= j <= |steps|
  {
    if i == j then 0 else Produced(steps, i, j - 1) + if steps[j - 1] == Produce then 1 else 0
  }

  function Consumed(steps: seq<Step>, i: nat, j: nat): nat
    requires i <= j <= |steps|
  {
    if i == j then 0 else Consumed(steps, i, j - 1) + if steps[j - 1] == Consume then 1 else 0
  }

  /** From a queue with at most 62 bytes, ioq_putchar puts its byte in with its third statement: no test fails. */
  lemma PutEnds(rs: seq<Ring>, steps: seq<Step>, i: nat, j: nat, b: char)
    requires IsRun(rs, steps) && i < j < |rs| && steps[i] == CallPut(b) && forall m | i < m < j :: !steps[m].CallPut?
    requires |rs[i].put| - |rs[i].got| <= 62
    ensures Produced(steps, i + 1, j) <= 3
    ensures rs[j].put == if Produced(steps, i + 1, j) == 3 then rs[i].put + [b] else rs[i].put
    ensures rs[j].producer == Outside <==> Produced(steps, i + 1, j) == 3
  {
    hide IsRun, Puts;
    PutTakes(rs, steps, i, j, b);
    AllPut(rs, steps, i, j, b);
  }

  lemma {:induction false} AllPut(rs: seq<Ring>, steps: seq<Step>, i: nat, j: nat, b: char)
    requires IsRun(rs, steps) && i < j < |rs| && steps[i] == CallPut(b) && forall m | i < m < j :: !steps[m].CallPut?
    requires |rs[i].put| - |rs[i].got| <= 62
    ensures PutsAmong(rs, steps, i + 1, j) == Produced(steps, i + 1, j) && |rs[j].got| >= |rs[i].got|
  {
    hide Inv, Shape, PutAt, Puts;
    RunStep(rs, steps, j - 1);
    GotGrows(rs[j - 1], steps[j - 1]);
    if i + 1 < j {
      AllPut(rs, steps, i, j - 1, b);
      PutTakes(rs, steps, i, j - 1, b);
      NotFull(rs[i], b, PutsAmong(rs, steps, i + 1, j - 1), rs[j - 1], steps[j - 1]);
    }
  }

  lemma GotGrows(r: Ring, s: Step)
    requires Shape(r)
    ensures |Next(r, s).got| >= |r.got| && |Next(r, s).put| >= |r.put|
  {
  }

  lemma NotFull(was: Ring, b: char, n: nat, r: Ring, s: Step)
    requires PutAt(was, b, n, r) && |was.put| - |was.got| <= 62 && |r.got| >= |was.got|
    ensures Puts(r, s) <==> s == Produce
  {
  }

  /** From a queue that is not empty, ioq_getchar delivers the oldest byte with its third statement. */
  lemma GetEnds(rs: seq<Ring>, steps: seq<Step>, i: nat, j: nat)
    requires IsRun(rs, steps) && i < j < |rs| && steps[i] == CallGet && forall m | i < m < j :: !steps[m].CallGet?
    requires |rs[i].got| < |rs[i].put|
    ensures Consumed(steps, i + 1, j) <= 3
    ensures rs[j].got == if Consumed(steps, i + 1, j) == 3 then rs[i].got + [rs[i].put[|rs[i].got|]] else rs[i].got
    ensures rs[j].consumer == Away <==> Consumed(steps, i + 1, j) == 3
  {
    hide Inv, Shape, IsRun;
    GetTakes(rs, steps, i, j);
    AllGot(rs, steps, i, j);
    RunKeepsInv(rs, steps);
    GotPrefix(rs[i]);
    GotPrefix(rs[j]);
    var a, b := rs[i], rs[j];
    forall k | 0 <= k < |b.got| ensures b.got[k] == a.put[k] {
      assert b.got[k] == b.put[..|b.got|][k] && a.put[k] == b.put[..|a.put|][k];
    }
    forall k | 0 <= k < |a.got| ensures a.got[k] == a.put[k] {
      assert a.got[k] == a.put[..|a.got|][k];
    }
  }

  lemma GotPrefix(r: Ring)
    requires Inv(r)
    ensures Prefix(r.got, r.put)
  {
  }

  lemma {:induction false} AllGot(rs: seq<Ring>, steps: seq<Step>, i: nat, j: nat)
    requires IsRun(rs, steps) && i < j < |rs| && steps[i] == CallGet && forall m | i < m < j :: !steps[m].CallGet?
    requires |rs[i].got| < |rs[i].put|
    ensures GetsAmong(rs, steps, i + 1, j) == Consumed(steps, i + 1, j) && Prefix(rs[i].put, rs[j].put)
  {
    hide Inv, Shape, GetAt, Gets, Prefix;
    RunStep(rs, steps, j - 1);
    PutPrefix(rs[j - 1], steps[j - 1]);
    if i + 1 < j {
      AllGot(rs, steps, i, j - 1);
      GetTakes(rs, steps, i, j - 1);
      NotEmpty(rs[i], GetsAmong(rs, steps, i + 1, j - 1), rs[j - 1], steps[j - 1]);
      PrefixTwice(rs[i].put, rs[j - 1].put, rs[j].put);
    }
  }

  lemma PutPrefix(r: Ring, s: Step)
    requires Shape(r)
    ensures Prefix(r.put, Next(r, s).put)
  {
  }

  lemma PrefixTwice(a: seq<char>, b: seq<char>, c: seq<char>)
    requires Prefix(a, b) && Prefix(b, c)
    ensures Prefix(a, c)
  {
  }

  lemma NotEmpty(was: Ring, n: nat, r: Ring, s: Step)
    requires GetAt(was, n, r) && |was.got| < |was.put| && Prefix(was.put, r.put)
    ensures Gets(r, s) <==> s == Consume
  {
  }

  /** A producer that finds 63 bytes stays where it is, and so does a consumer that finds none. */
  lemma WaitsInPlace(rs: seq<Ring>, steps: seq<Step>, i: nat)
    requires IsRun(rs, steps) && i < |steps|
    ensures rs[i].producer.TestFull? && steps[i] == Produce && |rs[i].put| - |rs[i].got| == 63 ==> rs[i + 1] == rs[i]
    ensures rs[i].consumer == TestEmpty && steps[i] == Consume && rs[i].put == rs[i].got ==> rs[i + 1] == rs[i]
  {
    RunStep(rs, steps, i);
    LengthIs(rs[i]);
  }
}
