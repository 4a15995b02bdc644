/** The five-level timer wheel of src/interrupt/timer.c, as a value: the list in every slot,
    and what creating, cascading and ticking do to those lists. */
module TimerWheel {

  /** The range of the source's uint32_t. */
  const WORD := 0x1_0000_0000
  /** 256 slots at level 1 and 64 at each of levels 2 to 5. */
  const SLOTS := 512

  type Level = l: int | 1 <= l <= 5 witness 1

  /** What timerFn(pParam) does: put a sleeping task back on the ready list, or something opaque. */
  datatype Callback = Wake(task: nat) | Other(tag: nat)

  datatype Timer = Timer(id: nat, expires: nat, period: nat, callback: Callback)
  datatype Wheel = Wheel(jiffies: nat, cells: seq<seq<Timer>>)
  datatype Firing = Firing(tick: nat, timer: Timer)

  /** Milliseconds covered by one slot of a level. */
  function Unit(l: Level): (u: nat)
    ensures u >= 1
  {
    if l == 1 then 1 else if l == 2 then 0x100 else if l == 3 then 0x4000
    else if l == 4 then 0x10_0000 else 0x400_0000
  }

  /** Milliseconds covered by a whole level: the period with which a slot is visited. */
  function Cycle(l: Level): (c: nat)
    ensures c >= 256
  {
    if l == 1 then 0x100 else if l == 2 then 0x4000 else if l == 3 then 0x10_0000
    else if l == 4 then 0x400_0000 else WORD
  }

  function Size(l: Level): (n: nat)
    ensures n == 256 || n == 64
  {
    if l == 1 then 256 else 64
  }

  function Base(l: Level): (b: nat)
    ensures b + Size(l) <= SLOTS
  {
    if l == 1 then 0 else if l == 2 then 256 else if l == 3 then 320 else if l == 4 then 384 else 448
  }

  function LevelOf(c: nat): Level {
    if c < 256 then 1 else if c < 320 then 2 else if c < 384 then 3 else if c < 448 then 4 else 5
  }

  /** INDEX(l - 2) of run_timer, and its idx for level 1: (e >> bits) & mask at level `l`. */
  function Index(l: Level, e: nat): (i: nat)
    ensures i < Size(l)
  {
    e / Unit(l) % Size(l)
  }

  /** The slot of level `l` that time `e` selects. */
  function Slot(l: Level, e: nat): (c: nat)
    ensures c < SLOTS && LevelOf(c) == l
  {
    Base(l) + Index(l, e)
  }

  /** The level add_timer picks for a timer due in `due` milliseconds. */
  function LevelFor(g: nat, due: nat): (l: Level)
    requires g >= 1
  {
    var d := due / g;
    if d < 0x100 then 1 else if d < 0x4000 then 2 else if d < 0x10_0000 then 3
    else if d < 0x400_0000 then 4 else 5
  }

  /** The slot add_timer picks, with its unsigned 32-bit subtraction. */
  function SlotFor(g: nat, j: nat, e: nat): (c: nat)
    requires g >= 1
    ensures c < SLOTS
  {
    Slot(LevelFor(g, (e - j) % WORD), e)
  }

  function Insert(g: nat, j: nat, cells: seq<seq<Timer>>, t: Timer): (r: seq<seq<Timer>>)
    requires g >= 1 && |cells| == SLOTS
    ensures |r| == SLOTS
  {
    var c := SlotFor(g, j, t.expires);
    cells[c := cells[c] + [t]]
  }

  function InsertAll(g: nat, j: nat, cells: seq<seq<Timer>>, ts: seq<Timer>): (r: seq<seq<Timer>>)
    requires g >= 1 && |cells| == SLOTS
    ensures |r| == SLOTS
  {
    if ts == [] then cells
    else Insert(g, j, InsertAll(g, j, cells, ts[..|ts| - 1]), ts[|ts| - 1])
  }

  lemma InsertAllNone(g: nat, j: nat, cells: seq<seq<Timer>>)
    requires g >= 1 && |cells| == SLOTS
    ensures InsertAll(g, j, cells, []) == cells
  {
  }

  lemma InsertAllPush(g: nat, j: nat, cells: seq<seq<Timer>>, ts: seq<Timer>, t: Timer)
    requires g >= 1 && |cells| == SLOTS
    ensures InsertAll(g, j, cells, ts + [t]) == Insert(g, j, InsertAll(g, j, cells, ts), t)
  {
    assert (ts + [t])[..|ts|] == ts;
  }

  /** cascade_timer: empty the slot of level `l` that time `j` selects and add its timers again. */
  function Cascade(g: nat, j: nat, cells: seq<seq<Timer>>, l: Level): (r: seq<seq<Timer>>)
    requires g >= 1 && |cells| == SLOTS
    ensures |r| == SLOTS
  {
    InsertAll(g, j, cells[Slot(l, j) := []], cells[Slot(l, j)])
  }

  /** The chained condition of run_timer: level l + 1 cascades only when level l came round to 0. */
  function Cascades(g: nat, j: nat, cells: seq<seq<Timer>>): (r: seq<seq<Timer>>)
    requires g >= 1 && |cells| == SLOTS
    ensures |r| == SLOTS
  {
    if Index(1, j) != 0 then cells else
    var c2 := Cascade(g, j, cells, 2);
    if Index(2, j) != 0 then c2 else
    var c3 := Cascade(g, j, c2, 3);
    if Index(3, j) != 0 then c3 else
    var c4 := Cascade(g, j, c3, 4);
    if Index(4, j) != 0 then c4 else Cascade(g, j, c4, 5)
  }

  function Rearmed(j: nat, t: Timer): Timer { t.(expires := (j + t.period) % WORD) }

  /** The re-arming of the periodic timers among the fired ones, in order. */
  function Rearm(g: nat, j: nat, cells: seq<seq<Timer>>, ts: seq<Timer>): (r: seq<seq<Timer>>)
    requires g >= 1 && |cells| == SLOTS
    ensures |r| == SLOTS
  {
    if ts == [] then cells else
    var rest := Rearm(g, j, cells, ts[..|ts| - 1]);
    var t := ts[|ts| - 1];
    if t.period != 0 then Insert(g, j, rest, Rearmed(j, t)) else rest
  }

  lemma RearmNone(g: nat, j: nat, cells: seq<seq<Timer>>)
    requires g >= 1 && |cells| == SLOTS
    ensures Rearm(g, j, cells, []) == cells
  {
  }

  lemma RearmPush(g: nat, j: nat, cells: seq<seq<Timer>>, ts: seq<Timer>, t: Timer)
    requires g >= 1 && |cells| == SLOTS
    ensures var rest := Rearm(g, j, cells, ts);
            Rearm(g, j, cells, ts + [t]) == if t.period != 0 then Insert(g, j, rest, Rearmed(j, t)) else rest
  {
    assert (ts + [t])[..|ts|] == ts && (ts + [t])[|ts|] == t;
  }

  /** The timers whose callback runs at tick w.jiffies. */
  function Fired(g: nat, w: Wheel): seq<Timer>
    requires g >= 1 && |w.cells| == SLOTS
  {
    Cascades(g, w.jiffies, w.cells)[Slot(1, w.jiffies)]
  }

  /** One iteration of run_timer's outer loop. */
  function Tick(g: nat, w: Wheel): (r: Wheel)
    requires g >= 1 && |w.cells| == SLOTS
    ensures |r.cells| == SLOTS && r.jiffies == w.jiffies + 1
  {
    var cells := Cascades(g, w.jiffies, w.cells);
    Wheel(w.jiffies + 1, Rearm(g, w.jiffies, cells[Slot(1, w.jiffies) := []], Fired(g, w)))
  }

  function Firings(tick: nat, ts: seq<Timer>): (r: seq<Firing>)
    ensures |r| == |ts|
  {
    seq(|ts|, i requires 0 <= i < |ts| => Firing(tick, ts[i]))
  }

  /** run_timer: the wheel after every tick up to and including `now`. */
  function Run(g: nat, w: Wheel, now: int): (r: Wheel)
    requires g >= 1 && |w.cells| == SLOTS
    ensures |r.cells| == SLOTS
    decreases now - w.jiffies
  {
    if w.jiffies <= now then Run(g, Tick(g, w), now) else w
  }

  /** run_timer: the callbacks it makes, in order. */
  function RunLog(g: nat, w: Wheel, now: int): seq<Firing>
    requires g >= 1 && |w.cells| == SLOTS
    decreases now - w.jiffies
  {
    if w.jiffies <= now then Firings(w.jiffies, Fired(g, w)) + RunLog(g, Tick(g, w), now) else []
  }

  /** init_array_list_timer: n empty lists. */
  function EmptyCells(n: nat): (r: seq<seq<Timer>>)
    ensures |r| == n && forall c | 0 <= c < n :: r[c] == []
  {
    seq(n, _ => [])
  }

  /** create_timer. */
  function Create(g: nat, w: Wheel, id: nat, due: nat, period: nat, cb: Callback): (r: Wheel)
    requires g >= 1 && |w.cells| == SLOTS
    ensures |r.cells| == SLOTS
  {
    w.(cells := Insert(g, w.jiffies, w.cells, Timer(id, (w.jiffies + due) % WORD, period, cb)))
  }

  /** The sequence without its element at position k. */
  function Without<T>(s: seq<T>, k: nat): (r: seq<T>)
    requires k < |s|
    ensures |r| == |s| - 1
    ensures forall i :: 0 <= i < |r| ==> r[i] == s[if i < k then i else i + 1]
  {
    s[..k] + s[k + 1..]
  }

  /** delete_timer: unlink the timer at position k of slot c. */
  function Delete(w: Wheel, c: nat, k: nat): (r: Wheel)
    requires |w.cells| == SLOTS && c < SLOTS && k < |w.cells[c]|
    ensures |r.cells| == SLOTS
  {
    w.(cells := w.cells[c := Without(w.cells[c], k)])
  }
}
