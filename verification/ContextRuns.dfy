/** Tasks taking turns on one processor by context_swap and context_set, and by the signal handler. */
module ContextRuns {
  import opened Context

  type Id = nat

  /** Where each task keeps its registers while it does not run, and the words of its stack. */
  datatype Layout = Layout(block: map<Id, nat>, stack: map<Id, set<nat>>)

  ghost predicate WellLaid(l: Layout) {
    && l.block.Keys == l.stack.Keys
    && (forall t, u, a | t in l.block && u in l.block && t != u :: !(a in l.stack[t] && a in l.stack[u]))
    && (forall t, u | t in l.block && u in l.block && t != u :: Apart(l.block[t], l.block[u]))
    && (forall t, u, a | t in l.block && u in l.block :: !(a in l.stack[t] && InBlock(l.block[u], a)))
  }

  /** A suspended task: the registers it is to continue with, and whether it called context_swap itself. */
  datatype Suspended = Suspended(regs: Registers, swapped: bool)

  datatype Machine = Machine(current: Id, regs: Registers, mem: Memory, suspended: map<Id, Suspended>)

  datatype Step =
    | Compute(regs: Registers, mem: Memory)
    | Swap(next: Id)
    | Set(next: Id)
    | Create(id: Id, regs: Registers)
    | Preempt(next: Id)

  /** Address a belongs to a context block or to the stack of a task other than t. */
  ghost predicate Protected(l: Layout, t: Id, a: nat) {
    (exists u :: u in l.block && InBlock(l.block[u], a)) || (exists u :: u in l.stack && u != t && a in l.stack[u])
  }

  /** There is room for one word on task t's stack. */
  predicate Room(l: Layout, t: Id, sp: nat)
    requires t in l.stack
  {
    sp >= 8 && sp - 8 in l.stack[t]
  }

  /** What a step needs. A call of a switching routine passes the blocks of the two tasks. */
  ghost predicate Enabled(l: Layout, k: Machine, s: Step)
    requires k.current in l.block && k.current in l.stack
  {
    match s
    case Compute(regs, mem) => forall a | Protected(l, k.current, a) :: Read(mem, a) == Read(k.mem, a)
    case Swap(n) =>
      && n in k.suspended && n in l.block && k.regs.rdi == l.block[k.current] && k.regs.rsi == l.block[n]
      && k.regs.rsp in l.stack[k.current]
    case Set(n) => n in k.suspended && n in l.block && k.regs.rdi == l.block[n]
    case Create(t, regs) => t in l.block && t in l.stack && t !in k.suspended && t != k.current && Room(l, t, regs.rsp)
    case Preempt(n) => n in k.suspended && n in l.block && Room(l, k.current, k.regs.rsp)
  }

  /** A switching routine, as its contract describes it. The handler's schedule copies the interrupted
      registers to one block and continues from the other, without touching a stack. */
  ghost predicate Next(l: Layout, k: Machine, s: Step, k': Machine)
    requires k.current in l.block && k.current in l.stack && Enabled(l, k, s)
  {
    match s
    case Compute(regs, mem) => k' == k.(regs := regs, mem := mem)
    case Swap(n) =>
      var snap := Returning(k.mem, k.regs);
      && k' == Machine(n, Load(k.mem, k.regs.rsi), k'.mem, (k.suspended - {n})[k.current := Suspended(snap, true)])
      && Switched(k.mem, k.regs.rdi, snap, k'.mem, k'.regs)
    case Set(n) =>
      k' == Machine(n, Load(k.mem, k.regs.rdi), k'.mem, k.suspended - {n}) && Pushed(k.mem, k'.mem, k'.regs)
    case Create(t, regs) =>
      k' == k.(mem := k'.mem, suspended := k.suspended[t := Suspended(regs, false)])
      && Stored(k.mem, k'.mem, l.block[t], regs)
    case Preempt(n) =>
      && k' == Machine(n, Load(k.mem, l.block[n]), k'.mem, (k.suspended - {n})[k.current := Suspended(k.regs, false)])
      && Stored(k.mem, k'.mem, l.block[k.current], k.regs)
  }

  /** Memory m' is m with r in the block at `base`. */
  ghost predicate Stored(m: Memory, m': Memory, base: nat, r: Registers) {
    Load(m', base) == r && forall a: nat | !InBlock(base, a) :: Read(m', a) == Read(m, a)
  }

  /** The block of a suspended task holds its registers; if it called context_swap, the word below its
      stack pointer is still its return address. */
  ghost predicate Kept(l: Layout, m: Memory, t: Id, s: Suspended) {
    && t in l.block && t in l.stack
    && Load(m, l.block[t]) == s.regs && Room(l, t, s.regs.rsp)
    && (s.swapped ==> Read(m, s.regs.rsp - 8) == s.regs.rip)
  }

  ghost predicate Inv(l: Layout, k: Machine) {
    && WellLaid(l) && k.current in l.block && k.current in l.stack && k.current !in k.suspended
    && forall t | t in k.suspended :: Kept(l, k.mem, t, k.suspended[t])
  }

  /** Memory m' is m at every word of task t. */
  ghost predicate SameFor(l: Layout, m: Memory, m': Memory, t: Id)
    requires t in l.block && t in l.stack
  {
    forall a: nat | InBlock(l.block[t], a) || a in l.stack[t] :: Read(m', a) == Read(m, a)
  }

  lemma SameForKeeps(l: Layout, m: Memory, m': Memory, t: Id, s: Suspended)
    requires Kept(l, m, t, s) && SameFor(l, m, m', t)
    ensures Kept(l, m', t, s)
  {
    hide Load;
    LoadSame(m, m', l.block[t]);
  }

  /** No word of task t's block or stack lies in another block or on another stack. */
  lemma OwnWords(l: Layout, t: Id, u: Id, a: nat)
    requires WellLaid(l) && t in l.block && u in l.block && t != u && (InBlock(l.block[t], a) || a in l.stack[t])
    ensures !InBlock(l.block[u], a) && a !in l.stack[u]
  {
  }

  lemma ProtectedWords(l: Layout, c: Id, t: Id)
    requires t in l.block && t in l.stack && t != c
    ensures forall a: nat | InBlock(l.block[t], a) || a in l.stack[t] :: Protected(l, c, a)
  {
  }

  /** Every step leaves the registers saved for a task that stays suspended, and its stack, alone. */
  lemma StepSame(l: Layout, k: Machine, s: Step, k': Machine, t: Id)
    requires Inv(l, k) && Enabled(l, k, s) && Next(l, k, s, k') && t in k.suspended && k'.current != t
    ensures t in l.block && t in l.stack && SameFor(l, k.mem, k'.mem, t)
    ensures t in k'.suspended && k'.suspended[t] == k.suspended[t]
  {
    hide Load, WellLaid, InBlock, Protected;
    assert Kept(l, k.mem, t, k.suspended[t]);
    if s.Compute? { ProtectedWords(l, k.current, t); }
    if s.Swap? || s.Set? { assert Kept(l, k.mem, s.next, k.suspended[s.next]); }
    forall a: nat | InBlock(l.block[t], a) || a in l.stack[t] ensures Read(k'.mem, a) == Read(k.mem, a) {
      match s
      case Compute(_, _) =>
      case Swap(n) => OwnWords(l, t, k.current, a); OwnWords(l, t, n, a);
      case Set(n) => OwnWords(l, t, n, a);
      case Create(u, _) => OwnWords(l, t, u, a);
      case Preempt(n) => OwnWords(l, t, k.current, a);
    }
  }

  lemma StepKeepsInv(l: Layout, k: Machine, s: Step, k': Machine)
    requires Inv(l, k) && Enabled(l, k, s) && Next(l, k, s, k')
    ensures Inv(l, k')
  {
    hide Load, WellLaid, InBlock;
    forall t | t in k'.suspended ensures Kept(l, k'.mem, t, k'.suspended[t]) {
      if t in k.suspended && t != k'.current {
        assert Kept(l, k.mem, t, k.suspended[t]);
        StepSame(l, k, s, k', t);
        SameForKeeps(l, k.mem, k'.mem, t, k.suspended[t]);
      } else {
        NewlySuspended(l, k, s, k', t);
      }
    }
    if !s.Compute? && !s.Create? { assert Kept(l, k.mem, s.next, k.suspended[s.next]); }
  }

  lemma NewlySuspended(l: Layout, k: Machine, s: Step, k': Machine, t: Id)
    requires Inv(l, k) && Enabled(l, k, s) && Next(l, k, s, k') && t in k'.suspended && (t !in k.suspended || t == k'.current)
    ensures Kept(l, k'.mem, t, k'.suspended[t])
  {
    hide Load, WellLaid, InBlock, Protected;
    if s.Swap? { SwappedOut(l, k, s.next, k'); }
  }

  /** A call of context_swap leaves its caller's registers, stack and return address in place. */
  lemma SwappedOut(l: Layout, k: Machine, n: Id, k': Machine)
    requires Inv(l, k) && Enabled(l, k, Swap(n)) && Next(l, k, Swap(n), k')
    ensures var snap := Returning(k.mem, k.regs);
            k'.suspended[k.current] == Suspended(snap, true) && Kept(l, k'.mem, k.current, Suspended(snap, true))
    ensures forall a | a in l.stack[k.current] :: Read(k'.mem, a) == Read(k.mem, a)
  {
    hide Load, WellLaid, InBlock;
    assert Kept(l, k.mem, n, k.suspended[n]);
    forall a | a in l.stack[k.current] ensures Read(k'.mem, a) == Read(k.mem, a) {
      OwnStack(l, k.current, a);
      OwnWords(l, k.current, n, a);
    }
  }

  lemma OwnStack(l: Layout, t: Id, a: nat)
    requires WellLaid(l) && t in l.block && a in l.stack[t]
    ensures forall u | u in l.block :: !InBlock(l.block[u], a)
  {
  }

  /** The task to be resumed has room for its return address on its own stack, away from every block. */
  lemma NextHasRoom(l: Layout, k: Machine, n: Id)
    requires Inv(l, k) && n in k.suspended
    ensures n in l.block && var sp := Read(k.mem, l.block[n] + 8 * 15);
            sp >= 8 && forall u | u in l.block :: !InBlock(l.block[u], sp - 8)
  {
    hide Load, InBlock, WellLaid;
    assert Kept(l, k.mem, n, k.suspended[n]);
    LoadedStack(k.mem, l.block[n]);
    OwnStack(l, n, k.suspended[n].regs.rsp - 8);
  }

  lemma BlocksApartOf(l: Layout, t: Id, u: Id)
    requires WellLaid(l) && t in l.block && u in l.block && t != u
    ensures Apart(l.block[t], l.block[u])
  {
  }

  /** Every switch that is called for meets the requirements of the routine. */
  lemma SwitchIsDefined(l: Layout, k: Machine, s: Step)
    requires Inv(l, k) && Enabled(l, k, s) && (s.Swap? || s.Set?)
    ensures s.Swap? ==>
              && Apart(k.regs.rdi, k.regs.rsi) && !InBlock(k.regs.rdi, k.regs.rsp)
              && var sp := Read(k.mem, k.regs.rsi + 8 * 15);
                 sp >= 8 && !InBlock(k.regs.rdi, sp - 8) && !InBlock(k.regs.rsi, sp - 8)
    ensures s.Set? ==> var sp := Read(k.mem, k.regs.rdi + 8 * 15); sp >= 8 && !InBlock(k.regs.rdi, sp - 8)
  {
    hide Kept, InBlock, WellLaid, Apart;
    NextHasRoom(l, k, s.next);
    if s.Swap? {
      BlocksApartOf(l, k.current, s.next);
      OwnStack(l, k.current, k.regs.rsp);
    }
  }

  // ---- What a resumed task finds ----

  ghost predicate Switches(s: Step) { s.Swap? || s.Set? || s.Preempt? }

  /** However a task is resumed, it finds the registers it was suspended with: all of them, the stack
      pointer as after a plain return, and it continues at its return address. If it gave up the processor
      through context_swap, every word outside the block of the task it replaces is as it was: the pushed
      return address rewrites itself. */
  lemma ResumeIsExact(l: Layout, k: Machine, s: Step, k': Machine)
    requires Inv(l, k) && Enabled(l, k, s) && Next(l, k, s, k') && Switches(s)
    ensures s.next in k.suspended && k'.regs == k.suspended[s.next].regs
    ensures k.suspended[s.next].swapped ==>
              forall a: nat | !InBlock(l.block[k.current], a) :: Read(k'.mem, a) == Read(k.mem, a)
  {
    hide Load, WellLaid, InBlock;
    assert Kept(l, k.mem, s.next, k.suspended[s.next]);
  }

  /** A task that was preempted, or is new, is resumed by the switching routines with one word of its stack
      overwritten: the one below its stack pointer. Its stack is unchanged exactly if that word happens to
      be its program counter already. */
  lemma PushBelowStack(l: Layout, k: Machine, s: Step, k': Machine)
    requires Inv(l, k) && Enabled(l, k, s) && Next(l, k, s, k') && (s.Swap? || s.Set?)
    ensures s.next in l.block && s.next in l.stack && s.next in k.suspended
    ensures var r := k.suspended[s.next].regs;
            && r.rsp >= 8 && Read(k'.mem, r.rsp - 8) == r.rip
            && (forall a | a in l.stack[s.next] && a != r.rsp - 8 :: Read(k'.mem, a) == Read(k.mem, a))
            && ((forall a | a in l.stack[s.next] :: Read(k'.mem, a) == Read(k.mem, a)) <==> Read(k.mem, r.rsp - 8) == r.rip)
  {
    hide Load, WellLaid, InBlock;
    var n := s.next;
    assert Kept(l, k.mem, n, k.suspended[n]);
    forall a | a in l.stack[n] ensures !InBlock(l.block[k.current], a) {
      OwnStack(l, n, a);
    }
  }

  // ---- Runs ----

  ghost predicate IsRun(l: Layout, ks: seq<Machine>, steps: seq<Step>) {
    && |ks| == |steps| + 1 && WellLaid(l) && ks[0].current in l.block && ks[0].suspended == map[]
    && forall i | 0 <= i < |steps| ::
         && ks[i].current in l.block && ks[i].current in l.stack
         && Enabled(l, ks[i], steps[i]) && Next(l, ks[i], steps[i], ks[i + 1])
  }

  lemma {:induction false} RunKeepsInv(l: Layout, ks: seq<Machine>, steps: seq<Step>)
    requires IsRun(l, ks, steps)
    ensures forall i | 0 <= i < |ks| :: Inv(l, ks[i])
  {
    hide Enabled, Next, Kept, WellLaid;
    var n := |steps|;
    if n == 0 {
      assert ks[0].current in l.stack by { BlocksHaveStacks(l); }
    } else {
      RunKeepsInv(l, ks[..n], steps[..n - 1]);
      assert ks[n - 1] == ks[..n][n - 1] && Inv(l, ks[n - 1]);
      hide Inv;
      StepKeepsInv(l, ks[n - 1], steps[n - 1], ks[n]);
      forall i | 0 <= i < |ks| ensures Inv(l, ks[i]) {
        if i < n { assert ks[i] == ks[..n][i]; }
      }
    }
  }

  lemma BlocksHaveStacks(l: Layout)
    requires WellLaid(l)
    ensures l.block.Keys == l.stack.Keys
  {
  }

  lemma SuspendedPlaced(l: Layout, k: Machine, t: Id)
    requires Inv(l, k) && t in k.suspended
    ensures t in l.block && t in l.stack
  {
    assert Kept(l, k.mem, t, k.suspended[t]);
  }

  /** While a task does not run, its saved registers and its stack stay as they are. */
  lemma {:induction false} WhileSuspended(l: Layout, ks: seq<Machine>, steps: seq<Step>, i: nat, j: nat, t: Id)
    requires IsRun(l, ks, steps) && i <= j < |ks| && t in ks[i].suspended
    requires forall m | i < m <= j :: ks[m].current != t
    ensures t in l.block && t in l.stack && t in ks[j].suspended && ks[j].suspended[t] == ks[i].suspended[t]
    ensures forall a | a in l.stack[t] :: Read(ks[j].mem, a) == Read(ks[i].mem, a)
  {
    hide Enabled, Next, Kept, Inv, WellLaid, InBlock;
    RunKeepsInv(l, ks, steps);
    SuspendedPlaced(l, ks[i], t);
    if i < j {
      WhileSuspended(l, ks, steps, i, j - 1, t);
      StepSame(l, ks[j - 1], steps[j - 1], ks[j], t);
    }
  }

  /** From a call of context_swap to its return: task t calls it at step i and runs again for the first time
      after step j. Whatever the other tasks did meanwhile, the call looks like a plain return: every
      register is as before the call, the stack pointer has moved past the return address, execution
      continues there, and no word of the stack has changed. */
  lemma SwapReturns(l: Layout, ks: seq<Machine>, steps: seq<Step>, i: nat, j: nat)
    requires IsRun(l, ks, steps) && i < j < |steps| && steps[i].Swap? && Switches(steps[j])
    requires ks[j + 1].current == ks[i].current && forall m | i < m <= j :: ks[m].current != ks[i].current
    ensures ks[j + 1].regs == ks[i].regs.(rsp := ks[i].regs.rsp + 8, rip := Read(ks[i].mem, ks[i].regs.rsp))
    ensures ks[i].current in l.stack && forall a | a in l.stack[ks[i].current] :: Read(ks[j + 1].mem, a) == Read(ks[i].mem, a)
  {
    var t, snap := ks[i].current, Returning(ks[i].mem, ks[i].regs);
    RunKeepsInv(l, ks, steps);
    assert Inv(l, ks[i]) && Inv(l, ks[j]);
    assert Enabled(l, ks[i], steps[i]) && Next(l, ks[i], steps[i], ks[i + 1]);
    SwappedOut(l, ks[i], steps[i].next, ks[i + 1]);
    WhileSuspended(l, ks, steps, i + 1, j, t);
    assert Enabled(l, ks[j], steps[j]) && Next(l, ks[j], steps[j], ks[j + 1]);
    ResumeIsExact(l, ks[j], steps[j], ks[j + 1]);
    assert steps[j].next == t;
    assert forall a | a in l.stack[t] :: !InBlock(l.block[ks[j].current], a);
  }
}
