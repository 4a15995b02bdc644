/** Context switches: src/task/context_swap.asm and src/task/died_context_swap.asm as machines over registers
    and memory. Memory is a store of 64-bit words at byte addresses. */
module Context {

  type Word = nat
  type Memory = map<nat, Word>

  /** The registers in the order of struct sigcontext. */
  datatype Registers = Registers(
    r8: Word, r9: Word, r10: Word, r11: Word, r12: Word, r13: Word, r14: Word, r15: Word,
    rdi: Word, rsi: Word, rbp: Word, rbx: Word, rdx: Word, rax: Word, rcx: Word, rsp: Word, rip: Word)

  const BLOCK := 8 * 17

  function Read(m: Memory, a: nat): Word { if a in m then m[a] else 0 }

  /** Address a is one of the words of the context block at `base`. */
  predicate InBlock(base: nat, a: nat) { base <= a < base + BLOCK && (a - base) % 8 == 0 }

  /** The registers saved in the block at `base`, one word after the other. */
  function Save(m: Memory, base: nat, r: Registers): Memory {
    m[base := r.r8][base + 8 * 1 := r.r9][base + 8 * 2 := r.r10][base + 8 * 3 := r.r11][base + 8 * 4 := r.r12]
     [base + 8 * 5 := r.r13][base + 8 * 6 := r.r14][base + 8 * 7 := r.r15][base + 8 * 8 := r.rdi]
     [base + 8 * 9 := r.rsi][base + 8 * 10 := r.rbp][base + 8 * 11 := r.rbx][base + 8 * 12 := r.rdx]
     [base + 8 * 13 := r.rax][base + 8 * 14 := r.rcx][base + 8 * 16 := r.rip][base + 8 * 15 := r.rsp]
  }

  /** The registers found in the block at `base`. */
  function Load(m: Memory, base: nat): Registers {
    Registers(
      Read(m, base), Read(m, base + 8 * 1), Read(m, base + 8 * 2), Read(m, base + 8 * 3), Read(m, base + 8 * 4), Read(m, base + 8 * 5),
      Read(m, base + 8 * 6), Read(m, base + 8 * 7), Read(m, base + 8 * 8), Read(m, base + 8 * 9), Read(m, base + 8 * 10), Read(m, base + 8 * 11),
      Read(m, base + 8 * 12), Read(m, base + 8 * 13), Read(m, base + 8 * 14), Read(m, base + 8 * 15), Read(m, base + 8 * 16))
  }

  /** Two blocks that do not overlap. */
  predicate Apart(b: nat, c: nat) { b + BLOCK <= c || c + BLOCK <= b }

  /** Memory m' is m with `saved` in the block at `base` and the return address of r pushed on r's stack. */
  ghost predicate Switched(m: Memory, base: nat, saved: Registers, m': Memory, r: Registers) {
    && Load(m', base) == saved
    && r.rsp >= 8 && Read(m', r.rsp - 8) == r.rip
    && forall a: nat | !InBlock(base, a) && a != r.rsp - 8 :: Read(m', a) == Read(m, a)
  }

  /** Memory m' is m with the return address of r pushed on r's stack. */
  ghost predicate Pushed(m: Memory, m': Memory, r: Registers) {
    r.rsp >= 8 && forall a: nat :: Read(m', a) == if a == r.rsp - 8 then r.rip else Read(m, a)
  }

  /** What a call of context_swap saves: the caller as it will be after the call has returned. */
  function Returning(m: Memory, r: Registers): Registers {
    r.(rsp := r.rsp + 8, rip := Read(m, r.rsp))
  }

  lemma SaveThenLoad(m: Memory, base: nat, r: Registers)
    ensures Load(Save(m, base, r), base) == r
  {
  }

  lemma SaveElsewhere(m: Memory, base: nat, r: Registers, a: nat)
    requires !InBlock(base, a)
    ensures Read(Save(m, base, r), a) == Read(m, a)
  {
  }

  lemma LoadSame(m: Memory, m': Memory, base: nat)
    requires forall a: nat | InBlock(base, a) :: Read(m', a) == Read(m, a)
    ensures Load(m', base) == Load(m, base)
  {
    assert forall k: nat | k < 17 :: InBlock(base, base + 8 * k);
  }

  lemma LoadElsewhere(m: Memory, base: nat, r: Registers, other: nat)
    requires Apart(base, other)
    ensures Load(Save(m, base, r), other) == Load(m, other)
  {
    hide Save, Load;
    forall a: nat | InBlock(other, a) ensures Read(Save(m, base, r), a) == Read(m, a) {
      SaveElsewhere(m, base, r, a);
    }
    LoadSame(m, Save(m, base, r), other);
  }

  lemma LoadedStack(m: Memory, base: nat)
    ensures Load(m, base).rsp == Read(m, base + 8 * 15)
  {
  }

  /** context_swap(rdi, rsi): saves the caller in one block, as it will be after the call returns, and
      continues what the other block holds, after pushing its return address. Stacks lie outside the blocks. */
  method ContextSwap(m0: Memory, r0: Registers) returns (m: Memory, r: Registers)
    requires Apart(r0.rdi, r0.rsi) && !InBlock(r0.rdi, r0.rsp)
    requires var sp := Read(m0, r0.rsi + 8 * 15); sp >= 8 && !InBlock(r0.rdi, sp - 8) && !InBlock(r0.rsi, sp - 8)
    ensures r == Load(m0, r0.rsi) && Switched(m0, r0.rdi, Returning(m0, r0), m, r)
  {
    hide Save, Load;
    m, r := SaveCaller(m0, r0);
    LoadElsewhere(m0, r0.rdi, Returning(m0, r0), r0.rsi);
    LoadedStack(m0, r0.rsi);
    ghost var m1 := m;
    m, r := LoadNext(m, r);
    SaveThenLoad(m0, r0.rdi, Returning(m0, r0));
    PushElsewhere(m1, r0.rdi, r.rsp - 8, r.rip);
    forall a: nat | !InBlock(r0.rdi, a) && a != r.rsp - 8 ensures Read(m, a) == Read(m0, a) {
      SaveElsewhere(m0, r0.rdi, Returning(m0, r0), a);
    }
  }

  /** The second half. */
  method LoadNext(m0: Memory, r0: Registers) returns (m: Memory, r: Registers)
    requires var sp := Load(m0, r0.rsi).rsp; sp >= 8 && !InBlock(r0.rsi, sp - 8)
    ensures r == Load(m0, r0.rsi) && m == m0[r.rsp - 8 := r.rip]
  {
    m, r := m0, r0;
    r := r.(r8 := Read(m, r.rsi));
    r := r.(r9 := Read(m, r.rsi + 8 * 1));
    r := r.(r10 := Read(m, r.rsi + 8 * 2));
    r := r.(r11 := Read(m, r.rsi + 8 * 3));
    r := r.(r12 := Read(m, r.rsi + 8 * 4));
    r := r.(r13 := Read(m, r.rsi + 8 * 5));
    r := r.(r14 := Read(m, r.rsi + 8 * 6));
    r := r.(r15 := Read(m, r.rsi + 8 * 7));
    r := r.(rdi := Read(m, r.rsi + 8 * 8));
    r := r.(rbp := Read(m, r.rsi + 8 * 10));
    r := r.(rbx := Read(m, r.rsi + 8 * 11));
    r := r.(rdx := Read(m, r.rsi + 8 * 12));
    r := r.(rax := Read(m, r.rsi + 8 * 13));
    r := r.(rsp := Read(m, r.rsi + 8 * 15));
    r := r.(rcx := Read(m, r.rsi + 8 * 16));
    m, r := Push(m, r, r.rcx);
    PushElsewhere(m0, r0.rsi, r.rsp, r.rcx);
    r := r.(rcx := Read(m, r.rsi + 8 * 14));
    r := r.(rsi := Read(m, r.rsi + 8 * 9));
    r := Ret(m, r);
  }

  /** The first half of context_swap. */
  method SaveCaller(m0: Memory, r0: Registers) returns (m: Memory, r: Registers)
    requires !InBlock(r0.rdi, r0.rsp)
    ensures m == Save(m0, r0.rdi, Returning(m0, r0)) && r == r0.(rcx := r0.rsp + 8)
  {
    m, r := m0, r0;
    m := m[r.rdi := r.r8];
    m := m[r.rdi + 8 * 1 := r.r9];
    m := m[r.rdi + 8 * 2 := r.r10];
    m := m[r.rdi + 8 * 3 := r.r11];
    m := m[r.rdi + 8 * 4 := r.r12];
    m := m[r.rdi + 8 * 5 := r.r13];
    m := m[r.rdi + 8 * 6 := r.r14];
    m := m[r.rdi + 8 * 7 := r.r15];
    m := m[r.rdi + 8 * 8 := r.rdi];
    m := m[r.rdi + 8 * 9 := r.rsi];
    m := m[r.rdi + 8 * 10 := r.rbp];
    m := m[r.rdi + 8 * 11 := r.rbx];
    m := m[r.rdi + 8 * 12 := r.rdx];
    m := m[r.rdi + 8 * 13 := r.rax];
    m := m[r.rdi + 8 * 14 := r.rcx];
    r := r.(rcx := Read(m, r.rsp));
    m := m[r.rdi + 8 * 16 := r.rcx];
    r := r.(rcx := r.rsp + 8);
    m := m[r.rdi + 8 * 15 := r.rcx];
  }

  /** context_set(rdi) */
  method ContextSet(m0: Memory, r0: Registers) returns (m: Memory, r: Registers)
    requires var sp := Read(m0, r0.rdi + 8 * 15); sp >= 8 && !InBlock(r0.rdi, sp - 8)
    ensures r == Load(m0, r0.rdi) && Pushed(m0, m, r)
  {
    m, r := m0, r0;
    r := r.(r8 := Read(m, r.rdi));
    r := r.(r9 := Read(m, r.rdi + 8 * 1));
    r := r.(r10 := Read(m, r.rdi + 8 * 2));
    r := r.(r11 := Read(m, r.rdi + 8 * 3));
    r := r.(r12 := Read(m, r.rdi + 8 * 4));
    r := r.(r13 := Read(m, r.rdi + 8 * 5));
    r := r.(r14 := Read(m, r.rdi + 8 * 6));
    r := r.(r15 := Read(m, r.rdi + 8 * 7));
    r := r.(rsi := Read(m, r.rdi + 8 * 9));
    r := r.(rbp := Read(m, r.rdi + 8 * 10));
    r := r.(rbx := Read(m, r.rdi + 8 * 11));
    r := r.(rdx := Read(m, r.rdi + 8 * 12));
    r := r.(rax := Read(m, r.rdi + 8 * 13));
    r := r.(rcx := Read(m, r.rdi + 8 * 14));
    r := r.(rsp := Read(m, r.rdi + 8 * 15));
    r := r.(rcx := Read(m, r.rdi + 8 * 16));
    m, r := Push(m, r, r.rcx);
    PushElsewhere(m0, r0.rdi, r.rsp, r.rcx);
    r := r.(rcx := Read(m, r.rdi + 8 * 14));
    r := r.(rdi := Read(m, r.rdi + 8 * 8));
    r := Ret(m, r);
  }

  lemma PushElsewhere(m: Memory, base: nat, a: nat, x: Word)
    requires !InBlock(base, a)
    ensures Load(m[a := x], base) == Load(m, base)
  {
    LoadSame(m, m[a := x], base);
  }

  method Push(m0: Memory, r0: Registers, x: Word) returns (m: Memory, r: Registers)
    requires r0.rsp >= 8
    ensures r == r0.(rsp := r0.rsp - 8) && m == m0[r.rsp := x]
  {
    r := r0.(rsp := r0.rsp - 8);
    m := m0[r.rsp := x];
  }

  method Ret(m: Memory, r0: Registers) returns (r: Registers)
    ensures r == r0.(rip := Read(m, r0.rsp), rsp := r0.rsp + 8)
  {
    r := r0.(rip := Read(m, r0.rsp));
    r := r.(rsp := r.rsp + 8);
  }
}
