/** What one cycle of each instruction does to the machine, how push/pop and
    call/ret pair up, when the machine stops, and the quirks of the source's
    arithmetic, flags and stack addressing. */
module Ls8Properties {
  import opened Ls8Machine
  import Ls8Cpu

  // ---------------------------------------------------------------------
  // The opcode table

  /** Every instruction with a handler is found under its own opcode. */
  lemma DecodeOpcode(op: Op)
    ensures Decode(Opcode(op)) == Some(op)
  {
  }

  /** A cycle that fetches an instruction's opcode runs that instruction's
      handler on the two bytes after it. */
  lemma StepRuns(s: State, op: Op)
    requires WellFormed(s) && Fetch(s).Some? && Fetch(s).value.0 == Opcode(op)
    ensures Step(s) == Complete(Execute(s, op, Fetch(s).value.1, Fetch(s).value.2))
  {
    DecodeOpcode(op);
  }

  /** The jumps are named in the table without a handler: fetching one is
      fatal, like any byte that is not an opcode. */
  lemma JumpsUnimplemented(s: State)
    requires WellFormed(s)
    requires Fetch(s).Some? && Fetch(s).value.0 in {JeqCode, JneCode, JmpCode}
    ensures Step(s) == (Fatal, s)
  {
  }

  // ---------------------------------------------------------------------
  // One cycle of each instruction

  /** LDI r, v: register r becomes v, pc advances by 3, and nothing else
      changes; an invalid register index is fatal. */
  lemma LdiStep(s: State, r: int, v: int)
    requires WellFormed(s) && s.running
    requires Fetch(s).Some? && Fetch(s).value.0 == Opcode(LDI)
    requires Fetch(s).value.1 == r && Fetch(s).value.2 == v
    ensures !Indexable(r, RegCount) ==> Step(s) == (Fatal, s)
    ensures Indexable(r, RegCount) ==>
      var (status, t) := Step(s);
      && status == Continue
      && t.reg[Slot(r, RegCount)] == v
      && (forall j :: 0 <= j < RegCount && j != Slot(r, RegCount) ==> t.reg[j] == s.reg[j])
      && t.pc == s.pc + 3
      && t.ram == s.ram && t.sp == s.sp && t.out == s.out
      && t.E == s.E && t.G == s.G && t.L == s.L
  {
  }

  /** PRN r: the value of register r is appended to the output, pc advances
      by 2, and nothing else changes. */
  lemma PrnStep(s: State, r: int)
    requires WellFormed(s) && s.running
    requires Fetch(s).Some? && Fetch(s).value.0 == Opcode(PRN) && Fetch(s).value.1 == r
    ensures !Indexable(r, RegCount) ==> Step(s) == (Fatal, s)
    ensures Indexable(r, RegCount) ==>
      Step(s) == (Continue, s.(out := s.out + [s.reg[Slot(r, RegCount)]], pc := s.pc + 2))
  {
  }

  /** ADD a, b: register a becomes the unbounded sum of registers a and b. */
  lemma AddStep(s: State, a: int, b: int)
    requires WellFormed(s) && s.running
    requires Fetch(s).Some? && Fetch(s).value.0 == Opcode(ADD)
    requires Fetch(s).value.1 == a && Fetch(s).value.2 == b
    ensures !(Indexable(a, RegCount) && Indexable(b, RegCount)) ==> Step(s) == (Fatal, s)
    ensures Indexable(a, RegCount) && Indexable(b, RegCount) ==>
      var (status, t) := Step(s);
      var i := Slot(a, RegCount);
      && status == Continue
      && t.reg[i] == s.reg[i] + s.reg[Slot(b, RegCount)]
      && (forall j :: 0 <= j < RegCount && j != i ==> t.reg[j] == s.reg[j])
      && t == s.(reg := t.reg, pc := s.pc + 3)
  {
  }

  /** SUB, which no opcode reaches: register a becomes the unbounded
      difference and nothing else changes. */
  lemma AluSubtracts(s: State, a: int, b: int)
    requires WellFormed(s) && Indexable(a, RegCount) && Indexable(b, RegCount)
    ensures var t := Alu(s, "SUB", a, b);
      var i := Slot(a, RegCount);
      && t.Some?
      && t.value.reg[i] == s.reg[i] - s.reg[Slot(b, RegCount)]
      && (forall j :: 0 <= j < RegCount && j != i ==> t.value.reg[j] == s.reg[j])
      && t.value == s.(reg := t.value.reg)
  {
  }

  /** MUL a, b: register a becomes the unbounded product of registers a and b. */
  lemma MulStep(s: State, a: int, b: int)
    requires WellFormed(s) && s.running
    requires Fetch(s).Some? && Fetch(s).value.0 == Opcode(MUL)
    requires Fetch(s).value.1 == a && Fetch(s).value.2 == b
    ensures !(Indexable(a, RegCount) && Indexable(b, RegCount)) ==> Step(s) == (Fatal, s)
    ensures Indexable(a, RegCount) && Indexable(b, RegCount) ==>
      var (status, t) := Step(s);
      var i := Slot(a, RegCount);
      && status == Continue
      && t.reg[i] == s.reg[i] * s.reg[Slot(b, RegCount)]
      && (forall j :: 0 <= j < RegCount && j != i ==> t.reg[j] == s.reg[j])
      && t == s.(reg := t.reg, pc := s.pc + 3)
  {
  }

  /** CMP a, b writes no register. Less sets L and clears G and E; greater
      sets G and clears L and E; equal sets E and leaves L and G alone. */
  lemma CmpStep(s: State, a: int, b: int)
    requires WellFormed(s) && s.running
    requires Fetch(s).Some? && Fetch(s).value.0 == Opcode(CMP)
    requires Fetch(s).value.1 == a && Fetch(s).value.2 == b
    ensures !(Indexable(a, RegCount) && Indexable(b, RegCount)) ==> Step(s) == (Fatal, s)
    ensures Indexable(a, RegCount) && Indexable(b, RegCount) ==>
      var (status, t) := Step(s);
      var x, y := s.reg[Slot(a, RegCount)], s.reg[Slot(b, RegCount)];
      && status == Continue
      && t == s.(E := t.E, G := t.G, L := t.L, pc := s.pc + 3)
      && (x < y ==> t.L && !t.G && !t.E)
      && (x > y ==> t.G && !t.L && !t.E)
      && (x == y ==> t.E && t.L == s.L && t.G == s.G)
  {
    StepRuns(s, CMP);
  }

  /** HLT clears `running`, leaves pc where it is and ends the run. */
  lemma HltStep(s: State, fuel: nat)
    requires WellFormed(s) && s.running && fuel > 0
    requires Fetch(s).Some? && Fetch(s).value.0 == Opcode(HLT)
    ensures Step(s) == (Halted, s.(running := false))
    ensures Run(s, fuel) == (Halted, s.(running := false))
  {
    assert Step(s) == (Halted, s.(running := false));
    RunUnfold(s, fuel);
  }

  // ---------------------------------------------------------------------
  // Stack discipline

  /** PUSH r: the register the `sp` field names is decremented first, then
      register r is stored at the address that register now holds, and pc
      advances by 2. A bad index after the decrement is fatal and keeps the
      decrement. */
  lemma PushStep(s: State, r: int)
    requires WellFormed(s) && s.running
    requires Fetch(s).Some? && Fetch(s).value.0 == Opcode(PUSH) && Fetch(s).value.1 == r
    ensures !Indexable(s.sp, RegCount) ==> Step(s) == (Fatal, s)
    ensures Indexable(s.sp, RegCount) ==>
      var k := Slot(s.sp, RegCount);
      var reg1 := s.reg[k := s.reg[k] - 1];
      if Indexable(r, RegCount) && Indexable(reg1[k], RamSize) then
        Step(s) == (Continue, s.(reg := reg1, ram := s.ram[Slot(reg1[k], RamSize) := reg1[Slot(r, RegCount)]],
                                 pc := s.pc + 2))
      else
        Step(s) == (Fatal, s.(reg := reg1))
  {
    StepRuns(s, PUSH);
  }

  /** POP r: register r gets the cell the stack register addresses, then
      the stack register is incremented, and pc advances by 2. A bad index
      is fatal and changes nothing. */
  lemma PopStep(s: State, r: int)
    requires WellFormed(s) && s.running
    requires Fetch(s).Some? && Fetch(s).value.0 == Opcode(POP) && Fetch(s).value.1 == r
    ensures !Indexable(s.sp, RegCount) ==> Step(s) == (Fatal, s)
    ensures Indexable(s.sp, RegCount) ==>
      var k := Slot(s.sp, RegCount);
      if Indexable(s.reg[k], RamSize) && Indexable(r, RegCount) then
        var r1 := s.reg[Slot(r, RegCount) := s.ram[Slot(s.reg[k], RamSize)]];
        Step(s) == (Continue, s.(reg := r1[k := r1[k] + 1], pc := s.pc + 2))
      else
        Step(s) == (Fatal, s)
  {
    StepRuns(s, POP);
  }

  /** PUSH a then POP b with neither a nor b the stack-pointer register: the
      value of a lands in b, the stack-pointer register is back where it
      was, and the pushed value stays in the cell just below it. */
  lemma PushPopMoves(s: State, a: int, b: int)
    requires WellFormed(s) && Indexable(s.sp, RegCount)
    requires Indexable(a, RegCount) && Indexable(b, RegCount)
    requires Slot(a, RegCount) != Slot(s.sp, RegCount) && Slot(b, RegCount) != Slot(s.sp, RegCount)
    requires Indexable(s.reg[Slot(s.sp, RegCount)] - 1, RamSize)
    ensures var x := Push(s, a);
      var y := Pop(x.st, b);
      var v := s.reg[Slot(a, RegCount)];
      && x.width == Some(2) && y.width == Some(2)
      && y.st.reg == s.reg[Slot(b, RegCount) := v]
      && y.st.ram == s.ram[Slot(s.reg[Slot(s.sp, RegCount)] - 1, RamSize) := v]
      && y.st == s.(reg := y.st.reg, ram := y.st.ram)
  {
    var k := Slot(s.sp, RegCount);
    var t := Push(s, a).st;
    assert t.reg == s.reg[k := s.reg[k] - 1];
  }

  /** PUSH r then POP r leaves every register as it was, whichever register
      r is: for the stack-pointer register itself, the popped value is the
      decremented pointer and the increment after it restores the pointer. */
  lemma PushPopRestores(s: State, r: int)
    requires WellFormed(s) && Indexable(s.sp, RegCount) && Indexable(r, RegCount)
    requires Indexable(s.reg[Slot(s.sp, RegCount)] - 1, RamSize)
    ensures var x := Push(s, r);
      var y := Pop(x.st, r);
      && x.width == Some(2) && y.width == Some(2)
      && y.st.reg == s.reg
      && y.st == s.(ram := y.st.ram)
  {
    var k := Slot(s.sp, RegCount);
    var t := Push(s, r).st;
    assert t.reg == s.reg[k := s.reg[k] - 1];
  }

  /** The same pair as two cycles of the machine: each advances pc by 2,
      and afterwards only RAM and pc differ from the state before the PUSH. */
  lemma PushPopSteps(s: State, r: int)
    requires WellFormed(s) && s.running
    requires Indexable(s.sp, RegCount) && Indexable(r, RegCount)
    requires Indexable(s.reg[Slot(s.sp, RegCount)] - 1, RamSize)
    requires Fetch(s).Some? && Fetch(s).value.0 == Opcode(PUSH) && Fetch(s).value.1 == r
    requires var t := Step(s).1;
      Fetch(t).Some? && Fetch(t).value.0 == Opcode(POP) && Fetch(t).value.1 == r
    ensures var (status1, t) := Step(s);
      var (status2, u) := Step(t);
      && status1 == Continue && t.pc == s.pc + 2
      && status2 == Continue && u.pc == s.pc + 4
      && u == s.(ram := u.ram, pc := u.pc)
  {
    var x := Push(s, r);
    PushPopRestores(s, r);
    StepRuns(s, PUSH);
    var t := Step(s).1;
    assert t == x.st.(pc := s.pc + 2);
    StepRuns(t, POP);
    assert Pop(t, r).st == Pop(x.st, r).st.(pc := s.pc + 2);
  }

  /** CALL r then, at the target, RET: pc comes back to the address after
      the call (its own address + 2). Call leaves `sp` one lower, with the
      return address stored at that raw RAM address. */
  lemma CallRetPairs(s: State, r: int)
    requires WellFormed(s) && s.running
    requires Indexable(r, RegCount) && Indexable(s.sp - 1, RamSize)
    requires Fetch(s).Some? && Fetch(s).value.0 == Opcode(CALL) && Fetch(s).value.1 == r
    ensures
      var (status, t) := Step(s);
      && status == Continue
      && t == s.(pc := s.reg[Slot(r, RegCount)], sp := s.sp - 1,
                 ram := s.ram[Slot(s.sp - 1, RamSize) := s.pc + 2])
      && (Fetch(t).Some? && Fetch(t).value.0 == Opcode(RET) ==>
            Step(t) == (Continue, t.(pc := s.pc + 2)))
  {
    StepRuns(s, CALL);
    var t := Step(s).1;
    assert t == Call(s, r).st;
    if Fetch(t).Some? && Fetch(t).value.0 == Opcode(RET) {
      StepRuns(t, RET);
    }
  }

  /** RET does not move `sp`: a second RET returns to the same address as
      the first, so nested calls do not unwind. */
  lemma RetKeepsSp(s: State)
    requires WellFormed(s) && Indexable(s.sp, RamSize)
    ensures Ret(s).width == Some(0) && Ret(s).st.sp == s.sp
    ensures Ret(Ret(s).st) == Ret(s)
  {
  }

  /** After a CALL, the `sp` field is one lower, so PUSH and POP address the
      stack through register 6 instead of register 7. */
  lemma CallShiftsStackRegister(s: State, r: int, q: int)
    requires WellFormed(s) && s.sp == InitialSp
    requires Indexable(r, RegCount) && Indexable(q, RegCount) && Slot(q, RegCount) != 6
    requires Indexable(s.reg[6] - 1, RamSize)
    ensures var t := Call(s, r).st;
      var u := Push(t, q).st;
      && t.sp == 6
      && u.reg[6] == s.reg[6] - 1 && u.reg[7] == s.reg[7]
      && u.ram[Slot(s.reg[6] - 1, RamSize)] == s.reg[Slot(q, RegCount)]
  {
  }

  /** The first PUSH of a fresh machine (`sp` 7, register 7 still 0)
      decrements register 7 from 0 to -1, which Python's indexing sends to
      the top RAM cell: the pushed register lands in cell 255. */
  lemma FirstPushWritesTopCell(s: State, r: int)
    requires WellFormed(s) && s.sp == InitialSp && s.reg[7] == 0
    requires 0 <= r < 7
    ensures Push(s, r).width == Some(2)
    ensures Push(s, r).st == s.(reg := s.reg[7 := -1], ram := s.ram[255 := s.reg[r]])
  {
  }

  // ---------------------------------------------------------------------
  // The ALU

  /** Registers hold unbounded integers: 250 + 10 stays 260 and no operation
      wraps modulo 256. */
  lemma NoByteWrap(s: State)
    requires WellFormed(s) && s.reg[0] == 250 && s.reg[1] == 10
    ensures Alu(s, "ADD", 0, 1).Some? && Alu(s, "ADD", 0, 1).value.reg[0] == 260
    ensures Alu(s, "MUL", 0, 1).Some? && Alu(s, "MUL", 0, 1).value.reg[0] == 2500
    ensures Alu(s, "SUB", 1, 0).Some? && Alu(s, "SUB", 1, 0).value.reg[1] == -240
  {
  }

  /** An equal comparison does not clear a flag left set by an earlier one:
      after "less" then "equal", L and E are both set. */
  lemma CmpEqualKeepsStaleFlags(s: State, a: int, b: int, c: int)
    requires WellFormed(s)
    requires Indexable(a, RegCount) && Indexable(b, RegCount) && Indexable(c, RegCount)
    requires s.reg[Slot(a, RegCount)] < s.reg[Slot(b, RegCount)]
    ensures var t := Alu(s, "CMP", a, b).value;
      var u := Alu(t, "CMP", c, c).value;
      u.L && u.E && !u.G
  {
  }

  /** The ALU raises exactly when the operation name is not one it knows or
      a register index is out of range. */
  lemma AluRaises(s: State, op: string, a: int, b: int)
    requires WellFormed(s)
    ensures Alu(s, op, a, b).None? <==>
      || (op != "ADD" && op != "MUL" && op != "SUB" && op != "CMP")
      || !Indexable(a, RegCount) || !Indexable(b, RegCount)
  {
  }

  // ---------------------------------------------------------------------
  // Fatal stops

  /** Every cycle reads pc, pc + 1 and pc + 2: with pc + 2 at 256 or more
      (or pc below -256) the machine stops before dispatch, unchanged. */
  lemma FetchOutOfRange(s: State)
    requires WellFormed(s)
    requires s.pc + 2 >= RamSize || s.pc < -(RamSize as int)
    ensures Step(s) == (Fatal, s)
  {
  }

  /** A byte that is not in the table stops the machine, unchanged. */
  lemma UnknownOpcodeFatal(s: State)
    requires WellFormed(s)
    requires Fetch(s).Some? && Decode(Fetch(s).value.0).None?
    ensures Step(s) == (Fatal, s)
  {
  }

  /** A fatal stop never advances pc and never clears `running`; it keeps
      only what the failing handler had changed before it raised. */
  lemma FatalKeepsPc(s: State)
    requires WellFormed(s)
    ensures Step(s).0 == Fatal ==> Step(s).1.pc == s.pc && Step(s).1.running == s.running
  {
    match Fetch(s)
    case None =>
    case Some((ir, op1, op2)) =>
      match Decode(ir)
      case None =>
      case Some(op) =>
        var x := Execute(s, op, op1, op2);
        assert x.width.None? ==> x.st.pc == s.pc && x.st.running == s.running;
  }

  /** Only HLT stops the machine without a fatal error. */
  lemma HaltedOnlyByHlt(s: State)
    requires WellFormed(s) && s.running
    ensures Step(s).0 == Halted ==>
      Fetch(s).Some? && Fetch(s).value.0 == Opcode(HLT) && Step(s) == (Halted, s.(running := false))
  {
    match Fetch(s)
    case None =>
    case Some((ir, op1, op2)) =>
      match Decode(ir)
      case None =>
      case Some(op) =>
        var x := Execute(s, op, op1, op2);
        assert op != HLT ==> x.st.running;
  }

  // ---------------------------------------------------------------------
  // Runs

  /** The state `load` leaves when no file is given. */
  function BuiltinState(): (s: State)
    ensures WellFormed(s)
  {
    Initial().(ram := Ls8Cpu.BuiltinProgram + Initial().ram[|Ls8Cpu.BuiltinProgram|..])
  }

  /** LDI R0,8; PRN R0; HLT prints 8 and halts after three cycles with pc on
      the HLT, and so with any larger amount of fuel. */
  lemma BuiltinProgramPrints8(fuel: nat)
    requires fuel >= 3
    ensures var (status, t) := Run(BuiltinState(), fuel);
      status == Halted && t.out == [8] && t.reg[0] == 8 && t.pc == 5 && !t.running
  {
    var s0 := BuiltinState();
    assert Fetch(s0) == Some((0x82, 0, 8));
    var s1 := Step(s0).1;
    assert s1 == s0.(reg := s0.reg[0 := 8], pc := 3);
    assert Fetch(s1) == Some((0x47, 0, 1));
    var s2 := Step(s1).1;
    assert s2 == s1.(out := [8], pc := 5);
    assert Fetch(s2) == Some((0x01, 0, 0));
    var s3 := Step(s2).1;
    assert Step(s2) == (Halted, s2.(running := false));
    assert Run(s0, 3) == (Halted, s3);
    RunStable(s0, 3, fuel);
  }

  /** A fresh CPU that loads the built-in program and runs it prints 8 and
      halts. */
  method RunBuiltinProgram(fuel: nat) returns (status: Status, printed: seq<int>)
    requires fuel >= 3
    ensures status == Halted && printed == [8]
  {
    var cpu := new Ls8Cpu.Cpu();
    cpu.LoadBuiltin();
    assert cpu.Snapshot() == BuiltinState();
    status := cpu.Run(fuel);
    BuiltinProgramPrints8(fuel);
    printed := cpu.output;
  }
}
