/** The LS-8 machine as a value: its state, its opcode table, and the meaning
    of each instruction handler, of one fetch-decode-execute cycle and of a
    bounded run, as pure functions over that value. The class in
    ls8_cpu.dfy is proved to update its arrays and fields exactly as these
    functions say. */
module Ls8Machine {

  datatype Option<T> = None | Some(value: T)

  const RamSize: nat := 256
  const RegCount: nat := 8
  /** Initial value of the CPU's `sp` field: the index of the register that
      push and pop use as the stack pointer, and the raw address that call
      and ret use. */
  const InitialSp: int := 7

  // ---------------------------------------------------------------------
  // Python list indexing

  /** Python accepts index `i` into a list of length `n` when `-n <= i < n`;
      any other index raises IndexError. */
  predicate Indexable(i: int, n: nat) {
    -(n as int) <= i < n
  }

  /** The element a valid Python index designates: a negative index counts
      back from the end of the list. */
  function Slot(i: int, n: nat): (k: nat)
    requires Indexable(i, n)
    ensures k < n
    ensures i >= 0 ==> k == i
    ensures i < 0 ==> k == i + n
  {
    if i < 0 then i + n else i
  }

  // ---------------------------------------------------------------------
  // Machine state

  /** Everything a CPU object holds: 256 RAM cells, 8 registers, the program
      counter, the `sp` field, the running flag, the E/G/L comparison flags
      and the values printed so far. Cells and registers hold unbounded
      integers: nothing in the machine truncates to 8 bits. */
  datatype State = State(
    ram: seq<int>,
    reg: seq<int>,
    pc: int,
    sp: int,
    running: bool,
    E: bool,
    G: bool,
    L: bool,
    out: seq<int>)

  predicate WellFormed(s: State) {
    |s.ram| == RamSize && |s.reg| == RegCount
  }

  /** The state a freshly constructed CPU is in. */
  function Initial(): (s: State)
    ensures WellFormed(s)
    ensures forall a :: 0 <= a < RamSize ==> s.ram[a] == 0
    ensures forall r :: 0 <= r < RegCount ==> s.reg[r] == 0
    ensures s.pc == 0 && s.sp == InitialSp && s.running
    ensures !s.E && !s.G && !s.L && s.out == []
  {
    State(seq(RamSize, _ => 0), seq(RegCount, _ => 0), 0, InitialSp, true,
          false, false, false, [])
  }

  /** `ram_read`: only the upper bound is checked (an address of 256 or more
      stops the process); an address below -256 raises IndexError and one in
      -256..-1 reads from the top of memory. Both failures are fatal. */
  function RamRead(ram: seq<int>, address: int): (r: Option<int>)
    requires |ram| == RamSize
    ensures r.Some? <==> Indexable(address, RamSize)
    ensures r.Some? ==> r.value == ram[Slot(address, RamSize)]
  {
    if address < |ram| then
      if -|ram| <= address then Some(ram[Slot(address, |ram|)])
      else None
    else None
  }

  // ---------------------------------------------------------------------
  // The opcode table

  /** The instructions that have a handler. JEQ, JNE and JMP are named in
      the table but have no handler, so they are not among them. */
  datatype Op = LDI | PRN | HLT | MUL | PUSH | POP | CALL | RET | ADD | CMP

  function Opcode(op: Op): int {
    match op
    case LDI => 0x82
    case PRN => 0x47
    case HLT => 0x01
    case MUL => 0xA2
    case PUSH => 0x45
    case POP => 0x46
    case CALL => 0x50
    case RET => 0x11
    case ADD => 0xA0
    case CMP => 0xA7
  }

  /** Opcodes of the conditional and unconditional jumps, which the table
      names but no handler implements. */
  const JeqCode: int := 0x55
  const JneCode: int := 0x56
  const JmpCode: int := 0x54

  /** Dispatch-table lookup: the instruction an opcode byte selects, if any. */
  function Decode(b: int): (r: Option<Op>)
    ensures r.Some? ==> Opcode(r.value) == b
    ensures r.None? ==> forall op :: Opcode(op) != b
  {
    if b == 0x82 then Some(LDI)
    else if b == 0x47 then Some(PRN)
    else if b == 0x01 then Some(HLT)
    else if b == 0xA2 then Some(MUL)
    else if b == 0x45 then Some(PUSH)
    else if b == 0x46 then Some(POP)
    else if b == 0x50 then Some(CALL)
    else if b == 0x11 then Some(RET)
    else if b == 0xA0 then Some(ADD)
    else if b == 0xA7 then Some(CMP)
    else None
  }

  // ---------------------------------------------------------------------
  // Handlers

  /** What a handler leaves behind: the program-counter advance it returns,
      or None when it raised, and the state it leaves in either case (a
      handler that raises keeps whatever it had already changed). */
  datatype Exec = Exec(width: Option<int>, st: State)

  /** `hlt`: the only handler that stops the machine; it changes nothing
      else. */
  function Hlt(s: State): (x: Exec)
    requires WellFormed(s)
    ensures WellFormed(x.st)
    ensures x.width == Some(0) && !x.st.running
    ensures x.st.(running := s.running) == s
  {
    Exec(Some(0), s.(running := false))
  }

  /** `ldi`: store `op2` in register `op1`. */
  function Ldi(s: State, op1: int, op2: int): (x: Exec)
    requires WellFormed(s)
    ensures WellFormed(x.st)
    ensures x.width.Some? <==> Indexable(op1, RegCount)
    ensures x.width.None? ==> x.st == s
    ensures x.width.Some? ==>
      && x.width == Some(3)
      && x.st.reg[Slot(op1, RegCount)] == op2
      && (forall i :: 0 <= i < RegCount && i != Slot(op1, RegCount) ==> x.st.reg[i] == s.reg[i])
      && x.st.(reg := s.reg) == s
  {
    if Indexable(op1, RegCount) then
      Exec(Some(3), s.(reg := s.reg[Slot(op1, RegCount) := op2]))
    else
      Exec(None, s)
  }

  /** `prn` prints the register; the model appends it to `out`. */
  function Prn(s: State, op1: int): (x: Exec)
    requires WellFormed(s)
    ensures WellFormed(x.st)
    ensures x.width.Some? <==> Indexable(op1, RegCount)
    ensures x.width.None? ==> x.st == s
    ensures x.width.Some? ==>
      && x.width == Some(2)
      && |x.st.out| == |s.out| + 1 && s.out <= x.st.out
      && x.st.out[|s.out|] == s.reg[Slot(op1, RegCount)]
      && x.st.(out := s.out) == s
  {
    if Indexable(op1, RegCount) then
      Exec(Some(2), s.(out := s.out + [s.reg[Slot(op1, RegCount)]]))
    else
      Exec(None, s)
  }

  /** `alu`: None when the operation name is unknown or a register index is
      out of range (both raise before anything changes). */
  function Alu(s: State, op: string, a: int, b: int): (t: Option<State>)
    requires WellFormed(s)
    ensures t.Some? ==> WellFormed(t.value)
    ensures t.Some? ==>
      && Indexable(a, RegCount) && Indexable(b, RegCount)
      && t.value.ram == s.ram && t.value.pc == s.pc && t.value.sp == s.sp
      && t.value.running == s.running && t.value.out == s.out
    ensures t.Some? && op != "CMP" ==>
      && (forall i :: 0 <= i < RegCount && i != Slot(a, RegCount) ==> t.value.reg[i] == s.reg[i])
      && t.value.E == s.E && t.value.G == s.G && t.value.L == s.L
    ensures t.Some? && op == "CMP" ==>
      t.value.reg == s.reg && (t.value.E || t.value.L != t.value.G)
  {
    var valid := Indexable(a, RegCount) && Indexable(b, RegCount);
    if op == "ADD" then
      if valid then
        var i := Slot(a, RegCount);
        Some(s.(reg := s.reg[i := s.reg[i] + s.reg[Slot(b, RegCount)]]))
      else None
    else if op == "MUL" then
      if valid then
        var i := Slot(a, RegCount);
        Some(s.(reg := s.reg[i := s.reg[i] * s.reg[Slot(b, RegCount)]]))
      else None
    else if op == "SUB" then
      if valid then
        var i := Slot(a, RegCount);
        Some(s.(reg := s.reg[i := s.reg[i] - s.reg[Slot(b, RegCount)]]))
      else None
    else if op == "CMP" then
      if valid then
        var x, y := s.reg[Slot(a, RegCount)], s.reg[Slot(b, RegCount)];
        if x < y then Some(s.(L := true, G := false, E := false))
        else if x > y then Some(s.(G := true, L := false, E := false))
        else Some(s.(E := true))
      else None
    else None
  }

  /** The handlers `mul`, `add` and `comp`: an ALU operation of width 3. */
  function AluHandler(s: State, op: string, op1: int, op2: int): (x: Exec)
    requires WellFormed(s)
    ensures WellFormed(x.st)
    ensures x.width.Some? <==> Alu(s, op, op1, op2).Some?
    ensures x.width.None? ==> x.st == s
    ensures x.width.Some? ==> x.width == Some(3)
  {
    match Alu(s, op, op1, op2)
    case Some(t) => Exec(Some(3), t)
    case None => Exec(None, s)
  }

  /** `push`: decrement the register the `sp` field names, then store
      register `op1` at the address that register now holds. */
  function Push(s: State, op1: int): (x: Exec)
    requires WellFormed(s)
    ensures WellFormed(x.st)
    ensures x.width.Some? <==>
      Indexable(s.sp, RegCount) && Indexable(op1, RegCount)
      && Indexable(s.reg[Slot(s.sp, RegCount)] - 1, RamSize)
    ensures x.width.Some? ==> x.width == Some(2)
    ensures !Indexable(s.sp, RegCount) ==> x.st == s
    ensures Indexable(s.sp, RegCount) ==>
      var k := Slot(s.sp, RegCount);
      x.st.reg == s.reg[k := s.reg[k] - 1]
    ensures x.st.pc == s.pc && x.st.sp == s.sp && x.st.out == s.out && x.st.running == s.running
    ensures x.width.None? ==> x.st.ram == s.ram
    ensures x.width.Some? ==>
      var k := Slot(s.sp, RegCount);
      x.st.ram == s.ram[Slot(x.st.reg[k], RamSize) := x.st.reg[Slot(op1, RegCount)]]
  {
    if !Indexable(s.sp, RegCount) then Exec(None, s)
    else
      var k := Slot(s.sp, RegCount);
      var s1 := s.(reg := s.reg[k := s.reg[k] - 1]);
      if !Indexable(op1, RegCount) then Exec(None, s1)
      else
        var value, address := s1.reg[Slot(op1, RegCount)], s1.reg[k];
        if !Indexable(address, RamSize) then Exec(None, s1)
        else Exec(Some(2), s1.(ram := s1.ram[Slot(address, RamSize) := value]))
  }

  /** `pop`: read memory at the register the `sp` field names into register
      `op1`, then increment that stack-pointer register. */
  function Pop(s: State, op1: int): (x: Exec)
    requires WellFormed(s)
    ensures WellFormed(x.st)
    ensures x.width.Some? <==>
      Indexable(s.sp, RegCount) && Indexable(op1, RegCount)
      && Indexable(s.reg[Slot(s.sp, RegCount)], RamSize)
    ensures x.width.None? ==> x.st == s
    ensures x.width.Some? ==> x.width == Some(2) && x.st.(reg := s.reg) == s
    ensures x.width.Some? ==>
      var k := Slot(s.sp, RegCount);
      var r1 := s.reg[Slot(op1, RegCount) := s.ram[Slot(s.reg[k], RamSize)]];
      x.st.reg == r1[k := r1[k] + 1]
  {
    if !Indexable(s.sp, RegCount) then Exec(None, s)
    else
      var k := Slot(s.sp, RegCount);
      match RamRead(s.ram, s.reg[k])
      case None => Exec(None, s)
      case Some(value) =>
        if !Indexable(op1, RegCount) then Exec(None, s)
        else
          var r1 := s.reg[Slot(op1, RegCount) := value];
          Exec(Some(2), s.(reg := r1[k := r1[k] + 1]))
  }

  /** `call`: decrement the `sp` field, store pc + 2 at that raw address and
      jump to the address in register `op1`; width 0. */
  function Call(s: State, op1: int): (x: Exec)
    requires WellFormed(s)
    ensures WellFormed(x.st)
    ensures x.width.Some? <==> Indexable(s.sp - 1, RamSize) && Indexable(op1, RegCount)
    ensures x.width.Some? ==> x.width == Some(0) && x.st.pc == s.reg[Slot(op1, RegCount)]
    ensures x.st.sp == s.sp - 1 && x.st.reg == s.reg && x.st.out == s.out
    ensures Indexable(s.sp - 1, RamSize) ==> x.st.ram == s.ram[Slot(s.sp - 1, RamSize) := s.pc + 2]
  {
    var s1 := s.(sp := s.sp - 1);
    if !Indexable(s1.sp, RamSize) then Exec(None, s1)
    else
      var s2 := s1.(ram := s1.ram[Slot(s1.sp, RamSize) := s.pc + 2]);
      if !Indexable(op1, RegCount) then Exec(None, s2)
      else Exec(Some(0), s2.(pc := s2.reg[Slot(op1, RegCount)]))
  }

  /** `ret`: jump to the address stored at the raw address in the `sp`
      field, which it leaves as it is; width 0. */
  function Ret(s: State): (x: Exec)
    requires WellFormed(s)
    ensures WellFormed(x.st)
    ensures x.width.Some? <==> Indexable(s.sp, RamSize)
    ensures x.width.Some? ==> x.width == Some(0) && x.st.pc == s.ram[Slot(s.sp, RamSize)]
    ensures x.st.(pc := s.pc) == s
  {
    if !Indexable(s.sp, RamSize) then Exec(None, s)
    else Exec(Some(0), s.(pc := s.ram[Slot(s.sp, RamSize)]))
  }

  /** The handler the table dispatches `op` to, given the two bytes fetched
      after the opcode. */
  function Execute(s: State, op: Op, op1: int, op2: int): (x: Exec)
    requires WellFormed(s)
    ensures WellFormed(x.st)
    ensures op != HLT ==> x.st.running == s.running
    ensures x.width.Some? ==> x.width == Some(if op == HLT || op == CALL || op == RET then 0
                                             else if op == PRN || op == PUSH || op == POP then 2
                                             else 3)
    ensures op != PRN ==> x.st.out == s.out
  {
    match op
    case HLT => Hlt(s)
    case LDI => Ldi(s, op1, op2)
    case PRN => Prn(s, op1)
    case MUL => AluHandler(s, "MUL", op1, op2)
    case ADD => AluHandler(s, "ADD", op1, op2)
    case CMP => AluHandler(s, "CMP", op1, op2)
    case PUSH => Push(s, op1)
    case POP => Pop(s, op1)
    case CALL => Call(s, op1)
    case RET => Ret(s)
  }

  // ---------------------------------------------------------------------
  // The execution loop

  /** How a cycle or a run ends: still running, halted by HLT, or stopped by
      a fatal error (a failed fetch, an unknown opcode or a handler that
      raised). */
  datatype Status = Continue | Halted | Fatal

  /** The opcode and the two bytes after it, read unconditionally at the
      start of every cycle; None when any of the three reads fails. */
  function Fetch(s: State): (f: Option<(int, int, int)>)
    requires WellFormed(s)
    ensures f.Some? <==> Indexable(s.pc, RamSize) && Indexable(s.pc + 2, RamSize)
    ensures f.Some? ==>
      f.value == (s.ram[Slot(s.pc, RamSize)], s.ram[Slot(s.pc + 1, RamSize)], s.ram[Slot(s.pc + 2, RamSize)])
  {
    var ir, op1, op2 := RamRead(s.ram, s.pc), RamRead(s.ram, s.pc + 1), RamRead(s.ram, s.pc + 2);
    if ir.None? || op1.None? || op2.None? then None
    else Some((ir.value, op1.value, op2.value))
  }

  /** The end of a cycle: a handler that raised stops the machine where it
      stands; otherwise pc advances by the width the handler returned. */
  function Complete(x: Exec): (r: (Status, State))
    ensures r.1.ram == x.st.ram && r.1.reg == x.st.reg
    ensures r.0 == Continue ==> r.1.running
    ensures r.0 == Halted ==> !r.1.running
  {
    match x.width
    case None => (Fatal, x.st)
    case Some(w) =>
      var t := x.st.(pc := x.st.pc + w);
      (if t.running then Continue else Halted, t)
  }

  /** One cycle of `run`: fetch the opcode and the two bytes after it, look
      the opcode up, call its handler and add the width it returns to pc. */
  function Step(s: State): (r: (Status, State))
    requires WellFormed(s)
    ensures WellFormed(r.1)
    ensures r.0 == Continue ==> r.1.running
    ensures r.0 == Halted ==> !r.1.running
  {
    match Fetch(s)
    case None => (Fatal, s)
    case Some((ir, op1, op2)) =>
      match Decode(ir)
      case None => (Fatal, s)
      case Some(op) => Complete(Execute(s, op, op1, op2))
  }

  /** `run` cut off after at most `fuel` cycles: while the machine is
      running and fuel is left, it runs one more cycle. Continue means the
      fuel ran out with the machine still running. */
  function Run(s: State, fuel: nat): (r: (Status, State))
    requires WellFormed(s)
    ensures WellFormed(r.1)
    ensures r.0 == Continue ==> r.1.running
    ensures r.0 == Halted ==> !r.1.running
    decreases fuel, 1
  {
    if !s.running then (Halted, s)
    else if fuel == 0 then (Continue, s)
    else Loop(s, fuel)
  }

  /** One pass of the loop body followed by the rest of the loop: a fatal
      cycle ends the run where it stands. */
  function Loop(s: State, fuel: nat): (r: (Status, State))
    requires WellFormed(s) && fuel > 0
    ensures WellFormed(r.1)
    ensures r.0 == Continue ==> r.1.running
    ensures r.0 == Halted ==> !r.1.running
    decreases fuel, 0
  {
    var r := Step(s);
    if r.0 == Fatal then r else Run(r.1, fuel - 1)
  }

  /** The run, one cycle at a time. */
  lemma RunUnfold(s: State, fuel: nat)
    requires WellFormed(s) && s.running && fuel > 0
    ensures var r := Step(s);
      Run(s, fuel) == if r.0 == Fatal then r else Run(r.1, fuel - 1)
  {
    assert Run(s, fuel) == Loop(s, fuel);
  }

  /** Once a run has halted or hit a fatal error, more fuel changes nothing:
      a bounded run that ends is the run of the unbounded loop. */
  lemma {:induction false} RunStable(s: State, f: nat, g: nat)
    requires WellFormed(s) && f <= g
    requires Run(s, f).0 != Continue
    ensures Run(s, g) == Run(s, f)
    decreases f
  {
    if s.running {
      RunUnfold(s, f);
      RunUnfold(s, g);
      var r := Step(s);
      if r.0 != Fatal {
        RunStable(r.1, f - 1, g - 1);
      }
    }
  }
}
