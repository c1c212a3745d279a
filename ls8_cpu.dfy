/** The CPU object: RAM and registers are arrays that the handlers update in
    place. Each handler, `Step` and `Run` is proved to leave the object in
    the state the matching function of Ls8Machine computes from the state
    before it; `RamRead` and `RamWrite` follow Python's list indexing, and
    the deposit loops of `load` leave in RAM the bytes Ls8Loader reads from
    the lines, or those of `BuiltinProgram`. */
module Ls8Cpu {
  import opened Ls8Machine
  import Ls8Loader

  /** The program the CPU loads when no file is given: LDI R0,8; PRN R0; HLT. */
  const BuiltinProgram: seq<int> := [0x82, 0x00, 0x08, 0x47, 0x00, 0x01]

  /** Loading stops at line `i` when that line is malformed or holds a
      257th byte: the load fails, and the bytes read before it are the ones
      stored. */
  lemma LoadStopsEarly(lines: seq<string>, i: nat, values: seq<int>)
    requires i < |lines| && Ls8Loader.ParseLines(lines[..i]) == Ls8Loader.Parsed(values, true)
    requires |values| <= RamSize
    requires Ls8Loader.ParseLine(lines[i]).Malformed? ||
             (Ls8Loader.ParseLine(lines[i]).Value? && |values| == RamSize)
    ensures var p := Ls8Loader.ParseLines(lines);
      var n := if |p.values| < RamSize then |p.values| else RamSize;
      && !(p.ok && |p.values| <= RamSize)
      && p.values[..n] == values
  {
    Ls8Loader.ParseNextLine(lines, i, values);
    var p := Ls8Loader.ParseLines(lines);
    match Ls8Loader.ParseLine(lines[i]) {
      case Malformed =>
        assert Ls8Loader.ParseLines(lines[..i + 1]) == Ls8Loader.Parsed(values, false);
        Ls8Loader.ParseStopsAtError(lines, i + 1);
        assert p == Ls8Loader.Parsed(values, false);
        assert values[..|values|] == values;
      case Value(v) =>
        var q := values + [v];
        assert Ls8Loader.ParseLines(lines[..i + 1]).values == q;
        Ls8Loader.ParsePrefix(lines, i + 1);
        assert q <= p.values;
        assert p.values[..RamSize] == q[..RamSize] == values;
    }
  }

  /** Storing the next byte over memory that holds `values` followed by the
      rest of `base`. */
  lemma Deposited(values: seq<int>, base: seq<int>, v: int)
    requires |values| < |base|
    ensures (values + base[|values|..])[|values| := v] == (values + [v]) + base[|values| + 1..]
  {
  }

  class Cpu {
    var ram: array<int>
    var reg: array<int>
    var pc: int
    var sp: int
    var running: bool
    var E: bool
    var G: bool
    var L: bool
    /** Everything `prn` has printed, in order. */
    var output: seq<int>

    ghost predicate Valid()
      reads this
    {
      ram.Length == RamSize && reg.Length == RegCount && ram != reg
    }

    /** The machine state this object represents. */
    ghost function Snapshot(): (s: State)
      reads this, ram, reg
      requires Valid()
      ensures WellFormed(s)
    {
      State(ram[..], reg[..], pc, sp, running, E, G, L, output)
    }

    constructor ()
      ensures Valid() && fresh(ram) && fresh(reg)
      ensures Snapshot() == Initial()
    {
      ram := new int[RamSize](_ => 0);
      reg := new int[RegCount](_ => 0);
      pc, sp, running := 0, InitialSp, true;
      E, G, L := false, false, false;
      output := [];
    }

    /** `ram_read`: the cell at a Python index in -256..255, or None for the
        fatal cases (256 and above stops the process, below -256 raises). */
    method RamRead(address: int) returns (r: Option<int>)
      requires Valid()
      ensures r.Some? <==> -(RamSize as int) <= address < RamSize
      ensures r.Some? ==> r.value == ram[if address < 0 then address + RamSize else address]
    {
      if address < ram.Length {
        if -ram.Length <= address {
          r := Some(ram[Slot(address, ram.Length)]);
        } else {
          r := None;
        }
      } else {
        r := None;
      }
    }

    /** `ram_write`: no check of its own; a Python index outside -256..255
        raises, and then nothing is written. */
    method RamWrite(value: int, address: int) returns (ok: bool)
      requires Valid()
      modifies ram
      ensures ok <==> Indexable(address, RamSize)
      ensures ok ==> ram[..] == old(ram[..])[Slot(address, RamSize) := value]
      ensures !ok ==> ram[..] == old(ram[..])
    {
      ok := Indexable(address, ram.Length);
      if ok {
        ram[Slot(address, ram.Length)] := value;
      }
    }

    method Hlt(op1: int, op2: int) returns (width: Option<int>)
      requires Valid()
      modifies this`running
      ensures Valid()
      ensures Exec(width, Snapshot()) == Ls8Machine.Hlt(old(Snapshot()))
    {
      running := false;
      width := Some(0);
    }

    method Ldi(op1: int, op2: int) returns (width: Option<int>)
      requires Valid()
      modifies reg
      ensures Valid()
      ensures Exec(width, Snapshot()) == Ls8Machine.Ldi(old(Snapshot()), op1, op2)
    {
      if !Indexable(op1, reg.Length) {
        return None;
      }
      reg[Slot(op1, reg.Length)] := op2;
      width := Some(3);
    }

    method Prn(op1: int, op2: int) returns (width: Option<int>)
      requires Valid()
      modifies this`output
      ensures Valid()
      ensures Exec(width, Snapshot()) == Ls8Machine.Prn(old(Snapshot()), op1)
    {
      if !Indexable(op1, reg.Length) {
        return None;
      }
      output := output + [reg[Slot(op1, reg.Length)]];
      width := Some(2);
    }

    /** `alu`: false when it raises (unknown operation or register index),
        in which case nothing has changed. */
    method Alu(op: string, a: int, b: int) returns (ok: bool)
      requires Valid()
      modifies reg, this`E, this`G, this`L
      ensures Valid()
      ensures ok <==> Ls8Machine.Alu(old(Snapshot()), op, a, b).Some?
      ensures ok ==> Snapshot() == Ls8Machine.Alu(old(Snapshot()), op, a, b).value
      ensures !ok ==> Snapshot() == old(Snapshot())
    {
      var valid := Indexable(a, reg.Length) && Indexable(b, reg.Length);
      if op == "ADD" {
        if !valid { return false; }
        var i := Slot(a, reg.Length);
        reg[i] := reg[i] + reg[Slot(b, reg.Length)];
      } else if op == "MUL" {
        if !valid { return false; }
        var i := Slot(a, reg.Length);
        reg[i] := reg[i] * reg[Slot(b, reg.Length)];
      } else if op == "SUB" {
        if !valid { return false; }
        var i := Slot(a, reg.Length);
        reg[i] := reg[i] - reg[Slot(b, reg.Length)];
      } else if op == "CMP" {
        if !valid { return false; }
        var x, y := reg[Slot(a, reg.Length)], reg[Slot(b, reg.Length)];
        if x < y {
          L, G, E := true, false, false;
        } else if x > y {
          G, L, E := true, false, false;
        } else {
          E := true;
        }
      } else {
        return false;
      }
      ok := true;
    }

    method Mul(op1: int, op2: int) returns (width: Option<int>)
      requires Valid()
      modifies reg, this`E, this`G, this`L
      ensures Valid()
      ensures Exec(width, Snapshot()) == AluHandler(old(Snapshot()), "MUL", op1, op2)
    {
      var ok := Alu("MUL", op1, op2);
      width := if ok then Some(3) else None;
    }

    method Add(op1: int, op2: int) returns (width: Option<int>)
      requires Valid()
      modifies reg, this`E, this`G, this`L
      ensures Valid()
      ensures Exec(width, Snapshot()) == AluHandler(old(Snapshot()), "ADD", op1, op2)
    {
      var ok := Alu("ADD", op1, op2);
      width := if ok then Some(3) else None;
    }

    method Comp(op1: int, op2: int) returns (width: Option<int>)
      requires Valid()
      modifies reg, this`E, this`G, this`L
      ensures Valid()
      ensures Exec(width, Snapshot()) == AluHandler(old(Snapshot()), "CMP", op1, op2)
    {
      var ok := Alu("CMP", op1, op2);
      width := if ok then Some(3) else None;
    }

    method Push(op1: int, op2: int) returns (width: Option<int>)
      requires Valid()
      modifies reg, ram
      ensures Valid()
      ensures Exec(width, Snapshot()) == Ls8Machine.Push(old(Snapshot()), op1)
    {
      if !Indexable(sp, reg.Length) {
        return None;
      }
      var k := Slot(sp, reg.Length);
      reg[k] := reg[k] - 1;
      if !Indexable(op1, reg.Length) {
        return None;
      }
      var ok := RamWrite(reg[Slot(op1, reg.Length)], reg[k]);
      width := if ok then Some(2) else None;
    }

    method Pop(op1: int, op2: int) returns (width: Option<int>)
      requires Valid()
      modifies reg
      ensures Valid()
      ensures Exec(width, Snapshot()) == Ls8Machine.Pop(old(Snapshot()), op1)
    {
      if !Indexable(sp, reg.Length) {
        return None;
      }
      var k := Slot(sp, reg.Length);
      var value := RamRead(reg[k]);
      if value.None? || !Indexable(op1, reg.Length) {
        return None;
      }
      reg[Slot(op1, reg.Length)] := value.value;
      reg[k] := reg[k] + 1;
      width := Some(2);
    }

    method Call(op1: int, op2: int) returns (width: Option<int>)
      requires Valid()
      modifies this`sp, this`pc, ram
      ensures Valid()
      ensures Exec(width, Snapshot()) == Ls8Machine.Call(old(Snapshot()), op1)
    {
      sp := sp - 1;
      if !Indexable(sp, ram.Length) {
        return None;
      }
      ram[Slot(sp, ram.Length)] := pc + 2;
      if !Indexable(op1, reg.Length) {
        return None;
      }
      pc := reg[Slot(op1, reg.Length)];
      width := Some(0);
    }

    method Ret(op1: int, op2: int) returns (width: Option<int>)
      requires Valid()
      modifies this`pc
      ensures Valid()
      ensures Exec(width, Snapshot()) == Ls8Machine.Ret(old(Snapshot()))
    {
      if !Indexable(sp, ram.Length) {
        return None;
      }
      pc := ram[Slot(sp, ram.Length)];
      width := Some(0);
    }

    /** The call through the handler table. */
    method CallHandler(op: Op, a: int, b: int) returns (width: Option<int>)
      requires Valid()
      modifies this`pc, this`sp, this`running, this`E, this`G, this`L, this`output, ram, reg
      ensures Valid()
      ensures Exec(width, Snapshot()) == Execute(old(Snapshot()), op, a, b)
    {
      match op {
        case HLT => width := Hlt(a, b);
        case LDI => width := Ldi(a, b);
        case PRN => width := Prn(a, b);
        case MUL => width := Mul(a, b);
        case ADD => width := Add(a, b);
        case CMP => width := Comp(a, b);
        case PUSH => width := Push(a, b);
        case POP => width := Pop(a, b);
        case CALL => width := Call(a, b);
        case RET => width := Ret(a, b);
      }
    }

    /** The body of `run`'s `try`: look the opcode up, call its handler
        and advance pc by the width it returns. */
    method Dispatch(ir: int, a: int, b: int) returns (status: Status)
      requires Valid()
      modifies this`pc, this`sp, this`running, this`E, this`G, this`L, this`output, ram, reg
      ensures Valid()
      ensures (status, Snapshot()) ==
        match Decode(ir)
        case None => (Fatal, old(Snapshot()))
        case Some(op) => Complete(Ls8Machine.Execute(old(Snapshot()), op, a, b))
    {
      var op := Decode(ir);
      if op.None? {
        return Fatal;
      }
      var width := CallHandler(op.value, a, b);
      if width.None? {
        return Fatal;
      }
      pc := pc + width.value;
      status := if running then Continue else Halted;
    }

    /** One iteration of `run`'s loop. */
    method Step() returns (status: Status)
      requires Valid()
      modifies this`pc, this`sp, this`running, this`E, this`G, this`L, this`output, ram, reg
      ensures Valid()
      ensures (status, Snapshot()) == Ls8Machine.Step(old(Snapshot()))
    {
      ghost var s := Snapshot();
      var ir := RamRead(pc);
      var op1 := RamRead(pc + 1);
      var op2 := RamRead(pc + 2);
      if ir.None? || op1.None? || op2.None? {
        assert Fetch(s).None?;
        return Fatal;
      }
      assert Fetch(s) == Some((ir.value, op1.value, op2.value));
      status := Dispatch(ir.value, op1.value, op2.value);
    }

    /** `run`, cut off after `fuel` cycles: Continue means the machine was
        still running when the fuel ran out. */
    method Run(fuel: nat) returns (status: Status)
      requires Valid()
      modifies this`pc, this`sp, this`running, this`E, this`G, this`L, this`output, ram, reg
      ensures Valid()
      ensures (status, Snapshot()) == Ls8Machine.Run(old(Snapshot()), fuel)
    {
      var left: nat := fuel;
      while running && left > 0
        invariant Valid()
        invariant left <= fuel
        invariant Ls8Machine.Run(Snapshot(), left) == Ls8Machine.Run(old(Snapshot()), fuel)
        decreases left
      {
        RunUnfold(Snapshot(), left);
        status := Step();
        if status == Fatal {
          return;
        }
        left := left - 1;
      }
      status := if running then Continue else Halted;
    }

    /** One pass of `load`'s loop: a blank line stores nothing; a number
        goes to `address` (raising when that is past the end of RAM); a
        malformed line raises. The next address, or None when it raised. */
    method LoadLine(line: string, address: nat) returns (next: Option<nat>)
      requires Valid() && address <= RamSize
      modifies ram
      ensures Valid()
      ensures match Ls8Loader.ParseLine(line)
        case Blank => next == Some(address) && ram[..] == old(ram[..])
        case Malformed => next == None && ram[..] == old(ram[..])
        case Value(v) =>
          if address < RamSize then next == Some(address + 1) && ram[..] == old(ram[..])[address := v]
          else next == None && ram[..] == old(ram[..])
    {
      match Ls8Loader.ParseLine(line) {
        case Blank =>
          next := Some(address);
        case Malformed =>
          next := None;
        case Value(v) =>
          if address < ram.Length {
            ram[address] := v;
            next := Some(address + 1);
          } else {
            next := None;
          }
      }
    }

    /** `LoadLine` on line `i` of a file whose earlier lines read as `values`,
        stored over the memory image `base`: either the file so far reads
        as the bytes now in memory, or the load fails here. */
    method LoadNext(lines: seq<string>, i: nat, address: nat,
                    ghost values: seq<int>, ghost base: seq<int>)
      returns (next: Option<nat>, ghost read: seq<int>)
      requires Valid() && i < |lines| && |base| == RamSize
      requires Ls8Loader.ParseLines(lines[..i]) == Ls8Loader.Parsed(values, true)
      requires address == |values| <= RamSize
      requires ram[..] == values + base[address..]
      modifies ram
      ensures Valid()
      ensures next.Some? ==>
        && Ls8Loader.ParseLines(lines[..i + 1]) == Ls8Loader.Parsed(read, true)
        && next.value == |read| <= RamSize
        && ram[..] == read + base[next.value..]
      ensures next.None? ==>
        var p := Ls8Loader.ParseLines(lines);
        var n := if |p.values| < RamSize then |p.values| else RamSize;
        && !(p.ok && |p.values| <= RamSize)
        && ram[..] == p.values[..n] + base[n..]
    {
      Ls8Loader.ParseNextLine(lines, i, values);
      next := LoadLine(lines[i], address);
      read := values;
      if next.None? {
        LoadStopsEarly(lines, i, values);
      } else if next.value != address {
        read := values + [Ls8Loader.ParseLine(lines[i]).v];
        Deposited(values, base, read[address]);
      }
    }

    /** The deposit loop of `load` over the lines of a program file: each
        byte read goes to the next address from 0. It fails (false) on the
        first malformed line or on a 257th byte, keeping the bytes already
        stored. */
    method LoadLines(lines: seq<string>) returns (ok: bool)
      requires Valid()
      modifies ram
      ensures Valid()
      ensures var p := Ls8Loader.ParseLines(lines);
        var n := if |p.values| < RamSize then |p.values| else RamSize;
        && (ok <==> p.ok && |p.values| <= RamSize)
        && ram[..] == p.values[..n] + old(ram[..])[n..]
    {
      var address: nat := 0;
      var i := 0;
      ghost var values: seq<int> := [];
      while i < |lines|
        invariant 0 <= i <= |lines|
        invariant Ls8Loader.ParseLines(lines[..i]) == Ls8Loader.Parsed(values, true)
        invariant address == |values| <= RamSize
        invariant ram[..] == values + old(ram[..])[address..]
      {
        var next;
        next, values := LoadNext(lines, i, address, values, old(ram[..]));
        if next.None? {
          return false;
        }
        address := next.value;
        i := i + 1;
      }
      assert lines[..i] == lines;
      ok := true;
    }

    /** The deposit loop of `load` when no file is given. */
    method LoadBuiltin()
      requires Valid()
      modifies ram
      ensures Valid()
      ensures ram[..] == BuiltinProgram + old(ram[..])[|BuiltinProgram|..]
    {
      var address := 0;
      for i := 0 to |BuiltinProgram|
        invariant address == i
        invariant forall j :: 0 <= j < i ==> ram[j] == BuiltinProgram[j]
        invariant forall j :: i <= j < ram.Length ==> ram[j] == old(ram[j])
      {
        ram[address] := BuiltinProgram[i];
        address := address + 1;
      }
      assert ram[..] == BuiltinProgram + old(ram[..])[|BuiltinProgram|..];
    }
  }
}
