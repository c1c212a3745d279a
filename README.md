# LS-8 CPU in Dafny

A model of the LS-8 emulator's `CPU` class (`ls8/cpu.py`). The LS-8 is a
small byte-addressed virtual machine. It has:

- 256 RAM cells and 8 registers;
- a program counter and a separate `sp` field;
- a `running` flag and the E/G/L comparison flags;
- an opcode table that maps bytes to handler methods.

Each cycle of `run` reads the opcode and the two bytes after it. It calls the
handler the table names and adds the width the handler returns to `pc`.
`load` fills memory from a program file or from a built-in program.

The project has four modules:

- `Ls8Machine` (`ls8_machine.dfy`) is the machine as a value, `State`. It
  defines:
  - Python list indexing (`Indexable`, `Slot`);
  - the opcode table (`Opcode`, `Decode`);
  - one pure function per handler, which says what the handler leaves
    behind (the width it returns, or None when it raises) and the state it
    leaves either way;
  - one cycle (`Fetch`, `Complete`, `Step`) and a run bounded by fuel
    (`Run`, `Loop`).
- `Ls8Cpu` (`ls8_cpu.dfy`) is the object itself: class `Cpu` with
  `ram: array<int>` and `reg: array<int>` updated in place, and fields `pc`,
  `sp`, `running`, `E`, `G`, `L`. An `output` sequence collects what `prn`
  prints. Every handler, `Step`, `Run` and the deposit loops of `load` are
  methods. Each handler, `Step` and `Run` is proved to leave the object in
  the state its `Ls8Machine` function computes from the state before. The
  deposit loops are proved to leave in RAM the bytes that
  `Ls8Loader.ParseLine` and `Ls8Loader.ParseLines` read from the lines, or
  the bytes of `BuiltinProgram`.
- `Ls8Loader` (`ls8_loader.dfy`) is the per-line text processing of `load`:
  - cut at the first `#`, then `strip()`;
  - skip blank lines;
  - read the rest with `int(num, 2)`.

  It also has a printer for program listings, proved to be a right inverse
  of the parse.
- `Ls8Properties` (`ls8_properties.dfy`) has lemmas about the model:
  - the effect of each instruction;
  - push/pop and call/ret pairing;
  - the flag rules;
  - when the machine stops;
  - the built-in program.

The model follows the code as written, including its quirks:

- **No wrap-around.** Registers and cells hold unbounded integers: ADD, MUL
  and SUB do not wrap modulo 256.
- **CMP equal.** When the operands are equal, CMP sets only E, so a flag set
  by an earlier comparison stays set.
- **Stack addressing.** PUSH and POP address memory through the register
  named by the `sp` field. CALL and RET use the `sp` field itself as a raw
  RAM address. CALL decrements that field, so after a CALL, PUSH and POP
  use register 6. RET does not move `sp`.
- **Python indexing.** Every list index follows Python's rules: an index in
  `-n..-1` counts from the end, and any other out-of-range index raises. The
  first PUSH of a fresh machine decrements register 7 to -1 and writes
  `ram[255]`.
- **Bounds checks.** `ram_read` checks only the upper bound. `ram_write`
  checks nothing beyond Python's own indexing.
- **Fatal stops.** Any failure inside a handler ends the run through the
  bare `except`. The model returns `Fatal`. Changes the handler made before
  it failed stay in place, and `pc` is not advanced.
- **SUB is unreachable.** `alu` implements SUB, but no opcode reaches it.

The model follows the code in what it does not do:

- arithmetic does not wrap modulo 256;
- CALL and RET address RAM through the `sp` field itself, not through the
  register it names;
- the `sp` field starts at 7, the index of register 7, which holds 0; it is
  not an address near the top of memory;
- an equal CMP sets E but does not clear L or G.

## Model

| member | source | states |
|---|---|---|
| Ls8Machine.Slot | ls8/cpu.py:67-69 | a valid Python index designates a cell below the length; a negative index counts back from the end |
| Ls8Machine.Initial | ls8/cpu.py:11-28 | a new machine has zeroed RAM and registers, pc 0, `sp` 7, running, all flags clear and no output |
| Ls8Machine.RamRead | ls8/cpu.py:90-95 | a read succeeds exactly when the address is a valid Python index into the 256 cells, and then returns the cell that index designates |
| Ls8Machine.Decode | ls8/cpu.py:30-44 | a byte decodes to an instruction only when it is that instruction's opcode, and a byte that decodes to none is no handled instruction's opcode |
| Ls8Machine.Fetch | ls8/cpu.py:195-196 | the opcode and both lookahead bytes are read exactly when pc and pc + 2 are valid addresses, and they are the cells at pc, pc + 1 and pc + 2 |
| Ls8Machine.Complete | ls8/cpu.py:198-204 | ending a cycle never changes RAM or registers; Continue means still running and Halted means stopped |
| Ls8Machine.Step | ls8/cpu.py:194-204 | one cycle keeps the machine well formed; Continue only while running, Halted only once stopped |
| Ls8Machine.Hlt | ls8/cpu.py:46-48 | HLT stops the machine with width 0 and changes nothing else (one cycle of it: `Ls8Properties.HltStep`) |
| Ls8Machine.Ldi | ls8/cpu.py:50-52 | LDI succeeds exactly when op1 is a valid register index; it then sets that register to op2 with width 3 and changes nothing else; a raise changes nothing (`Ls8Properties.LdiStep`) |
| Ls8Machine.Prn | ls8/cpu.py:54-56 | PRN succeeds exactly when op1 is a valid register index; it then appends that register to the output with width 2 and changes nothing else (`Ls8Properties.PrnStep`) |
| Ls8Machine.Alu | ls8/cpu.py:140-170 | a successful ALU operation had valid register indices and touches neither RAM, pc, `sp`, `running` nor the output; ADD, MUL and SUB change only register a and no flag; CMP writes no register and sets E or exactly one of L and G (when it raises: `Ls8Properties.AluRaises`; the values: `AddStep`, `MulStep`, `AluSubtracts`, `CmpStep`) |
| Ls8Machine.AluHandler | ls8/cpu.py:58-60 | `mul` (and `add` and `comp` at lines 82-88, which have the same shape) succeed exactly when the ALU does, with width 3, and change nothing when it raises |
| Ls8Machine.Push | ls8/cpu.py:67-70 | PUSH succeeds exactly when `sp` names a register, op1 is a register and the decremented stack register is a valid address; the stack register is decremented even when a later index fails; on success RAM gets register op1, read after the decrement, at the address the stack register now holds, and RAM is unchanged otherwise; pc, `sp`, `running` and the output stay (one cycle: `Ls8Properties.PushStep`) |
| Ls8Machine.Pop | ls8/cpu.py:62-65 | POP succeeds exactly when `sp` names a register whose value is a valid address and op1 is a register; on success register op1 gets the addressed cell and then the stack register is incremented, nothing but registers changing; it changes nothing when it raises (one cycle: `Ls8Properties.PopStep`) |
| Ls8Machine.Call | ls8/cpu.py:72-76 | CALL always lowers the `sp` field and writes pc + 2 at that raw address when it is valid; it succeeds exactly when that address and op1 are valid, jumping to register op1 with width 0; registers and output stay (`Ls8Properties.CallRetPairs`) |
| Ls8Machine.Ret | ls8/cpu.py:78-80 | RET succeeds exactly when the `sp` field is a valid address, jumps to the cell there with width 0, and changes nothing but pc (`Ls8Properties.RetKeepsSp`) |
| Ls8Machine.Execute | ls8/cpu.py:30-44 | the table's dispatch: only HLT changes `running`, only PRN changes the output, and the width returned is 0 for HLT, CALL and RET, 2 for PRN, PUSH and POP, and 3 for the rest |
| Ls8Machine.Run | ls8/cpu.py:192-204 | a bounded run ends in a well-formed state; Continue only while running, Halted only once stopped |
| Ls8Machine.Loop | ls8/cpu.py:194-204 | one pass of the loop body then the rest of the run, with the same guarantees as `Run` |
| Ls8Machine.RunUnfold | ls8/cpu.py:194-204 | a running machine with fuel takes one step and stops if it was fatal; otherwise it goes on with one less fuel |
| Ls8Machine.RunStable | ls8/cpu.py:192-204 | once a bounded run halts or fails, more fuel gives the same result |
| Ls8Cpu.Cpu.constructor | ls8/cpu.py:11-28 | a new CPU is in the initial machine state |
| Ls8Cpu.Cpu.RamRead | ls8/cpu.py:90-95 | returns the cell at a Python index in -256..255 and fails for any other address |
| Ls8Cpu.Cpu.RamWrite | ls8/cpu.py:97-98 | writes the designated cell exactly when the address is a valid Python index; otherwise RAM is unchanged |
| Ls8Cpu.Cpu.Hlt | ls8/cpu.py:46-48 | clears `running` and returns width 0 |
| Ls8Cpu.Cpu.Ldi | ls8/cpu.py:50-52 | sets register op1 to op2 with width 3, or raises on an invalid register index |
| Ls8Cpu.Cpu.Prn | ls8/cpu.py:54-56 | appends register op1 to the output with width 2, or raises |
| Ls8Cpu.Cpu.Alu | ls8/cpu.py:140-170 | applies ADD, MUL, SUB or CMP exactly as the ALU function does; it fails, changing nothing, on an unknown operation or register |
| Ls8Cpu.Cpu.Mul | ls8/cpu.py:58-60 | the ALU's MUL, width 3 |
| Ls8Cpu.Cpu.Add | ls8/cpu.py:82-84 | the ALU's ADD, width 3 |
| Ls8Cpu.Cpu.Comp | ls8/cpu.py:86-88 | the ALU's CMP, width 3 |
| Ls8Cpu.Cpu.Push | ls8/cpu.py:67-70 | decrements the register `sp` names, then stores register op1 at the address it now holds; the decrement stays when a later index fails |
| Ls8Cpu.Cpu.Pop | ls8/cpu.py:62-65 | loads the cell the stack register addresses into register op1, then increments the stack register |
| Ls8Cpu.Cpu.Call | ls8/cpu.py:72-76 | decrements the `sp` field, stores pc + 2 at that raw address and jumps to register op1; earlier changes stay when a later index fails |
| Ls8Cpu.Cpu.Ret | ls8/cpu.py:78-80 | jumps to the address stored at the raw address `sp`, leaving `sp` as it is |
| Ls8Cpu.Cpu.CallHandler | ls8/cpu.py:199 | calls the handler the table names for the instruction |
| Ls8Cpu.Cpu.Dispatch | ls8/cpu.py:198-204 | an opcode not in the table, or a handler that raises, is fatal with pc where it was; otherwise pc advances by the width |
| Ls8Cpu.Cpu.Step | ls8/cpu.py:194-204 | one cycle of the loop leaves the object in the state `Ls8Machine.Step` computes |
| Ls8Cpu.Cpu.Run | ls8/cpu.py:192-204 | the loop leaves the object in the state `Ls8Machine.Run` computes |
| Ls8Cpu.Cpu.LoadLine | ls8/cpu.py:108-116 | a blank line stores nothing; a number is stored at the address, or raises past the end of RAM; a malformed line raises |
| Ls8Cpu.Cpu.LoadNext | ls8/cpu.py:108-116 | one pass of the loop over a file: either memory now holds the bytes read from the lines so far, or the load fails with the bytes read before the failing line in place |
| Ls8Cpu.Cpu.LoadLines | ls8/cpu.py:103-116 | succeeds exactly when every line parses and there are at most 256 bytes; RAM then starts with the bytes read, and the bytes stored before a failure stay |
| Ls8Cpu.LoadStopsEarly | ls8/cpu.py:106-118 | a malformed line, or a byte past address 255, makes the load fail; the bytes read before it are exactly the ones stored |
| Ls8Cpu.Cpu.LoadBuiltin | ls8/cpu.py:126-138 | RAM starts with the six bytes of the built-in program, and the rest is unchanged |
| Ls8Loader.BeforeHashIsFirstField | ls8/cpu.py:109 | `BeforeHash` keeps a prefix of the line that contains no '#' and is followed by '#' when shorter than the line |
| Ls8Loader.BeforeHashWithoutHash | ls8/cpu.py:109 | a line with no '#' is kept whole by `split("#")[0]` |
| Ls8Loader.TrimStartEnds | ls8/cpu.py:109 | left stripping never lengthens the text and leaves it empty or starting with a non-space |
| Ls8Loader.TrimEndEnds | ls8/cpu.py:109 | right stripping leaves a prefix of the text that is empty or ends with a non-space |
| Ls8Loader.StripTrimsBothEnds | ls8/cpu.py:109 | `Strip` never lengthens the text and leaves it empty or starting and ending with a non-space |
| Ls8Loader.TrimStartPadding | ls8/cpu.py:109 | left stripping removes exactly the run of whitespace in front of a text that is empty or starts with a non-space |
| Ls8Loader.TrimEndPadding | ls8/cpu.py:109 | right stripping removes exactly the run of whitespace after a text that is empty or ends with a non-space |
| Ls8Loader.TrimStartEmpty | ls8/cpu.py:109 | left stripping leaves nothing exactly when the text is all whitespace |
| Ls8Loader.TrimEndKeepsFirst | ls8/cpu.py:109 | right stripping never empties a text that starts with a non-space |
| Ls8Loader.StripEmpty | ls8/cpu.py:109 | `strip()` leaves nothing exactly when the text is all whitespace |
| Ls8Loader.CommentOnlyLineIsBlank | ls8/cpu.py:109-112 | a line of whitespace and a comment is skipped |
| Ls8Loader.BlankIffNoDigits | ls8/cpu.py:109-112 | a line is skipped if and only if everything before its first '#' is whitespace |
| Ls8Loader.WhitespaceLineIsBlank | ls8/cpu.py:108-112 | a line of whitespace only, such as the line break of an empty line, is skipped |
| Ls8Loader.BlankLineSkipped | ls8/cpu.py:111-112 | a blank line adds no byte, so it uses no address |
| Ls8Loader.ParseBinary | ls8/cpu.py:114 | reading base 2 succeeds exactly on a non-empty string of binary digits, with a non-negative result (its value: `BitsValueOfBits`; leading zeros as in "00001000": `LeadingZeros`) |
| Ls8Loader.ParseLine | ls8/cpu.py:109-114 | an empty line or one that starts with '#' is blank, and a number read is never negative (blank exactly when only whitespace precedes the first '#': `BlankIffNoDigits`; a zero-padded line of a program file: `FileLineParses`; a listing line: `ListingLineParses`) |
| Ls8Loader.ParseLinesReadsEachLine | ls8/cpu.py:106-116 | `ParseLines` reads at most one byte per line and succeeds exactly when no line is malformed |
| Ls8Loader.ParseNextLine | ls8/cpu.py:108-116 | after lines that read cleanly, the next line adds nothing if blank, appends its number, or makes the load fail |
| Ls8Loader.ParseStopsAtError | ls8/cpu.py:106-118 | after the first malformed line, the rest of the file changes nothing |
| Ls8Loader.ParsePrefix | ls8/cpu.py:108-116 | reading more lines only appends bytes, and a parse that succeeds succeeded on every prefix |
| Ls8Loader.BitsValueOfBits | ls8/cpu.py:114 | base-2 parsing of a number's binary digits gives back the number |
| Ls8Loader.LeadingZeros | ls8/cpu.py:114 | leading zeros do not change the number base 2 reads |
| Ls8Loader.DigitsLineParses | ls8/cpu.py:109-114 | a line of binary digits ending in a line break reads as the digits' value |
| Ls8Loader.FileLineParses | ls8/cpu.py:108-114 | a byte written as zero-padded binary digits on its own line, as in "00001000", reads as that byte |
| Ls8Loader.ListingLineParses | ls8/cpu.py:109-114 | a padded binary number with a trailing comment reads as that number |
| Ls8Loader.ListingRoundTrip | ls8/cpu.py:108-116 | loading a listing of bytes, one per line with comments, gives back exactly those bytes |
| Ls8Properties.DecodeOpcode | ls8/cpu.py:30-40 | every handled instruction's opcode selects that instruction |
| Ls8Properties.StepRuns | ls8/cpu.py:195-200 | a cycle that fetches an instruction's opcode runs that instruction's handler on the two bytes after it |
| Ls8Properties.JumpsUnimplemented | ls8/cpu.py:41-43 | fetching JEQ, JNE or JMP is fatal and changes nothing |
| Ls8Properties.LdiStep | ls8/cpu.py:50-52 | LDI sets one register and advances pc by 3, with everything else unchanged; an invalid register is fatal |
| Ls8Properties.PrnStep | ls8/cpu.py:54-56 | PRN appends the register to the output and advances pc by 2 |
| Ls8Properties.AddStep | ls8/cpu.py:82-84 | ADD replaces register a with the unbounded sum, keeps the other registers and advances pc by 3 |
| Ls8Properties.AluSubtracts | ls8/cpu.py:148-149 | SUB replaces register a with the unbounded difference and changes nothing else |
| Ls8Properties.MulStep | ls8/cpu.py:58-60 | MUL replaces register a with the unbounded product, keeps the other registers and advances pc by 3 |
| Ls8Properties.CmpStep | ls8/cpu.py:150-168 | CMP writes no register. Less sets only L, greater sets only G, equal sets E and keeps L and G |
| Ls8Properties.HltStep | ls8/cpu.py:46-48 | HLT clears `running`, keeps pc, and ends the run as Halted |
| Ls8Properties.PushStep | ls8/cpu.py:67-70 | one PUSH cycle decrements the stack register, stores register r at the address it now holds and advances pc by 2; a bad `sp` is fatal and changes nothing, while a bad op1 or stack address is fatal and keeps the decrement |
| Ls8Properties.PopStep | ls8/cpu.py:62-65 | one POP cycle loads the addressed cell into register r, then increments the stack register, and advances pc by 2; a bad index is fatal and changes nothing |
| Ls8Properties.PushPopMoves | ls8/cpu.py:62-70 | PUSH a then POP b copies register a into b and restores the stack register; the pushed value stays in memory |
| Ls8Properties.PushPopRestores | ls8/cpu.py:62-70 | PUSH r then POP r leaves every register as it was, for every r |
| Ls8Properties.PushPopSteps | ls8/cpu.py:62-70 | the pair as two cycles advances pc by 2 each and changes nothing but RAM and pc |
| Ls8Properties.CallRetPairs | ls8/cpu.py:72-80 | CALL stores pc + 2 at `sp - 1` and jumps; a RET at the target returns to pc + 2 |
| Ls8Properties.RetKeepsSp | ls8/cpu.py:78-80 | RET does not move `sp`, so a second RET returns to the same place |
| Ls8Properties.CallShiftsStackRegister | ls8/cpu.py:62-76 | after a CALL, PUSH decrements register 6 and leaves register 7 alone |
| Ls8Properties.FirstPushWritesTopCell | ls8/cpu.py:67-70 | on any machine whose `sp` is 7 and whose register 7 is 0, as on a fresh one, PUSH of register r < 7 succeeds with width 2, sets register 7 to -1 and stores register r in RAM cell 255, changing nothing else |
| Ls8Properties.NoByteWrap | ls8/cpu.py:143-149 | 250 + 10 is 260, 250 * 10 is 2500, and 10 - 250 is -240: nothing wraps |
| Ls8Properties.CmpEqualKeepsStaleFlags | ls8/cpu.py:150-168 | after "less" then "equal", L and E are both set |
| Ls8Properties.AluRaises | ls8/cpu.py:140-170 | the ALU raises exactly when the operation is not ADD, MUL, SUB or CMP, or a register index is invalid |
| Ls8Properties.FetchOutOfRange | ls8/cpu.py:195-196 | a cycle with pc + 2 at 256 or more, or pc below -256, is fatal and changes nothing |
| Ls8Properties.UnknownOpcodeFatal | ls8/cpu.py:198-204 | a byte that is not in the table is fatal and changes nothing |
| Ls8Properties.FatalKeepsPc | ls8/cpu.py:198-204 | a fatal cycle never advances pc and never clears `running` |
| Ls8Properties.HaltedOnlyByHlt | ls8/cpu.py:194-200 | a cycle that halts is an HLT and only clears `running` |
| Ls8Properties.BuiltinProgramPrints8 | ls8/cpu.py:126-138 | the built-in program prints 8 and halts on its HLT, with 3 or more cycles of fuel |
| Ls8Properties.RunBuiltinProgram | ls8/cpu.py:126-138 | a new CPU that loads the built-in program and runs halts having printed exactly 8 |

## Left out

- Command-line arguments, opening the file, `FileNotFoundError` and closing
  the file in `load`: these are I/O. `LoadLines` takes the file's lines as a
  sequence.
- `print` in `prn`: the value is appended to `output` instead.
- The messages printed before a fatal stop, and `sys.exit` itself: both
  become the `Fatal` status. In the model, `running` stays as it was.
- `trace`: it only formats debugging output.
- `jeq`, `jne` and `jmp`: the table names them, but the class defines no such
  methods. Their opcodes are modelled as having no handler, so fetching one
  is fatal. (As written, building the table would fail on the missing
  attributes.)
- Ls8Loader.ParseBinary: accepts only non-empty strings of `0` and `1`.
  Python's `int(num, 2)` also accepts a `0b` prefix, underscores, a sign and
  non-ASCII digits.
- The flags are booleans rather than the integers 0 and 1.
- Ls8Cpu.Cpu.Run: the source loops for as long as the machine runs. The
  model runs at most `fuel` cycles and returns Continue when the fuel runs
  out first. `Ls8Machine.RunStable` shows that more fuel changes nothing
  once a run has stopped.
