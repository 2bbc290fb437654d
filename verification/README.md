# emfe machine models, verified

emfe is a set of emulator plugins: a Z80, a Z8000, an MC6809 board with an MC6850 console chip,
and a small 8-bit machine called EM8, each with a debugger and its devices. This project models
the parts of them that carry the hardest promises and proves those promises for all inputs, all
states and all runs.

| files | what they model |
|---|---|
| `Bytes`, `Bits`, `Bitwise`, `Wrappers` | 8- and 16-bit unsigned arithmetic, casts, bit operations told bit by bit, the 64 KiB memory type, optional values |
| `Z80State`, `Z80Alu`, `Z80Exec`, `Z80Index`, `Z80Ed`, `Z80Step` | the Z80: every opcode of the plain, CB, DD/FD, DD CB and ED tables, interrupts, breakpoints |
| `Z80Flags`, `Z80Manual`, `Z80Table`, `Z80IndexTable` | the Z80's opcode map told a second time, from scratch by opcode byte in plain arithmetic, and that the engine does what it says |
| `Z80Branches`, `Z80Nmi` | what conditional branches decide after an operation on A; an NMI, its handler and RETN |
| `Z80Machine`, `Z80AluMachine` | the same engine as it runs: classes `Z80Memory` and `Z80Cpu` updating fields and an array, ALU helpers putting the flag byte together bit by bit, proved equal to those functions |
| `Z80Prefix`, `Z80PrefixExact`, `Z80Block`, `Z80Resume`, `Z80Bcd`, `Z80AluLaws`, `Z80Parity`, `Z80Frame`, `Z80Interrupt` | what the engine promises: prefixes, block instructions and their interruption, carry chains and DAA, laws between the ALU helpers, parity, write frames, the EI delay |
| `Z80Disasm`, `Z80Reader`, `Z80Decode`, `Z80Flow` | the disassembler's lengths and targets, and its agreement with the engine |
| `Z80Disk`, `Z80DiskMachine` | the sector device and its refinement to a sector map |
| `Z80Ports`, `Z80DiskPort` | which port an instruction accesses, and the board: any program driving the sector device by IN and OUT |
| `CondGrammar`, `CondMeaning`, `CondRoundTrip`, `CondLexical`, `CondParser` | the breakpoint-condition evaluator of the EM8 and Z8000 debuggers, what conditions mean without it, and how it reads names and numbers on any text |
| `Srec`, `SrecRoundTrip`, `SrecLoad`, `SrecBounds`, `SrecRange`, `SrecCase` | S-record files: one writer, two readers, when one of them reads behind a line, where a file without an entry starts, and that digits may be in either case |
| `Settings`, `SettingsRoundTrip`, `SettingsJson` | the MC6809 plugin's settings file, and its strings against RFC 8259 |
| `Acia`, `AciaMachine` | the MC6850 and the host-to-guest byte stream |
| `Em8State`, `Em8Exec`, `Em8Flags`, `Em8Stack`, `Em8StepOut`, `Em8Machine` | the EM8 CPU, its stack and shadow stack, the emulation loop and step-out |
| `Em8Manual`, `Em8Branches` | the EM8's opcode map told a second time, from scratch by opcode byte, and what its branches decide |
| `Em8Timer` | the timer |
| `Z8000Compare` | Z8000 compare flags and condition codes |

Where the source updates objects in place, the model has a class whose methods are proved to
take its state, read as a value, to what a function says; the theorems are about those functions.

How the models treat the outside world:

- What a device behind a Z80 port does at each access, the byte it answers and the bytes it stores in
  RAM, is an arbitrary input, and every access is logged; so the theorems hold for every device, and
  `Z80DiskPort` puts the board's own devices there. A device in the EM8 I/O window answers with
  arbitrary bytes likewise.
- Interrupt lines, a failing `try_lock`, stop requests, breakpoints and watchpoint hits are
  arbitrary inputs of each step.
- `fetched` in `Z80State.Cpu` counts fetched bytes for the length theorem and exists in the model only.
- `ULONG_MAX` of the C library is a parameter, at least 2^32 - 1.

What the proofs found in the code:

- DD E3 and FD E3 (EX (SP),IX) are missing from the DD/FD dispatcher (z80/src/Z80Cpu.cpp:1063-1352);
  they run as a 4 T-state NOP and then as EX (SP),HL (`Z80PrefixExact.ExStackKeepsIndex`). Likewise every
  suffix in `Z80Disasm.Unprefixable`. `Z80PrefixExact.SubstitutionExact` says for which suffixes the
  substitution holds, and for which it does not.
- DD CB raises R three times (z80/src/Z80Cpu.cpp:534, 1055, 1197), though the comment at 1191 says twice.
- The disassembler prints DB for F9, LD SP,HL, which the engine executes; there only the text differs.
  At a DD or FD prefix without effect it reports 2 bytes, while the engine fetches both but leaves PC
  only 1 further on (`Z80Flow.IgnoredPrefix`). There is no other disagreement in length.
- A settings value that equals a later key, or whose part after its last quote does, makes that key
  read its neighbour's value. `SettingsRoundTrip.ShadowedExample` is such a file; `SettingsRoundTrip.SaveLoad`
  gives the exact condition. `\u` escapes are written but not read.
- emfe_reset empties the MC6850 FIFO but not the host's staging queue: staged bytes survive a reset.
- A step-out can stop at a handler: if, and only if, an interrupt is accepted in the same turn as the
  matching RTS, PC is already there, with the return address saved in its frame
  (`Em8StepOut.StepOutStops`; `Em8StepOut.StepOutMeetsInterrupt` is such a run).
- The EM8 S-record loader walks a line by the record's own length byte and reads behind the line if that
  promises too much (em8/src/plugin_em8.cpp:1176-1199); `SrecBounds.ShortRecord` is such a line, and
  `SrecBounds.DecidesExactly` says for which lines the result depends on what lies there.
- An EM8 S-record file without an entry whose last data ends at FFFF leaves PC where it was, unless something
  is loaded at 0: the end address wraps to 0 (em8/src/plugin_em8.cpp:1196, 1207-1210). `SrecRange.DataOnly`
  gives the exact condition.
- em8/docs/em8_reference.md lists 6502 encodings and cycle counts (RTI is 40 and takes 6, HLT is 02); the code
  has a table of its own (RTI is 63 and takes 7), which the model follows.
- Z8000 conditions accept R05 for R5, since a leading zero is not refused.
- The headers of the Z80 plugin say ExecuteOne observes watchpoints; the code leaves that to the plugin loop.

## Model

| member | source | states |
|---|---|---|
| Z80Machine.Z80Cpu.ExecuteOne | z80/src/Z80Cpu.cpp:483-1036 | one call takes the whole machine state and return value to Z80Step.Step of the old state: breakpoint, NMI, INT, EI delay, HALT, then one instruction |
| Z80Machine.Z80Cpu.ExecuteWithIndex | z80/src/Z80Cpu.cpp:1053-1365 | the DD/FD dispatcher is Z80Index.Indexed on the fetched suffix |
| Z80Machine.Z80Cpu.ExecuteEdPrefix | z80/src/Z80Cpu.cpp:1420-1706 | the ED dispatcher is Z80Ed.Ed on the fetched suffix |
| Z80Machine.Z80Cpu.ExecutePlain | z80/src/Z80Cpu.cpp:547-1036 | every unprefixed opcode does what its row function says |
| Z80Machine.Z80Cpu.BitInstruction | z80/src/Z80Cpu.cpp:909-958 | CB rotates, BIT, RES, SET on registers and (HL) |
| Z80Machine.Z80Cpu.TakeNmi | z80/src/Z80Cpu.cpp:1710-1721 | NMI entry: push PC, IFF2 := IFF1, PC := 66h, 11 T-states |
| Z80Machine.Z80Cpu.TakeIrq | z80/src/Z80Cpu.cpp:1723-1758 | INT entry in all three modes |
| Z80Machine.Z80Cpu.Push16 | z80/src/Z80Cpu.cpp:169-172 | SP wraps, the word is stored little-endian |
| Z80Machine.Z80Cpu.Pop16 | z80/src/Z80Cpu.cpp:174-178 | the word at SP, SP up by two |
| Z80Machine.Z80Cpu.Reg8Write | z80/src/Z80Cpu.cpp:72-90 | the register code writes one half of a pair or (HL), and nothing else |
| Z80Machine.Z80Memory.WriteWord16 | z80/src/Z80Memory.cpp:49-52 | two bytes, the second address wrapping past FFFF |
| Z80Machine.Z80Memory.ReadWord16 | z80/src/Z80Memory.cpp:42-47 | the same two bytes read back as a word |
| Z80Machine.Z80Memory.WriteIo | z80/src/Z80Memory.cpp:67-77 | the device behind the port, whichever it is, does what it does, its stores to RAM included, and the access is logged; the port map itself is in Z80DiskPort.TurnIsStep |
| Z80Prefix.PrefixSubstitution | z80/src/Z80Cpu.cpp:1063-1352 | for every opcode of the substitution set and every state, the prefixed instruction equals exchanging HL with the index register, executing the unprefixed one at PC+1, and exchanging back: 4 more T-states, one more R increment |
| Z80PrefixExact.SubstitutionExact | z80/src/Z80Cpu.cpp:1053-1365 | for every suffix but the prefixes themselves that equality holds if and only if the suffix is in the substitution set |
| Z80PrefixExact.ExStackKeepsIndex | z80/src/Z80Cpu.cpp:1354-1364 | DD E3 and FD E3 are a NOP of 4 T-states followed by EX (SP),HL; the index register stays |
| Z80Prefix.IndexedSwaps | z80/src/Z80Cpu.cpp:1063-1352 | the two dispatchers agree row by row under the exchange |
| Z80Prefix.IndexedMemory | z80/src/Z80Cpu.cpp:1104-1188 | one ExecuteOne on an (IX+d) form leaves what its (HL) form does with HL at IX + d, or IX + d - 256 for d of 80h and above, modulo 2^16, where d is the byte at PC + 2; HL restored; 12 more T-states, 9 for LD (IX+d),n |
| Z80Prefix.IndexedHalves | z80/src/Z80Cpu.cpp:1118-1138 | LD H,(IX+d), LD L,(IX+d), LD (IX+d),H and LD (IX+d),L move the real H and L, at that address, and leave IX alone: the whole new state |
| Z80Prefix.IndexedBits | z80/src/Z80Cpu.cpp:1190-1238 | one ExecuteOne of DD CB rotates, BIT, RES, SET leaves what the CB form on (HL) does at that address, BIT's Y and X included; 8 more T-states, one more R increment |
| Z80Table.StepIsManual | z80/src/Z80Cpu.cpp:483-1706 | for each unprefixed, CB and ED opcode byte and every state, one ExecuteOne leaves the registers, flags, memory bytes, port accesses, interrupt state and T-states that the opcode map gives in plain arithmetic |
| Z80IndexTable.StepIsPrefixed | z80/src/Z80Cpu.cpp:1053-1365 | the same for every DD and FD suffix byte: what IX or IY, its halves and the byte at IX + d stand in for, and the suffixes at which the prefix is a NOP |
| Z80Table.InterruptsAre | z80/src/Z80Cpu.cpp:1710-1758 | NMI: PC pushed, 66h, IFF2 := IFF1, 11 T-states; INT: 38h in 13, or in mode 2 the word at 256 I + 255 in 19; HALT: 4 T-states and a refresh |
| Z80Branches.CompareThenBranch | z80/src/Z80Cpu.cpp:451-466 | two executed instructions, CP or SUB with a byte or a register and then any JR, JP, CALL or RET with a condition, by opcode byte: NZ goes iff A differs from it, Z iff equal, C iff below, NC iff not, M iff bit 7 of the difference is set, P iff not, PE iff the signed difference overflows, PO iff not; with the PC, T-states and stack of each outcome |
| Z80Branches.SumThenBranch | z80/src/Z80Cpu.cpp:93-126 | the same after ADD, ADC, SUB and SBC, from the exact signed and unsigned results, carry in included |
| Z80Branches.LogicThenBranch | z80/src/Z80Cpu.cpp:128-163 | after AND, XOR, OR: PE iff the number of ones is even, NC always, the rest by the result |
| Z80Branches.LogicBits | z80/src/Z80Cpu.cpp:128-163 | each bit of A after an executed AND, XOR or OR is the conjunction, difference or disjunction of the same bits of A and the operand |
| Z80Flags.DaaIs | z80/src/Z80Cpu.cpp:374-410 | DAA adds or subtracts 6 for a low digit above 9 or H, and 60h for a byte above 99h or C; every flag |
| Z80Flags.OnesAre | z80/src/Z80Cpu.cpp:18-23 | the parity flag is the evenness of the sum of the eight bits |
| Z80Block.BlockMove | z80/src/Z80Cpu.cpp:1580-1631 | LDIR/LDDR: exactly k of n = BC calls of ExecuteOne leave the k-byte sequential copy, all registers, flags and 21 T-states a round (16 for the last); PC leaves the instruction only at the end |
| Z80Block.CopyClosedForm | z80/src/Z80Cpu.cpp:1580-1584 | for any overlap and wrap, destination offset i holds the source byte at offset i mod the lag: fill for lag 1, block copy for lag 0 or at least n |
| Z80Block.CopyFrame | z80/src/Z80Cpu.cpp:1580-1584 | bytes outside the destination window keep their value |
| Z80Block.WholeMove | z80/src/Z80Cpu.cpp:1580-1631 | RAM after all n calls of ExecuteOne of an LDIR or LDDR: every destination offset holds its source byte, taken modulo the overlap, every other byte is untouched; a fill with one byte when DE is one beyond HL, a block copy keeping its source when the windows are disjoint |
| Z80Resume.MoveResumed | z80/src/Z80Cpu.cpp:1580-1631 | a block move broken off after any of its rounds and resumed with its registers restored ends as the uninterrupted one, in registers, flags and all memory the handler did not use |
| Z80Resume.CopySplits | z80/src/Z80Cpu.cpp:1580-1584 | copying k bytes and then the rest is copying all |
| Z80Block.BlockSearch | z80/src/Z80Cpu.cpp:1596-1643 | CPIR/CPDR: k calls of ExecuteOne search k bytes; the instruction is left exactly when A was found or the count ran out |
| Z80Block.SearchResult | z80/src/Z80Cpu.cpp:1596-1643 | at the end Z iff found, P/V iff BC is not 0, HL moved by the count; A, C and memory unchanged |
| Z80Bcd.AdcRipples | z80/src/Z80Cpu.cpp:1371-1388 | ADC HL,rr is two byte additions through the carry: result and every flag, Z of the whole word |
| Z80Bcd.SbcRipples | z80/src/Z80Cpu.cpp:1390-1406 | SBC HL,rr is two byte subtractions through the borrow |
| Z80Bcd.ByteStepExact | z80/src/Z80Cpu.cpp:93-126 | one byte or one packed decimal byte: result and carry make up the exact sum or difference |
| Z80Bcd.ChainExact | z80/src/Z80Cpu.cpp:374-410 | ADC or SBC chains of any length, plain or with DAA, compute the exact sum or difference modulo 256^n or 100^n, the last carry making up the rest; with DAA every byte stays packed decimal |
| Z80Bcd.DecimalInstructions | z80/src/Z80Cpu.cpp:374-410 | ADC A,n or SBC A,n followed by DAA, as ExecuteOne runs them, is one step of such a chain |
| Z80Bcd.AddRipples | z80/src/Z80Cpu.cpp:185-206 | ADD HL,rr is two byte additions; S, Z and P/V stay |
| Z80AluLaws.IncIsAdd | z80/src/Z80Cpu.cpp:608-628 | INC is ADD 1 in value and in every flag but C, which stays |
| Z80AluLaws.DecIsSub | z80/src/Z80Cpu.cpp:629-647 | DEC is SUB 1 likewise |
| Z80AluLaws.CpIsSub | z80/src/Z80Cpu.cpp:468-481 | CP sets SUB's flags with Y and X of the operand and leaves A |
| Z80AluLaws.OverflowFlag | z80/src/Z80Cpu.cpp:93-126 | P/V of additions and subtractions is two's-complement overflow |
| Z80AluLaws.ShiftArithmetic | z80/src/Z80Cpu.cpp:208-278 | all eight rotates and shifts double or halve, the carry taking the bit that falls out |
| Z80AluLaws.CircularInverse | z80/src/Z80Cpu.cpp:219-231 | RLC and RRC undo one another |
| Z80AluLaws.ThroughCarryInverse | z80/src/Z80Cpu.cpp:233-247 | RL and RR undo one another, carry included |
| Z80AluLaws.SraHalves | z80/src/Z80Cpu.cpp:256-262 | SRA halves a signed byte, rounding down |
| Z80AluLaws.AccumulatorRotation | z80/src/Z80Cpu.cpp:311-360 | RLCA, RRCA, RLA, RRA move A and C as the CB forms and keep S, Z, P/V |
| Z80AluLaws.SetAndReset | z80/src/Z80Cpu.cpp:944-953 | after SET b exactly bit b is new, after RES b exactly bit b is gone |
| Z80AluLaws.BitTest | z80/src/Z80Cpu.cpp:280-299 | BIT b: Z and P/V say the bit is clear, C stays, Y and X come from the given source |
| Z80AluLaws.NibblesInverse | z80/src/Z80Cpu.cpp:1543-1572 | RLD and RRD undo one another in A and memory |
| Z80Parity.ParityFold | z80/src/Z80Cpu.cpp:18-23 | the three xor-and-shift steps give the evenness of the number of ones, for every byte |
| Z80AluMachine.OverflowMask | z80/src/Z80Cpu.cpp:104 | the overflow mask of xors is the comparison of signs |
| Z80AluMachine.Parity8Of | z80/src/Z80Cpu.cpp:18-23 | the folding code computes Parity |
| Z80AluMachine.AddBytes | z80/src/Z80Cpu.cpp:93-109 | the addition with its masks and its flag byte put together bit by bit is AluAdd |
| Z80AluMachine.SubBytes | z80/src/Z80Cpu.cpp:111-126 | likewise AluSub |
| Z80AluMachine.CompareBytes | z80/src/Z80Cpu.cpp:468-481 | likewise AluCp |
| Z80AluMachine.LogicFlags | z80/src/Z80Cpu.cpp:128-163 | likewise the flags of AND, OR and XOR |
| Z80AluMachine.AdcPair | z80/src/Z80Cpu.cpp:1371-1388 | likewise Adc16 |
| Z80AluMachine.SbcPair | z80/src/Z80Cpu.cpp:1390-1406 | likewise Sbc16 |
| Z80AluMachine.RotateByte | z80/src/Z80Cpu.cpp:208-278 | likewise the CB rotates and shifts |
| Z80AluMachine.BitFlagsOf | z80/src/Z80Cpu.cpp:280-300 | likewise BIT, from the masked bit |
| Z80AluMachine.DecimalAdjust | z80/src/Z80Cpu.cpp:374-410 | likewise DAA |
| Z80AluMachine.RefreshMask | z80/src/Z80Cpu.cpp:521-534 | R put together from its masked halves counts in its low 7 bits and keeps bit 7 |
| Z80Frame.WriteFrame | z80/src/Z80Cpu.cpp:483-1036 | no instruction, of any table, changes a byte outside the few addresses its opcode and registers name |
| Z80Interrupt.PcSurvives | z80/src/Z80Cpu.cpp:1723-1758 | the PC an interrupt pushed outlives every instruction whose write frame misses it |
| Z80Interrupt.TickKeepsInv | z80/src/Z80Cpu.cpp:500-525 | one step of a disciplined handler keeps: at most one interrupt live, its pushed PC in place, and interrupts off or the EI delay covering its RETI |
| Z80Interrupt.NoNesting | z80/src/Z80Cpu.cpp:500-525 | for every movement of the IRQ line, without NMI: maskable interrupts never nest, and each RETI resumes the PC and SP its interrupt broke off, HALT included, because no instruction in between wrote the pushed word |
| Z80Nmi.NmiReturns | z80/src/Z80Cpu.cpp:1482-1490 | an NMI goes to 66h with interrupts off; after any disciplined handler, under any movement of the IRQ line, RETN restores PC and SP, and the interrupt enable from IFF2 |
| Z80Decode.ExecuteDecodes | z80/src/Z80Cpu.cpp:483-1036 | for every byte sequence at PC the trap is unreachable, T-states are positive and counted, and the bytes fetched are as many as Decode reports; at an ignored prefix PC then goes back over one of them (Z80Flow.IgnoredPrefix) |
| Z80Decode.StepProgress | z80/src/Z80Cpu.cpp:483-525 | ExecuteOne either reports a breakpoint and changes nothing, or adds its positive result to CycleCount and 1 to InstructionCount |
| Z80Decode.RelativeTarget | z80/src/Z80Disasm.cpp:493-527 | a JR or DJNZ that is taken, by B or by the bit of F its opcode byte names, goes where Decode prints, an untaken one past its two bytes |
| Z80Decode.CallReturnsWhereStepOverWaits | z80/src/plugin_z80.cpp:675-698 | CALL, RST and a CALL cc whose bit of F holds push exactly PC + CallOpcodeLen, where step-over waits, and go to their target; a CALL cc whose bit fails goes on there and leaves stack and RAM alone |
| Z80Flow.StraightLine | z80/src/Z80Disasm.cpp:493-527 | every instruction that does not divert control leaves PC exactly Decode's length further on |
| Z80Flow.IgnoredPrefix | z80/src/Z80Cpu.cpp:1354-1364 | at a prefix without effect Decode reports 2 bytes; the whole new state is PC one further, two R increments, two bytes fetched, 4 T-states, one instruction |
| Z80Reader.Decode | z80/src/Z80Disasm.cpp:493-527 | the byte-pulling decoder: its length, when it prints DB, and its branch target |
| Z80Reader.Reader.DecodeDdFd | z80/src/Z80Disasm.cpp:209-328 | the length after a DD or FD, and known exactly when the engine has the instruction |
| CondParsing.CondParser.EvalOr | em8/src/plugin_em8.cpp:307-315 | the recursive evaluator terminates on every text, moves its cursor only forward and never past the terminator, and computes ParseOr |
| CondParsing.CondParser.EvalCompare | em8/src/plugin_em8.cpp:285-295 | at most one comparison, two-character operators first |
| CondParsing.CondParser.ReadEm8 | em8/src/plugin_em8.cpp:244-265 | a register name counts only when no word character follows; a character is read only after those before it matched |
| CondParsing.CondParser.ReadZ8000 | z8000/src/plugin_z8000.cpp:315-350 | the same for PC, FCW, PSAP, RHn, RLn and R0-R15 |
| CondParsing.EvaluateCondition | em8/src/plugin_em8.cpp:320-328 | a missing condition holds, otherwise its value decides |
| CondRoundTrip.Reads | em8/src/plugin_em8.cpp:225-318 | at every precedence level a printed expression is read exactly to its end with its value |
| CondRoundTrip.ConditionRoundTrip | em8/src/plugin_em8.cpp:225-318 | for every expression tree, printed with only the parentheses precedence needs and any blanks, the parser consumes the whole text and returns the tree's value; for EM8 and Z8000 registers |
| CondMeaning.BothBits | em8/src/plugin_em8.cpp:279 | the value a tree has for &: bit i is 1 iff bit i of both operands is, for every i |
| CondLexical.NamesExact | em8/src/plugin_em8.cpp:244-265 | on any text, the longest word at the cursor is read as a register if and only if it names one, and then as all of it |
| CondLexical.StrToUlExact | em8/src/plugin_em8.cpp:233-238 | strtoul on any text: white space, a sign, 0x before a hexadecimal digit, the longest run of digits, its value, clamped or negated; without digits the cursor stays |
| CondParsing.EvaluatePrinted | z8000/src/plugin_z8000.cpp:409-417 | a printed condition stops the program exactly when the expression is not 0 |
| Settings.JsonEscape | mc6809/src/lib.rs:2740-2756 | the escaping loop computes Escape |
| Settings.SaveSettings | mc6809/src/lib.rs:2813-2822 | the save loop writes Saved |
| Settings.ReadValue | mc6809/src/lib.rs:2769-2796 | the unescaping loop computes ReadString |
| Settings.JsonExtractString | mc6809/src/lib.rs:2761-2797 | the extractor computes Extract |
| Settings.LoadSettings | mc6809/src/lib.rs:2853-2859 | loading keeps the key set and replaces exactly the values that are found |
| SettingsJson.EscapeIsJson | mc6809/src/lib.rs:2740-2757 | what json_escape writes for any string, controls included, is a JSON string that denotes it (section 7 of RFC 8259) |
| SettingsJson.ExtractIsJson | mc6809/src/lib.rs:2761-2796 | for any text holding the key, a colon and a JSON string, the extractor returns what the string denotes if and only if it is ASCII with no escapes but the five two-character ones it knows |
| SettingsJson.Utf8CharIs | mc6809/src/lib.rs:2769 | the bytes the reader goes over are the shortest UTF-8 form of each character |
| SettingsRoundTrip.SettingsRoundTrip | mc6809/src/lib.rs:2740-2822 | each key reads the value of exactly one line, its own unless an earlier value ends like the key; unshadowed, the saved value comes back if and only if it is ASCII without control characters but newline, return and tab |
| SettingsRoundTrip.SaveLoad | mc6809/src/lib.rs:2799-2860 | saving and then loading, over whatever values the settings have by then, restores the saved map if and only if every line comes back: its value is clean when no earlier value ends like its key, or the value read instead is no different |
| SettingsRoundTrip.SaveThenLoad | mc6809/src/lib.rs:2799-2860 | the two commands one after the other do so |
| SettingsRoundTrip.ShadowedExample | mc6809/src/lib.rs:2761-2797 | a file in which a key reads its neighbour's value |
| Srec.ToSrec | mc6809/examples/echo/gen_echo.py:38-53 | the writer's loops produce SrecText |
| SrecRoundTrip.RowsTile | mc6809/examples/echo/gen_echo.py:43-49 | row j of a segment holds its bytes 24j to 24j+23, or to the end |
| SrecRoundTrip.RowCount | mc6809/examples/echo/gen_echo.py:43-49 | a segment has one row for every 24 bytes begun |
| SrecRoundTrip.ChecksumCompletes | mc6809/examples/echo/gen_echo.py:46-48 | the bytes of every row sum to FF modulo 256 |
| SrecRoundTrip.SrecRoundTrip | mc6809/src/lib.rs:2432-2492 | with either reader, into any memory: the segments hold the image, every other byte is unchanged, and PC is the entry |
| SrecRoundTrip.ReadRecord | em8/src/plugin_em8.cpp:1180-1211 | both readers take a written record for exactly its data or its entry |
| SrecLoad.LoadMc6809 | mc6809/src/lib.rs:2432-2492 | the loader's loops poke Load's memory and compute its address range and PC, for any ASCII text; a carriage return is taken off only together with its newline |
| SrecRoundTrip.SplitUnterminated | mc6809/src/lib.rs:2436 | what follows the last newline is a line as it stands, a carriage return at its end included |
| SrecLoad.LoadEm8 | em8/src/plugin_em8.cpp:1158-1220 | the same for the EM8 loader, with its 16-bit end address, on every text whose lines it stays inside |
| SrecBounds.DecidesExactly | em8/src/plugin_em8.cpp:1176-1205 | what the loader does with a line is the same whatever lies behind it in memory if and only if its length byte stays inside the line or leaves no room for data |
| SrecBounds.WrittenInside | mc6809/examples/echo/gen_echo.py:38-53 | every line of a written file is such a line |
| SrecBounds.ShortRecord | em8/src/plugin_em8.cpp:1191-1199 | a record cut short whose loaded byte depends on what lies behind the line |
| SrecCase.CaseFree | em8/src/plugin_em8.cpp:1164-1203 | both readers take a line and the same line with hexadecimal digits in the other case for the same record |
| SrecRange.DataOnly | em8/src/plugin_em8.cpp:1195-1210 | data records without an entry: both readers report the lowest address, the MC6809 reader starts there and reports the end; the EM8 reader starts there too unless the last data ends at FFFF and nothing is loaded at 0, when PC stays |
| Acia.StepConserves | mc6809/src/lib.rs:470-550 | every send, drain, read, control write and reset keeps the chip's invariant and neither loses, invents nor reorders a byte |
| Acia.Conservation | mc6809/src/lib.rs:1612-1627 | over every interleaving: bytes under way and accepted, in order, are those delivered or discarded and those still under way |
| Acia.ByteStream | mc6809/src/lib.rs:1606-1627 | from power-on: accepted = gone ++ chip FIFO ++ staging queue; RDRF iff the FIFO holds something, TDRE iff out of master reset, at most 16 bytes, never an overrun |
| Acia.StatusIsTruthful | mc6809/src/lib.rs:452-476 | the status register says exactly whether the next read delivers, and that is the oldest byte |
| Acia.InterruptEnable | mc6809/src/lib.rs:452-504 | after a control write v and any run without another, the interrupt line is active iff bit 7 of v is set and a byte waits, or bits 6-5 of v are 01 |
| Acia.OverrunShown | mc6809/src/lib.rs:470-537 | a byte is dropped iff sixteen wait; that shows as bit 5 of the status until the next read |
| Acia.DrainFills | mc6809/src/lib.rs:1612-1627 | a drain fills the chip to sixteen bytes or empties the queue; the queue's space is 1024 less what it holds |
| Acia.NoLoss | mc6809/src/lib.rs:2555-2564 | sends that together fit the reported space are all accepted, whatever happens in between |
| Acia.Delivery | mc6809/src/lib.rs:1612-1627 | out of master reset, n rounds of drain and read deliver the n oldest bytes in order |
| AciaMachine.Mc6850.WriteCr | mc6809/src/lib.rs:478-504 | control write: interrupt enables, master reset, leaving it |
| AciaMachine.Mc6850.ReadRdr | mc6809/src/lib.rs:470-476 | the oldest byte or 0, RDRF and overrun updated |
| AciaMachine.Mc6850.ReceiveByte | mc6809/src/lib.rs:521-537 | dropped in master reset, overrun when full, else queued |
| AciaMachine.Console.DrainHostRx | mc6809/src/lib.rs:1612-1627 | the drain loop, or nothing when the lock is taken; the ghost history stays balanced |
| AciaMachine.Console.SendString | mc6809/src/lib.rs:2531-2548 | the prefix that fits is queued |
| AciaMachine.Console.HardReset | mc6809/src/lib.rs:1893-1900 | the chip is reset, the staging queue survives |
| Em8Machine.Em8Cpu.ExecuteOne | em8/src/Em8Cpu.cpp:208-791 | one instruction of the full opcode table takes the state to Step and returns its cycles |
| Em8Machine.Em8Cpu.PollInterrupts | em8/src/Em8Cpu.cpp:173-202 | NMI first, then IRQ if unmasked; PC and flags saved with B clear |
| Em8Machine.Em8Cpu.EmulationLoop | em8/src/plugin_em8.cpp:336-391 | the loop stops when, where and for the reason Loop says |
| Em8Machine.Em8Cpu.RunStepOut | em8/src/plugin_em8.cpp:786-807 | step-out runs the loop with the depth below the current one as target |
| Em8Manual.StepIsManual | em8/src/Em8Cpu.cpp:208-791 | for each of the 256 opcode bytes, code outside the I/O window: the registers, flags, memory and device accesses, shadow stack and cycles that the opcode map gives in plain arithmetic, every addressing mode written out |
| Em8Manual.InterruptsAre | em8/src/Em8Cpu.cpp:173-202 | NMI through FFFA, IRQ with I clear through FFFE; PC and the flags without B are pushed, I is set |
| Em8Manual.ResetIs | em8/src/Em8Cpu.cpp:147-168 | a reset starts at the word in FFFC with an empty stack and interrupts masked: an IRQ then stays unanswered |
| Em8Branches.CompareThenBranch | em8/src/Em8Cpu.cpp:423-458 | two executed instructions, CMP, CPX or CPY with a value and then a branch, by opcode byte: 50 and 51 go by equality, 52 and 53 by the unsigned order, 54 and 55 by bit 7 of the difference; with PC and cycles |
| Em8Branches.AddThenBranch | em8/src/Em8Cpu.cpp:459-470 | after ADD or SUB, 56 goes iff the exact signed result leaves the byte range, 57 iff not |
| Em8Stack.PushRefines | em8/src/Em8Cpu.cpp:24-28 | with room, a push appends to the outstanding bytes in page 1, wrapping, and never reaches a device |
| Em8Stack.PullRefines | em8/src/Em8Cpu.cpp:30-34 | a pull returns and removes the newest outstanding byte |
| Em8Stack.JsrRefines | em8/src/Em8Cpu.cpp:486-497 | JSR pushes one call frame, on page 1 and on the shadow stack |
| Em8Stack.RtsRefines | em8/src/Em8Cpu.cpp:498-505 | RTS takes it off both and returns behind its JSR |
| Em8Stack.StepRefines | em8/src/Em8Cpu.cpp:208-791 | one disciplined instruction, any opcode, refines the LIFO of frames: page 1 holds exactly their bytes, the shadow stack exactly the live return addresses, and RTS, RTI, PLA and PLF give back what was put on |
| Em8StepOut.LoopRefines | em8/src/plugin_em8.cpp:336-390 | every disciplined run of the loop, interrupts included, keeps that relation |
| Em8StepOut.FrameGivenBack | em8/src/Em8Cpu.cpp:486-536 | however calls, saved bytes and interrupts nest above a frame, the instruction that takes it off gets back its contents, with SP and shadow stack as before it |
| Em8StepOut.CallReturns | em8/src/Em8Cpu.cpp:486-505 | each RTS returns after its JSR: for a JSR at any state and any run that keeps its frame, the RTS that takes it off goes to PC + 3 of the JSR, with SP and shadow stack as before it |
| Em8StepOut.InterruptRestores | em8/src/Em8Cpu.cpp:173-202 | for an interrupt accepted in any turn and any run of its handler, the RTI that takes its frame off restores PC, SP, the shadow stack and the flags up to bit B |
| Em8StepOut.BreakRestores | em8/src/Em8Cpu.cpp:610-620 | the same for BRK, which is returned from behind its signature byte |
| Em8StepOut.FlagsUpToB | em8/src/Em8Cpu.cpp:182 | clearing B twice, or setting and clearing it, is clearing it |
| Em8StepOut.StepOutStops | em8/src/plugin_em8.cpp:380-386 | inside a call, the loop stops for step-out exactly in the turn whose RTS leaves that call; PC is then the return address if and only if that turn accepts no interrupt, and otherwise the interrupt has saved it; a watchpoint may stop in that same turn; in every other outcome the call is still live |
| Em8StepOut.StepOutReturns | em8/src/plugin_em8.cpp:786-807 | the user's view: the innermost live call has returned and the shadow stack is one shorter, with the same condition for where PC is |
| Em8StepOut.QuietStepOut | em8/src/plugin_em8.cpp:786-807 | with no interrupt requested during the run a step-out always stops at the return address |
| Em8StepOut.StepOutMeetsInterrupt | em8/src/plugin_em8.cpp:350-386 | a disciplined run in which it stops at a handler instead |
| Em8Flags.AddMeans | em8/src/Em8Cpu.cpp:112-122 | ADD: the sum modulo 256, C the unsigned and V the signed overflow, Z and N of the result |
| Em8Flags.SubMeans | em8/src/Em8Cpu.cpp:124-133 | SUB: adding the complement is the difference, C no borrow, V signed overflow |
| Em8Flags.CompareDecides | em8/src/Em8Cpu.cpp:135-141 | after a compare C decides the unsigned order and Z equality; V and I stay |
| Em8Flags.ShiftMeans | em8/src/Em8Cpu.cpp:345-378 | ASL and ROL double, LSR and ROR halve, C takes the bit that falls out |
| Em8Flags.RotateInverse | em8/src/Em8Cpu.cpp:361-378 | ROL and ROR undo one another, carry included |
| Em8Timer.TimerDevice.Tick | em8/src/Em8Timer.cpp:10-28 | the per-cycle loop computes the closed form Ticked |
| Em8Timer.TickedThenCycle | em8/src/Em8Timer.cpp:10-28 | the closed form advances one cycle at a time as the loop body does |
| Em8Timer.TickedAdds | em8/src/Em8Timer.cpp:10-28 | Tick(a) then Tick(b) is Tick(a+b) |
| Em8Timer.OverflowsWhen | em8/src/Em8Timer.cpp:10-28 | overflow is raised exactly when more cycles pass than the counter holds; a one-shot timer then stops |
| Em8Timer.WriteReads | em8/src/Em8Timer.cpp:30-80 | what each register write changes in every register read: reload and control read back, starting copies reload into the counter, acknowledging clears the status, nothing else |
| Em8Timer.StartsCountdown | em8/src/Em8Timer.cpp:64-70 | enabling starts a countdown of exactly reload + 1 cycles to overflow; the interrupt follows if the control byte enables it |
| Em8Timer.Periodic | em8/src/Em8Timer.cpp:10-28 | with auto-reload the counter is back at its reload value after every reload + 1 cycles |
| Em8Timer.NextPeriod | em8/src/Em8Timer.cpp:10-28 | acknowledged after any whole number of periods, it overflows again after exactly reload + 1 more cycles |
| Em8Timer.TimerDevice.HasPendingIrq | em8/src/Em8Timer.cpp:80-83 | overflow and the enable bit |
| Z8000Compare.CompareBytes | z8000/src/Z8000Cpu.cpp:160-172 | after CPB each of the sixteen codes answers its question: never and always, the two's-complement order, the unsigned order, equality, signed overflow, bit 7 of the difference |
| Z8000Compare.CompareWords | z8000/src/Z8000Cpu.cpp:174-186 | the same after CP, with bit 15 |
| Z8000Compare.SignWord | z8000/src/Z8000Cpu.cpp:174-186 | also with a borrow: C is the unsigned borrow, V the signed overflow, S xor V the sign of the exact difference |
| Z8000Compare.SignByte | z8000/src/Z8000Cpu.cpp:160-172 | the same for bytes |
| Z8000Compare.FieldsByte | z8000/src/Z8000Cpu.cpp:160-172 | the difference modulo 256, Z and S of it, H the borrow out of the low digit, DA set |
| Z8000Compare.FieldsWord | z8000/src/Z8000Cpu.cpp:174-186 | the same modulo 2^16, H the borrow out of the low three digits |
| Z8000Compare.Complement | z8000/src/Z8000Cpu.cpp:215-239 | code cc xor 8 is the complement of cc in every flag state |
| Z8000Compare.Z8000Cpu.CompareRegs | z8000/src/Z8000Cpu.cpp:290-294 | CP Rd,Rs keeps the registers and leaves flags for which all sixteen codes answer as above |
| Z8000Compare.Z8000Cpu.CompareByteRegs | z8000/src/Z8000Cpu.cpp:336-340 | CPB likewise, registers 0-7 the high and 8-15 the low halves of R0-R7 |
| Z80Disk.OffsetExact | z80/src/Z80DiskDevice.cpp:66-90 | the uint32_t bounds arithmetic never wraps, so the test is exact |
| Z80Disk.StepSectors | z80/src/Z80DiskDevice.cpp:45-99 | between mounts the image keeps its length, and a sector changes only by a successful WRITE to it, to the RAM window at the buffer pointer |
| Z80Disk.RunSectors | z80/src/Z80DiskDevice.cpp:45-99 | over every run a sector holds what was last written to it |
| Z80Disk.WriteThenRead | z80/src/Z80DiskDevice.cpp:66-90 | WRITE, anything that does not write that sector, READ: exactly those 128 bytes arrive, at any pointers, wrapping past FFFF |
| Z80Disk.Protected | z80/src/Z80DiskDevice.cpp:79-82 | write protection freezes the image until the next mount |
| Z80Disk.ErrorBit | z80/src/Z80DiskDevice.cpp:57-99 | ERROR is set exactly when a command failed since the last NOP, mount or reset |
| Z80Disk.StepError | z80/src/Z80DiskDevice.cpp:57-99 | one event sets ERROR exactly when it is a refused command and keeps it unless it clears it |
| Z80Disk.StatusBits | z80/src/Z80DiskDevice.cpp:33-40 | the status port: ready always, error, write protection, image present |
| Z80Disk.PortsReadBack | z80/src/Z80DiskDevice.cpp:27-55 | each address port reads back its byte and leaves the others alone |
| Z80Disk.PortsSpell | z80/src/Z80DiskDevice.cpp:45-55 | after any run the sector number is F0 + 256 F1 + 65536 F2 and the buffer pointer F3 + 256 F4, each port standing for the last byte written to it since the last mount or reset |
| Z80Ports.AccessExact | z80/src/Z80Cpu.cpp:483-1706 | one ExecuteOne makes exactly the port access its bytes and registers name, or none; after a port write RAM is as it was but for what the device stored |
| Z80DiskPort.TurnIsStep | z80/src/Z80Memory.cpp:54-77 | with the UART at FE and FF, the disk at F0 to F7 and nothing elsewhere, one ExecuteOne is one step of the disk device on disk and RAM |
| Z80DiskPort.RunIsSteps | z80/src/Z80Memory.cpp:54-77 | so is every run, whatever the program, the interrupt lines and the host's mounts and resets |
| Z80DiskPort.OutCommands | z80/src/Z80Cpu.cpp:1027-1030 | an executed OUT (F5),A does to disk and RAM what the device's command in A does |
| Z80DiskPort.InReadsPort | z80/src/Z80Cpu.cpp:1021-1025 | an executed IN A,(n) on a disk port loads what the port reads and changes neither disk nor RAM |
| Z80DiskPort.OutWriteThenOutRead | z80/src/Z80DiskDevice.cpp:57-99 | WRITE by an executed OUT, then any program, interrupts and resets that do not write that sector, then READ by an executed OUT: the 128 bytes arrive at the buffer pointer and nothing else in RAM changes |
| Z80DiskMachine.Z80DiskDevice.ExecuteCommand | z80/src/Z80DiskDevice.cpp:57-99 | the command with its two copy loops over RAM and image arrays is Command |
| Z80DiskMachine.Z80DiskDevice.WritePort | z80/src/Z80DiskDevice.cpp:45-55 | a port write is one step of the device |
| Z80DiskMachine.Z80DiskDevice.ReadPort | z80/src/Z80DiskDevice.cpp:27-43 | a port read returns ReadIo and changes nothing |

## Left out

- The plugins' C interface, threads and mutexes, file access, string buffers, callbacks: plumbing around what is modelled. Threads are interleaved atomic steps.
- The MC68030 and MC6809 CPUs, whose engines are not part of this repository.
- Watchpoint bookkeeping, breakpoint sets, settings staging, the UARTs: only their effect on a run (stop or not) is an input.
- The Z8000 beyond compare: its other instructions, exception entry and IRET.
- Z80Machine.Z80Cpu.ExecuteOne: counters do not wrap at 64 bits.
- Z80Interrupt.NoNesting: the discipline (no instruction's write frame meets the pushed word, SP balanced at RETI, EI only before RETI) is checked on each instruction about to run, along the run.
- Em8Manual.StepIsManual: the three bytes at PC lie outside the I/O window, so fetching them does not read a device.
- Z80Nmi.NmiReturns: the handler executes no EI, DI, HALT or other return from interrupt, and no second NMI arrives; RETI counts as RETN, as in the code.
- SettingsJson.EscapeIsJson: `\u` escapes of surrogate pairs are not JSON strings here, and none is written.
- Z80Block.BlockMove: the destination window must miss the two opcode bytes, except its last byte, and no interrupt or breakpoint may intervene.
- Mnemonic and operand text of the disassemblers.
- INI, IND, OUTI, OUTD are executed as the code does, with its simplified flags; nothing beyond that is proved about them.
- CondRoundTrip.ConditionRoundTrip: literals are digits, `$` or `0x` and digits, below 2^32; signs, leading spaces and clamping are in CondLexical.StrToUlExact. Stack overflow by deep nesting is not modelled.
- SettingsRoundTrip.SettingsRoundTrip: keys contain no quote, backslash, colon or control character, as all of the plugin's keys do; entries may come in any order.
- SrecRoundTrip.SrecRoundTrip: the text is ASCII, on which the MC6809 reader's string slicing cannot panic.
- Acia.ByteStream: the base address decoding and the transmit callback are not modelled; WriteTdr returns the byte it would hand over.
- Em8Stack.StepRefines: frames are taken off by the instruction that matches them (no RTS used as a jump), at most 256 stack bytes are outstanding, TXS keeps SP, and no store hits a live stack byte.
- SrecLoad.LoadEm8: where a record's length byte exceeds its line the source reads behind the line; the method reads zeros there, and SrecBounds.DecidesExactly says where that matters.
- Z80DiskPort.TurnIsStep: the UART's own state is not modelled; its answers are inputs of each turn.
- Em8Machine.Em8Cpu.EmulationLoop: whether a breakpoint or watchpoint stops, and the interrupt lines after the timer tick, are inputs of each turn.
- Em8StepOut.StepOutStops: breakpoints, watchpoint hits and stop requests are inputs, so their conditions are not evaluated inside the loop.
- Em8Timer.TimerDevice.Tick: connecting its overflow to the IRQ line is an input of the CPU's loop.
- Z8000Compare.Z8000Cpu.CompareRegs: the flag bits are separate fields rather than bits of FCW, and cycle accounting is the returned 4.
- The boot-from-disk copy and step-over loops of the Z80 plugin, apart from where step-over waits.
