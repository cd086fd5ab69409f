# A bytecode Turing machine, modelled in Dafny

The modelled program runs small Turing-machine programs. A program is a sequence of 16-bit instruction words, held in a 4096-word instruction memory. The engine fetches the word at the program counter, advances the counter and executes the instruction. It repeats this until an END instruction stops it with a halt or fail verdict.

The machine's state is:
- a tape of 20000 cells, each a blank flag and a character, with the head starting at cell 10000;
- an equality flag that CMP sets and BRAC tests;
- an alphabet table that ALPHA writes;
- a move counter and a step counter.

Before each run, one input line is written onto the tape from the head's start cell on. The driver finds its two input files by their name suffix.

The model has six modules:

- `Encodings` (`encodings.dfy`) covers the instruction set.
  - The `Instr` datatype has one constructor per opcode (ALPHA, CMP, BRAC, BRA, DRAW, MOVE, END) plus `Unknown` for opcode 7.
  - `Decode` and `Encode` work with shifts and masks over `bv16`, through the bit-field layout of each opcode.
  - The round-trip lemmas prove that decoding inverts encoding for every instruction.
  - They also prove that encoding inverts decoding exactly when the word's reserved bits are zero.
- `MachineSpec` (`machine_spec.dfy`) describes the machine as a value.
  - `State` mirrors the machine record.
  - `Execute` is the body of the engine's `switch`, and `Step` is one fetch-increment-execute-count iteration.
  - `Run` is the loop, bounded by fuel. Reset, tape seeding and a fresh machine are defined here as well.
- `MachineProperties` (`machine_properties.dfy`) proves lemmas about these functions:
  - what each opcode does to the state and what it leaves alone;
  - that a run stops only at END and reports END's halt bit;
  - that the step counter counts executed instructions;
  - that no instruction reads the alphabet;
  - where seeding writes.
- `TuringMachine` (`machine.dfy`) is the imperative machine, as the engine works on it.
  - `Machine` is a class with array fields. Its `Step`, `Execute`, `ExecuteProgram` and `SeedLine` methods update it in place.
  - Each method is proved to compute the corresponding `MachineSpec` function on the machine's state.
  - The module also has the command-line suffix search `GetFileOfType` and `RunLine`, which seeds one line into a fresh machine and runs it.
- `Scenarios` (`scenarios.dfy`) proves what two whole programs do.
  - DRAW 'x', MOVE right, END halting on an empty line halts after 3 steps and 1 move, with 'x' on the start cell.
  - A program that reads 'a' and branches back to its start never halts on the line "a", whatever the fuel.
- `CharSignedness` (`char_signedness.dfy`) models CMP's character comparison as the source writes it, with a signed `char`. It exhibits the letters for which this differs from the byte comparison that the rest of the model uses (see "## Findings").

The model follows the code, including four places where the code does less than the machine's vocabulary suggests:
- The alphabet is written by ALPHA but never consulted. CMP never fails on an undeclared symbol.
- The tape is a fixed array of 20000 cells that never grows. Moving off either end and then touching the tape has no defined meaning.
- The program counter is a 16-bit counter, not masked to 12 bits. A counter that reaches 4096 addresses outside the instruction memory.
- END is the only way a run stops.

The model replaces undefined behaviour with an explicit outcome. A run reports `Stuck` when the next step would read memory at a counter of 4096 or more. It also reports `Stuck` when the next step would read or write the cell under a head that is outside the tape. DRAW always touches that cell. CMP touches it unless `oring` is set and the flag already is, because `eq || ...` then stops before the cell is read. `Step` requires that neither happens.

## Model

| member | source | states |
|---|---|---|
| Encodings.Decode | encodings.h:45-97 | the decoded instruction's opcode is the word's top three bits, so it is one of 0..7, and 7 decodes to `Unknown` |
| Encodings.Encode | encodings.h:45-97 | the encoded word carries the instruction's opcode in bits 13..15 and has every reserved bit of that layout clear |
| Encodings.DecodeEncode | encodings.h:45-97 | decoding an encoded instruction gives back the instruction, for every instruction |
| Encodings.EncodeDecode | encodings.h:45-97 | decoding then encoding a word clears exactly the reserved bits of its layout, and gives back the word if and only if those bits are zero |
| Encodings.EncodeDecodeAlpha | encodings.h:52-57 | for an ALPHA word the round trip clears exactly bits 8..12, the layout's reserved field |
| Encodings.EncodeDecodeCmp | encodings.h:58-65 | for a CMP word the round trip clears exactly bits 8..10, the layout's reserved field |
| Encodings.EncodeDecodeBrac | encodings.h:66-71 | every BRAC word survives the round trip: the layout reserves nothing |
| Encodings.EncodeDecodeBra | encodings.h:72-77 | for a BRA word the round trip clears exactly bit 12, the layout's reserved bit |
| Encodings.EncodeDecodeDraw | encodings.h:78-84 | for a DRAW word the round trip clears exactly bits 8..11, the layout's reserved field |
| Encodings.EncodeDecodeMove | encodings.h:85-90 | for a MOVE word the round trip clears exactly bits 0..11, the layout's reserved field |
| Encodings.EncodeDecodeEnd | encodings.h:91-96 | for an END word the round trip clears exactly bits 0..11, the layout's reserved field |
| Encodings.EncodeDecodeUnknown | encodings.h:47-51 | opcode 7 has only the generic layout, whose 13 low bits are all reserved |
| Encodings.ReservedMask | encodings.h:49-96 | the reserved bits of a layout never include the opcode bits, and all 13 low bits are reserved only for the unnamed opcode 7 |
| Encodings.AlphaBits | encodings.h:52-57 | for every letter, the ALPHA word holding it in bits 0..7 decodes to ALPHA of that letter |
| Encodings.CmpBits | encodings.h:58-65 | for every letter, `blank` and `oring`, the CMP word with the letter in bits 0..7, `blank` in bit 11 and `oring` in bit 12 decodes to exactly that CMP |
| Encodings.BracBits | encodings.h:66-71 | for every address and `eq`, the BRAC word with the address in bits 0..11 and `eq` in bit 12 decodes to exactly that BRAC |
| Encodings.BraBits | encodings.h:72-77 | for every address, the BRA word holding it in bits 0..11 decodes to BRA of that address |
| Encodings.DrawBits | encodings.h:78-84 | for every letter and `blank`, the DRAW word with the letter in bits 0..7 and `blank` in bit 12 decodes to exactly that DRAW |
| Encodings.MoveBits | encodings.h:85-90 | MOVE's `left` is bit 12 |
| Encodings.EndBits | encodings.h:91-96 | END's `halt` is bit 12 |
| Encodings.DecodeIgnoresReserved | encodings.h:49-96 | two words with the same opcode that differ only in that layout's reserved bits decode to the same instruction |
| MachineSpec.Fresh | tm.cpp:8-24 | a fresh machine has a 20000-cell tape, 4096 words of memory and 256 alphabet entries |
| MachineSpec.Increment | tm.cpp:88 | the program counter's increment is addition modulo 2^16 |
| MachineSpec.CanStep | tm.cpp:87-140 | a step is defined only at a counter below 4096, and always there unless the instruction is CMP or DRAW |
| MachineSpec.Matches | tm.cpp:109-130 | the definition of CMP's test of a cell, shared by `Execute` and `Machine.Execute`; its effect is stated by `StepCmp` and its properties by `CmpTestsExclusive` |
| MachineSpec.Execute | tm.cpp:90-162 | executing an instruction leaves the loop running unless it is END; END changes nothing and reports its halt bit; only DRAW changes the tape |
| MachineSpec.Step | tm.cpp:86-163 | a step keeps the memory, loads the fetched word into the instruction register, adds one to the step counter, and stops the loop exactly when the fetched instruction is END |
| MachineSpec.Run | tm.cpp:84-164 | a bounded run keeps the sizes and never writes the instruction memory |
| MachineSpec.Reset | tm.cpp:77-79 | resetting keeps the sizes |
| MachineSpec.ExecuteProgram | tm.cpp:74-166 | the engine keeps the sizes and never writes the instruction memory |
| MachineSpec.SeedPrefix | tm.cpp:207-212 | seeding keeps the tape length |
| MachineSpec.Seed | tm.cpp:207-212 | seeding keeps the sizes |
| MachineProperties.StepPc | tm.cpp:87-88 | every instruction but BRA and a taken BRAC leaves the program counter one past the fetched word |
| MachineProperties.ExecuteKeepsPc | tm.cpp:90-162 | only BRA and a taken BRAC write the program counter |
| MachineProperties.StepBranch | tm.cpp:95-107 | BRA always jumps to its address; BRAC jumps exactly when the flag equals its `eq` bit and otherwise falls through; nothing else changes |
| MachineProperties.ExecuteBranch | tm.cpp:95-107 | the same for the execution of a decoded branch |
| MachineProperties.StepPcBound | tm.cpp:87-88 | after a step the program counter is at most 4096, and is 4096 only after the last word was fetched and did not jump |
| MachineProperties.StepCmp | tm.cpp:108-131 | CMP changes only the flag: with `oring` a set flag stays set; otherwise the flag becomes "the cell is blank" when `blank` is set and "the cell is non-blank and holds `letter`" when it is not |
| MachineProperties.StepCmpOringSetFlag | tm.cpp:109-117 | CMP with `oring` on a set flag is defined wherever the head is, because `eq || ...` never reads the cell, and changes nothing beyond the fetch and the count |
| MachineProperties.CmpTestsExclusive | tm.cpp:109-130 | the blank test matches a cell exactly when no letter test does, the blank test does not depend on the letter, and no two letters' tests match the same cell |
| MachineProperties.DrawThenCmpMatches | tm.cpp:108-141 | a cell that DRAW wrote with any letter matches a following CMP of the same letter, with or without `oring` |
| MachineProperties.StepDraw | tm.cpp:132-142 | DRAW changes only the head cell: with `blank` set it marks the cell blank and keeps its character, otherwise it writes the letter, non-blank |
| MachineProperties.StepMove | tm.cpp:153-159 | MOVE moves the head one cell left or right and adds one to the move count, changing nothing else |
| MachineProperties.StepOnlyMoveMoves | tm.cpp:90-162 | no instruction but MOVE changes the head position or the move count |
| MachineProperties.StepAlpha | tm.cpp:92-94 | ALPHA sets its letter's alphabet entry and changes nothing else |
| MachineProperties.StepKeepsAlpha | tm.cpp:90-162 | no step clears an alphabet entry |
| MachineProperties.StepEnd | tm.cpp:143-152 | END stops the loop with its halt bit and changes nothing beyond the fetch and the count |
| MachineProperties.StepUnknown | tm.cpp:160-161 | opcode 7 changes nothing beyond the fetch and the count |
| MachineProperties.StepIgnoresAlpha | tm.cpp:90-162 | a step from states that differ only in the alphabet ends alike, in states that differ only in the alphabet |
| MachineProperties.ExecuteIgnoresAlpha | tm.cpp:90-162 | the same for the execution of one decoded instruction |
| MachineProperties.RunOneStep | tm.cpp:84-164 | a run that can step takes the step, then continues unless the step was END |
| MachineProperties.RunKeepsAlpha | tm.cpp:84-164 | a run never clears an alphabet entry |
| MachineProperties.RunFinishesAtEnd | tm.cpp:84 | a run finishes only with END in the instruction register, and its verdict is END's halt bit |
| MachineProperties.RunCountsSteps | tm.cpp:77 | the step counter grows by the number of instructions executed: exactly the fuel when it runs out, at least one when finished, never more than the fuel |
| MachineProperties.RunMoreFuel | tm.cpp:84-164 | a run that ended for a reason other than fuel ends the same way with any larger bound |
| MachineProperties.RunExactFuel | tm.cpp:163 | a finished run took exactly as many steps as its counter shows: that many suffice and one fewer does not |
| MachineProperties.RunHeadBoundedByMoves | tm.cpp:153-159 | the head is never farther from its start than the number of moves, and a run makes at most one move per step |
| MachineProperties.RunIgnoresAlpha | tm.cpp:92-94 | runs from states that differ only in the alphabet end alike, in states that differ only in the alphabet |
| MachineProperties.SeedPrefixAt | tm.cpp:207-212 | seeding writes character z of the line, non-blank, into cell 10000 + z and leaves every other cell unchanged |
| CharSignedness.SignedValue | tm.cpp:11 | a signed `char` holding a byte lies in -128..127, agrees with the byte modulo 256, and equals it exactly below 0x80 |
| CharSignedness.MatchesAsWritten | tm.cpp:117-128 | CMP's test as written, with a signed `char`, never matches where the byte comparison does not |
| CharSignedness.AsWrittenAgrees | tm.cpp:117 | CMP as written agrees with the byte comparison for letters below 0x80 and for blank tests, and never matches a letter of 0x80 or more |
| CharSignedness.AsWrittenMissesDrawnLetter | tm.cpp:128 | a cell holding 0x80 fails CMP 0x80 as written but matches under the byte comparison |
| TuringMachine.Machine.Model | tm.cpp:14-24 | a well-formed machine's state has the machine's sizes |
| TuringMachine.Machine.constructor | tm.cpp:14-24 | a new machine holds the program and is otherwise in the fresh state: blank tape, head at 10000, flag clear, no letter declared, counters zero |
| TuringMachine.Machine.Ready | tm.cpp:87 | the run-time test of whether the next step is defined agrees with `CanStep` |
| TuringMachine.Machine.Step | tm.cpp:86-163 | one in-place iteration computes exactly `MachineSpec.Step` of the old state and keeps the arrays |
| TuringMachine.Machine.Execute | tm.cpp:90-162 | the in-place switch computes exactly `MachineSpec.Execute` of the old state |
| TuringMachine.Machine.ExecuteProgram | tm.cpp:74-166 | the in-place engine computes exactly `MachineSpec.ExecuteProgram` of the old state, and a finished run leaves END in the instruction register with the returned halt bit |
| TuringMachine.Machine.SeedLine | tm.cpp:207-212 | the in-place seeding loop computes `MachineSpec.Seed`: cells 10000.. are the line, non-blank, and all other cells are unchanged |
| TuringMachine.RunLine | tm.cpp:207-215 | seeding a line into a fresh machine and running it gives the outcome and counters of `ExecuteProgram(Seed(Fresh(program), line))` |
| TuringMachine.EndsWith | tm.cpp:175 | the length comparison and tail comparison hold exactly when the argument is some prefix followed by the suffix |
| TuringMachine.GetFileOfType | tm.cpp:168-182 | the result is the least index whose argument ends with the suffix, or -1 exactly when none does |
| Scenarios.DrawMoveHaltWords | encodings.h:78-96 | the words 0x8078, 0xA000 and 0xD000 are DRAW 'x', MOVE right and END halting, both ways |
| Scenarios.DrawMoveHalt | tm.cpp:74-166 | DRAW 'x', MOVE right, END halting on an empty line halts with step count 3, move count 1, 'x' non-blank on cell 10000, the head on 10001 and every other cell blank |
| Scenarios.LoopWords | encodings.h:52-71 | the words 0x0061, 0x2061 and 0x5000 are ALPHA 'a', CMP 'a' and BRAC 0 on a set flag |
| Scenarios.LoopingStep | tm.cpp:92-131 | each step of the looping program on 'a' is defined, does not stop, and keeps the loop's invariant |
| Scenarios.LoopingRun | tm.cpp:84-164 | from any state satisfying the loop's invariant, every bounded run runs out of fuel |
| Scenarios.LoopForever | tm.cpp:84-164 | the looping program on the line "a" never halts: every bound runs out |

## Left out

- `draw` (tm.cpp:26-57) only prints the tape and counters to the console. It is not part of this model.
- `loadProgram` (tm.cpp:59-72) reads the binary program file into memory. File input is not modelled: the program is a parameter of exactly 4096 words.
- The rest of `main` (tm.cpp:184-233) is not modelled: opening files, the line-reading loop and the output. `RunLine` models one input case on a fresh machine.
  - The driver copies `default_tm` into `current_tm` before `loadProgram` fills `default_tm`, so the first case runs on an unloaded memory. That ordering is not modelled.
- The engine's loop need not terminate. `Run`, `Machine.ExecuteProgram` and `RunLine` take a fuel bound, and `OutOfFuel` reports a run that used it up. Nothing is claimed about a run without a bound.
- Undefined behaviour is not modelled beyond the point where it starts. This covers reading memory at a counter of 4096 or more, and DRAW, or a CMP that reads the cell, with the head outside the tape. `Run` stops with `Stuck` before such a step, and `Step` requires that it does not happen.
  - Seeding requires the line to fit on the tape: at most 10000 characters.
- Tape cells hold bytes (`bv8`), and CMP compares its letter with the cell's byte. The source's `char` comparison is the subject of the finding below. The rest of the model keeps the byte comparison.
- The step counter, the head position and the move counter are unbounded integers. The model does not capture the 32-bit `int` overflow these would reach after about 2^31 steps.
- The C++ bit-field layout rules and the union punning are not modelled. The model fixes the layout with the first declared field least significant.
- `GetFileOfType` and `EndsWith` work on Dafny strings, sequences of Unicode characters. The source's `argv` entries and `std::string` hold bytes, so a multi-byte file name compares per character here and per byte there; the suffixes the driver uses are ASCII, where the two agree.
- `ir` and `pc` are uninitialised in the source's fresh machine, and the model's constructor sets both to 0. The engine overwrites both before reading them.
- TuringMachine.Machine.Model: its contract states only the sizes. The equalities that link the machine to `MachineSpec` are stated on `Step`, `Execute`, `ExecuteProgram` and `SeedLine`.
- MachineSpec.Step, MachineSpec.Run, MachineSpec.ExecuteProgram: their own contracts state only what every step keeps. What each opcode does is stated in `MachineProperties`.

## Findings

| source | as written | input that shows it | evidently intended | confidence | as-written member | corrected member |
|---|---|---|---|---|---|---|
| tm.cpp:117-128 | CMP compares the unsigned letter field (0..255) with the cell's `char`, which reads as -128..127 where `char` is signed | DRAW 0x80 then CMP 0x80 on the same cell: 128 is compared with -128, so the flag is cleared | a cell holding the letter matches CMP of that letter, for every byte | medium: holds where `char` is signed, which is implementation-defined; not executed | CharSignedness.AsWrittenMissesDrawnLetter | MachineProperties.DrawThenCmpMatches |
