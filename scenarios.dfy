/** What the engine does with two whole programs: one that draws a letter,
    moves and halts, and one that loops forever on its input. */
module Scenarios {
  import opened Encodings
  import opened MachineSpec
  import MachineProperties

  /** The words of the first program: DRAW 'x', MOVE right, END halting. */
  const DRAW_X: Word := 0x8078
  const MOVE_RIGHT: Word := 0xA000
  const END_HALT: Word := 0xD000

  lemma DrawMoveHaltWords()
    ensures Decode(DRAW_X) == Draw(0x78, false)
    ensures Decode(MOVE_RIGHT) == Move(false)
    ensures Decode(END_HALT) == End(true)
    ensures Encode(Draw(0x78, false)) == DRAW_X && Encode(Move(false)) == MOVE_RIGHT && Encode(End(true)) == END_HALT
  {
  }

  /** On an empty line the first program halts after three instructions,
      with 'x' under the start cell, the head one cell to the right, one
      move made and every other cell blank. */
  lemma DrawMoveHalt(program: seq<Word>, fuel: nat)
    requires |program| == RAM_SIZE && fuel >= 3
    requires program[0] == DRAW_X && program[1] == MOVE_RIGHT && program[2] == END_HALT
    ensures var (r, outcome) := ExecuteProgram(Seed(Fresh(program), []), fuel);
      outcome == Finished(true) && r.lineNum == 3 && r.moves == 1 &&
      r.headPos == HEAD_START + 1 && r.tape[HEAD_START] == Letter(false, 0x78) &&
      forall k :: 0 <= k < TAPE_SIZE && k != HEAD_START ==> r.tape[k] == START
  {
    DrawMoveHaltWords();
    var s0 := Reset(Seed(Fresh(program), []));
    assert s0.tape == seq(TAPE_SIZE, _ => START);
    var s1 := Step(s0).0;
    MachineProperties.RunOneStep(s0, fuel);
    MachineProperties.StepDraw(s0);
    var s2 := Step(s1).0;
    MachineProperties.RunOneStep(s1, fuel - 1);
    MachineProperties.StepMove(s1);
    MachineProperties.RunOneStep(s2, fuel - 2);
    MachineProperties.StepEnd(s2);
  }

  /** The words of the second program: ALPHA 'a', CMP 'a', BRAC 0 on a set
      flag, END halting. */
  const ALPHA_A: Word := 0x0061
  const CMP_A: Word := 0x2061
  const BRAC_0: Word := 0x5000

  lemma LoopWords()
    ensures Decode(ALPHA_A) == Alpha(0x61)
    ensures Decode(CMP_A) == Cmp(0x61, false, false)
    ensures Decode(BRAC_0) == Brac(0, true)
  {
  }

  /** What holds at every step of the second program on the line "a": the
      program is in memory, 'a' is under the unmoved head, and the flag is
      set whenever the branch is next. */
  predicate Looping(s: State) {
    WellSized(s) && s.ram[0] == ALPHA_A && s.ram[1] == CMP_A && s.ram[2] == BRAC_0 &&
    s.headPos == HEAD_START && s.tape[HEAD_START] == Letter(false, 0x61) &&
    (s.pc == 0 || s.pc == 1 || (s.pc == 2 && s.eq))
  }

  lemma LoopingStep(s: State)
    requires Looping(s)
    ensures CanStep(s) && Step(s).1 == Running && Looping(Step(s).0)
  {
    LoopWords();
    if s.pc == 0 {
      MachineProperties.StepAlpha(s);
    } else if s.pc == 1 {
      MachineProperties.StepCmp(s);
    } else {
      MachineProperties.StepBranch(s);
    }
  }

  lemma {:induction false} LoopingRun(s: State, fuel: nat)
    requires Looping(s)
    ensures Run(s, fuel).1 == OutOfFuel
    decreases fuel
  {
    if fuel > 0 {
      LoopingStep(s);
      MachineProperties.RunOneStep(s, fuel);
      LoopingRun(Step(s).0, fuel - 1);
    }
  }

  /** On the line "a" the second program never halts: every bound on the
      number of steps runs out (its END is never reached, so only the first
      three words matter). */
  lemma LoopForever(program: seq<Word>, fuel: nat)
    requires |program| == RAM_SIZE
    requires program[0] == ALPHA_A && program[1] == CMP_A && program[2] == BRAC_0
    ensures ExecuteProgram(Seed(Fresh(program), [0x61]), fuel).1 == OutOfFuel
  {
    var s := Seed(Fresh(program), [0x61]);
    MachineProperties.SeedPrefixAt(Fresh(program).tape, [0x61], 1, HEAD_START);
    LoopingRun(Reset(s), fuel);
  }
}
