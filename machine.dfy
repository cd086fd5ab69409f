/** The machine as the engine sees it: one object whose fields the engine
    updates in place, its fetch-decode-execute loop, the seeding of one
    input line onto its tape, and the command-line suffix search. */
module TuringMachine {
  import opened Encodings
  import opened MachineSpec
  import MachineProperties

  class Machine {
    var tape: array<Letter>
    var ram: array<Word>
    /** The instruction register's word and its step counter. */
    var ir: Word
    var lineNum: int
    var pc: UWord
    var eq: bool
    var alpha: array<bool>
    var headPos: int
    var moves: int

    ghost predicate Valid()
      reads this
    {
      tape.Length == TAPE_SIZE && ram.Length == RAM_SIZE && alpha.Length == ALPHABET_SIZE
    }

    /** The machine's current state as a value. */
    ghost function Model(): (s: State)
      reads this, tape, ram, alpha
      ensures Valid() ==> WellSized(s)
    {
      State(tape[..], ram[..], ir, lineNum, pc, eq, alpha[..], headPos, moves)
    }

    /** A machine holding `program` in its memory, everything else at its
        initial value. */
    constructor (program: seq<Word>)
      requires |program| == RAM_SIZE
      ensures Valid() && fresh(tape) && fresh(ram) && fresh(alpha)
      ensures Model() == Fresh(program)
    {
      tape := new Letter[TAPE_SIZE](_ => START);
      ram := new Word[RAM_SIZE](k requires 0 <= k < RAM_SIZE => program[k]);
      alpha := new bool[ALPHABET_SIZE](_ => false);
      ir, lineNum, pc, eq, headPos, moves := 0, 0, 0, false, HEAD_START, 0;
      new;
      assert tape[..] == seq(TAPE_SIZE, _ => START);
      assert ram[..] == program;
      assert alpha[..] == seq(ALPHABET_SIZE, _ => false);
    }

    /** Whether the next step is defined. */
    predicate Ready()
      reads this, tape, ram, alpha
      requires Valid()
      ensures Ready() == CanStep(Model())
    {
      pc < RAM_SIZE && (ReadsTape(Decode(ram[pc]), eq) ==> 0 <= headPos < tape.Length)
    }

    /** One iteration of the engine's loop: fetch the word at the program
        counter into the instruction register, advance the program counter,
        execute the decoded instruction, count it. */
    method Step() returns (status: Status)
      requires Valid() && CanStep(Model())
      modifies this, tape, alpha
      ensures Valid() && tape == old(tape) && ram == old(ram) && alpha == old(alpha)
      ensures (Model(), status) == MachineSpec.Step(old(Model()))
    {
      ir := ram[pc];
      pc := Increment(pc);
      status := Execute(Decode(ir));
      lineNum := lineNum + 1;
    }

    /** The body of the engine's switch: one decoded instruction. */
    method Execute(i: Instr) returns (status: Status)
      requires Valid() && (ReadsTape(i, eq) ==> 0 <= headPos < tape.Length)
      modifies this, tape, alpha
      ensures Valid() && tape == old(tape) && ram == old(ram) && alpha == old(alpha)
      ensures (Model(), status) == MachineSpec.Execute(old(Model()), i)
    {
      status := Running;
      match i
      case Alpha(l) =>
        alpha[l as int] := true;
      case Bra(a) =>
        pc := a as int;
      case Brac(a, e) =>
        if eq && e {
          pc := a as int;
        } else if !eq && !e {
          pc := a as int;
        }
      case Cmp(l, b, o) =>
        if o {
          if b {
            eq := eq || tape[headPos].blank;
          } else {
            eq := eq || (!tape[headPos].blank && l == tape[headPos].character);
          }
        } else {
          if b {
            eq := tape[headPos].blank;
          } else {
            eq := !tape[headPos].blank && l == tape[headPos].character;
          }
        }
      case Draw(l, b) =>
        if b {
          tape[headPos] := tape[headPos].(blank := true);
        } else {
          tape[headPos] := Letter(false, l);
        }
      case End(h) =>
        if h {
          status := Halted;
        } else {
          status := Failed;
        }
      case Move(left) =>
        moves := moves + 1;
        if left {
          headPos := headPos - 1;
        } else {
          headPos := headPos + 1;
        }
      case Unknown =>
    }

    /** The engine: reset the counters and the program counter, then step
        until END executes, for at most `fuel` steps, stopping early when
        the next step would be undefined. */
    method ExecuteProgram(fuel: nat) returns (outcome: Outcome)
      requires Valid()
      modifies this, tape, alpha
      ensures Valid() && tape == old(tape) && ram == old(ram) && alpha == old(alpha)
      ensures (Model(), outcome) == MachineSpec.ExecuteProgram(old(Model()), fuel)
      ensures outcome.Finished? ==> Decode(ir) == End(outcome.halt)
    {
      lineNum := 0;
      pc := 0;
      ir := ram[pc];
      assert Model() == Reset(old(Model()));
      ghost var goal := MachineSpec.ExecuteProgram(old(Model()), fuel);
      var halt, fail := false, false;
      var remaining := fuel;
      while !(halt || fail) && remaining > 0
        invariant Valid() && tape == old(tape) && ram == old(ram) && alpha == old(alpha)
        invariant !(halt || fail) ==> Run(Model(), remaining) == goal
        invariant halt ==> (Model(), Finished(true)) == goal
        invariant fail ==> (Model(), Finished(false)) == goal
      {
        if !Ready() {
          return Stuck;
        }
        ghost var before := Model();
        MachineProperties.RunOneStep(before, remaining);
        var status := Step();
        halt := status == Halted;
        fail := status == Failed;
        remaining := remaining - 1;
      }
      outcome := if halt then Finished(true) else if fail then Finished(false) else OutOfFuel;
      MachineProperties.RunFinishesAtEnd(Reset(old(Model())), fuel);
    }

    /** Writes one input line onto the tape from HEAD_START on. */
    method SeedLine(line: seq<bv8>)
      requires Valid() && HEAD_START + |line| <= TAPE_SIZE
      modifies tape
      ensures Valid()
      ensures Model() == Seed(old(Model()), line)
      ensures forall k :: 0 <= k < TAPE_SIZE ==>
        tape[k] == if HEAD_START <= k < HEAD_START + |line| then Letter(false, line[k - HEAD_START]) else old(tape[k])
    {
      for z := 0 to |line|
        invariant tape[..] == SeedPrefix(old(tape[..]), line, z)
      {
        var location := HEAD_START + z;
        tape[location] := Letter(false, line[z]);
      }
      forall k | 0 <= k < TAPE_SIZE
        ensures tape[k] == if HEAD_START <= k < HEAD_START + |line| then Letter(false, line[k - HEAD_START]) else old(tape[k])
      {
        MachineProperties.SeedPrefixAt(old(tape[..]), line, |line|, k);
      }
    }
  }

  /** One input case: a fresh machine holding `program`, seeded with `line`
      and run for at most `fuel` steps; the outcome and the two counters. */
  method RunLine(program: seq<Word>, line: seq<bv8>, fuel: nat) returns (outcome: Outcome, steps: int, moved: int)
    requires |program| == RAM_SIZE && HEAD_START + |line| <= TAPE_SIZE
    ensures var (r, o) := MachineSpec.ExecuteProgram(Seed(Fresh(program), line), fuel);
      outcome == o && steps == r.lineNum && moved == r.moves
  {
    var m := new Machine(program);
    m.SeedLine(line);
    outcome := m.ExecuteProgram(fuel);
    steps, moved := m.lineNum, m.moves;
  }

  /** Whether `argument` ends with `suffix`: whether some prefix followed
      by `suffix` spells `argument`. */
  predicate EndsWith(argument: string, suffix: string)
    ensures EndsWith(argument, suffix) <==> exists prefix :: argument == prefix + suffix
  {
    if |argument| >= |suffix| then
      var prefix := argument[..|argument| - |suffix|];
      assert argument == prefix + argument[|argument| - |suffix|..];
      argument[|argument| - |suffix|..] == suffix
    else
      assert forall prefix :: |prefix + suffix| > |argument|;
      false
  }

  /** The first argument that ends with `suffix`, or -1 when none does. */
  method GetFileOfType(args: seq<string>, suffix: string) returns (result: int)
    ensures -1 <= result < |args|
    ensures result == -1 <==> forall i :: 0 <= i < |args| ==> !EndsWith(args[i], suffix)
    ensures result != -1 ==>
      EndsWith(args[result], suffix) && forall j :: 0 <= j < result ==> !EndsWith(args[j], suffix)
  {
    var i := 0;
    result := -1;
    while i < |args| && result == -1
      invariant 0 <= i <= |args| && -1 <= result < i
      invariant result == -1 ==> forall j :: 0 <= j < i ==> !EndsWith(args[j], suffix)
      invariant result != -1 ==>
        EndsWith(args[result], suffix) && forall j :: 0 <= j < result ==> !EndsWith(args[j], suffix)
    {
      var argument := args[i];
      if |argument| >= |suffix| && argument[|argument| - |suffix|..] == suffix {
        result := i;
      }
      i := i + 1;
    }
  }
}
