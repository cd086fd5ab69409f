/** The machine as a value: its state, one fetch-decode-execute step, and a
    run of steps bounded by fuel.  The imperative machine in module
    TuringMachine is proved to compute exactly these functions. */
module MachineSpec {
  import opened Encodings

  const TAPE_SIZE := 20000
  const RAM_SIZE := 4096
  const ALPHABET_SIZE := 256
  /** Where the head starts and where an input line is written. */
  const HEAD_START := 10000

  /** The program counter's type: an unsigned 16-bit value, kept as an integer. */
  type UWord = x: int | 0 <= x < 0x1_0000

  /** The 16-bit increment of the program counter, wrap-around included. */
  function Increment(x: UWord): (r: UWord)
    ensures r == (x + 1) % 0x1_0000
  {
    if x + 1 == 0x1_0000 then 0 else x + 1
  }

  /** One tape cell: a blank flag and a character (a byte). */
  datatype Letter = Letter(blank: bool, character: bv8)

  /** The value every cell of a fresh tape holds. */
  const START := Letter(true, 0)

  /** The whole machine: tape, instruction memory, instruction register and
      its step counter, program counter, equality flag, the declared
      alphabet, the head position and the move counter. */
  datatype State = State(
    tape: seq<Letter>,
    ram: seq<Word>,
    ir: Word,
    lineNum: int,
    pc: UWord,
    eq: bool,
    alpha: seq<bool>,
    headPos: int,
    moves: int)

  /** Tape, memory and alphabet have the sizes of the machine's arrays. */
  predicate WellSized(s: State) {
    |s.tape| == TAPE_SIZE && |s.ram| == RAM_SIZE && |s.alpha| == ALPHABET_SIZE
  }

  /** A fresh machine holding `program`: blank tape, head at HEAD_START,
      flag clear, nothing declared, counters at zero. */
  function Fresh(program: seq<Word>): (s: State)
    requires |program| == RAM_SIZE
    ensures WellSized(s)
  {
    State(seq(TAPE_SIZE, _ => START), program, 0, 0, 0, false,
          seq(ALPHABET_SIZE, _ => false), HEAD_START, 0)
  }

  /** Whether executing `i` with flag `eq` reads or writes the cell under
      the head.  DRAW always does; CMP does unless `oring` is set and the
      flag already is, where `eq || ...` stops before the cell is read. */
  predicate ReadsTape(i: Instr, eq: bool) {
    i.Draw? || (i.Cmp? && !(i.oring && eq))
  }

  predicate HeadInRange(s: State) {
    0 <= s.headPos < |s.tape|
  }

  /** The next step is defined: the program counter addresses memory, and
      the instruction there reads the tape only while the head is on it. */
  predicate CanStep(s: State)
    requires WellSized(s)
    ensures CanStep(s) ==> s.pc < RAM_SIZE
    ensures s.pc < RAM_SIZE && !Decode(Fetched(s)).Cmp? && !Decode(Fetched(s)).Draw? ==> CanStep(s)
  {
    s.pc < RAM_SIZE && (ReadsTape(Decode(Fetched(s)), s.eq) ==> HeadInRange(s))
  }

  /** CMP's test of one cell, shared by `Execute` and the imperative
      machine: blank when `blank` is set, otherwise non-blank and holding
      `letter`.  Characters compare as bytes. */
  predicate Matches(letter: bv8, blank: bool, cell: Letter)
  {
    if blank then cell.blank else !cell.blank && cell.character == letter
  }

  /** Where a step leaves the machine. */
  datatype Status = Running | Halted | Failed

  /** The body of the switch: executing one decoded instruction. */
  function Execute(s: State, i: Instr): (r: (State, Status))
    requires WellSized(s)
    requires ReadsTape(i, s.eq) ==> HeadInRange(s)
    ensures !i.End? ==> r.1 == Running
    ensures i.End? ==> r == (s, if i.halt then Halted else Failed)
    ensures !i.Draw? ==> r.0.tape == s.tape
  {
    match i
    case Alpha(l) =>
      (s.(alpha := s.alpha[l as int := true]), Running)
    case Bra(a) =>
      (s.(pc := a as int), Running)
    case Brac(a, e) =>
      if (s.eq && e) || (!s.eq && !e) then (s.(pc := a as int), Running) else (s, Running)
    case Cmp(l, b, o) =>
      var eq := if o then s.eq || Matches(l, b, s.tape[s.headPos]) else Matches(l, b, s.tape[s.headPos]);
      (s.(eq := eq), Running)
    case Draw(l, b) =>
      var cell := s.tape[s.headPos];
      var drawn := if b then cell.(blank := true) else Letter(false, l);
      (s.(tape := s.tape[s.headPos := drawn]), Running)
    case End(h) =>
      (s, if h then Halted else Failed)
    case Move(left) =>
      (s.(moves := s.moves + 1, headPos := if left then s.headPos - 1 else s.headPos + 1), Running)
    case Unknown =>
      (s, Running)
  }

  /** The word a step fetches. */
  function Fetched(s: State): Word
    requires WellSized(s) && s.pc < RAM_SIZE
  {
    s.ram[s.pc]
  }

  /** One iteration of the loop: fetch, advance the program counter,
      execute, count the instruction. */
  function Step(s: State): (r: (State, Status))
    requires WellSized(s) && CanStep(s)
    ensures WellSized(r.0)
    ensures r.0.ram == s.ram && r.0.ir == Fetched(s) && r.0.lineNum == s.lineNum + 1
    ensures r.1 != Running <==> Decode(Fetched(s)).End?
  {
    var w := Fetched(s);
    var (t, status) := Execute(s.(ir := w, pc := Increment(s.pc)), Decode(w));
    (t.(lineNum := t.lineNum + 1), status)
  }

  /** How a bounded run ends: END executed with its halt bit, the fuel ran
      out, or the next step is undefined (memory or tape out of range). */
  datatype Outcome = Finished(halt: bool) | OutOfFuel | Stuck

  /** Up to `fuel` steps, stopping at the first END. */
  function Run(s: State, fuel: nat): (r: (State, Outcome))
    requires WellSized(s)
    ensures WellSized(r.0) && r.0.ram == s.ram
    decreases fuel
  {
    if fuel == 0 then (s, OutOfFuel)
    else if !CanStep(s) then (s, Stuck)
    else
      var (t, status) := Step(s);
      match status
      case Running => Run(t, fuel - 1)
      case Halted => (t, Finished(true))
      case Failed => (t, Finished(false))
  }

  /** What the engine does before its loop: clear the step counter, start at
      address 0 and load the word there into the instruction register. */
  function Reset(s: State): (r: State)
    requires WellSized(s)
    ensures WellSized(r)
  {
    s.(lineNum := 0, pc := 0, ir := s.ram[0])
  }

  /** The engine with a bound of `fuel` steps. */
  function ExecuteProgram(s: State, fuel: nat): (r: (State, Outcome))
    requires WellSized(s)
    ensures WellSized(r.0) && r.0.ram == s.ram
  {
    Run(Reset(s), fuel)
  }

  /** The tape after the first `n` characters of `line` are written from
      HEAD_START on, in order, as the seeding loop does. */
  function SeedPrefix(tape: seq<Letter>, line: seq<bv8>, n: nat): (r: seq<Letter>)
    requires n <= |line| && HEAD_START + |line| <= |tape|
    ensures |r| == |tape|
  {
    if n == 0 then tape
    else SeedPrefix(tape, line, n - 1)[HEAD_START + n - 1 := Letter(false, line[n - 1])]
  }

  /** The machine with one input line seeded onto its tape. */
  function Seed(s: State, line: seq<bv8>): (r: State)
    requires WellSized(s) && HEAD_START + |line| <= TAPE_SIZE
    ensures WellSized(r)
  {
    s.(tape := SeedPrefix(s.tape, line, |line|))
  }
}
