/** What one step of each opcode does and what a whole run keeps. */
module MachineProperties {
  import opened Encodings
  import opened MachineSpec

  /** The state after the fetch and the step count alone: the instruction
      register holds the fetched word and the program counter has moved on. */
  function Advanced(s: State): State
    requires WellSized(s) && s.pc < RAM_SIZE
  {
    s.(ir := Fetched(s), pc := s.pc + 1, lineNum := s.lineNum + 1)
  }

  /** Every step leaves the program counter one past the fetched word,
      except BRA and a BRAC whose condition holds; since the fetched address
      is below RAM_SIZE, the 16-bit increment never wraps. */
  lemma StepPc(s: State)
    requires WellSized(s) && CanStep(s)
    ensures var i := Decode(Fetched(s));
      !i.Bra? && !(i.Brac? && s.eq == i.eq) ==>
        Step(s).0.pc == s.pc + 1
  {
    ExecuteKeepsPc(s.(ir := Fetched(s), pc := s.pc + 1), Decode(Fetched(s)));
  }

  /** Only BRA and a taken BRAC write the program counter. */
  lemma ExecuteKeepsPc(s: State, i: Instr)
    requires WellSized(s) && (ReadsTape(i, s.eq) ==> HeadInRange(s))
    ensures !i.Bra? && !(i.Brac? && s.eq == i.eq) ==> Execute(s, i).0.pc == s.pc
  {
  }

  /** BRA always jumps; BRAC jumps exactly when the flag equals its `eq`
      bit and otherwise falls through.  Nothing else changes. */
  lemma StepBranch(s: State)
    requires WellSized(s) && CanStep(s)
    ensures var i := Decode(Fetched(s));
      (i.Bra? ==> Step(s) == (Advanced(s).(pc := i.addr as int), Running)) &&
      (i.Brac? && s.eq == i.eq ==> Step(s) == (Advanced(s).(pc := i.addr as int), Running)) &&
      (i.Brac? && s.eq != i.eq ==> Step(s) == (Advanced(s), Running))
  {
    ExecuteBranch(s.(ir := Fetched(s), pc := s.pc + 1), Decode(Fetched(s)));
  }

  lemma ExecuteBranch(s: State, i: Instr)
    requires WellSized(s) && (ReadsTape(i, s.eq) ==> HeadInRange(s))
    ensures i.Bra? ==> Execute(s, i) == (s.(pc := i.addr as int), Running)
    ensures i.Brac? && s.eq == i.eq ==> Execute(s, i) == (s.(pc := i.addr as int), Running)
    ensures i.Brac? && s.eq != i.eq ==> Execute(s, i) == (s, Running)
  {
  }

  /** A branch address holds 12 bits, so a step leaves the program counter
      at most one past the end of memory, and only when it advances from the
      last word. */
  lemma StepPcBound(s: State)
    requires WellSized(s) && CanStep(s)
    ensures Step(s).0.pc <= RAM_SIZE
    ensures Step(s).0.pc == RAM_SIZE ==> s.pc == RAM_SIZE - 1
  {
    StepPc(s);
    StepBranch(s);
  }

  /** CMP sets only the flag.  Without `oring` the flag becomes the match;
      with `oring` a set flag stays set and a clear one becomes the match.
      The match is "the cell is blank" when `blank` is set and "the cell is
      non-blank and holds `letter`" otherwise. */
  lemma StepCmp(s: State)
    requires WellSized(s) && CanStep(s) && Decode(Fetched(s)).Cmp?
    ensures var i, r := Decode(Fetched(s)), Step(s).0;
      Step(s).1 == Running &&
      r == Advanced(s).(eq := r.eq) &&
      (i.oring && s.eq ==> r.eq) &&
      (!(i.oring && s.eq) && i.blank ==> r.eq == s.tape[s.headPos].blank) &&
      (!(i.oring && s.eq) && !i.blank ==>
        r.eq == (!s.tape[s.headPos].blank && s.tape[s.headPos].character == i.letter))
  {
  }

  /** CMP with `oring` on a set flag never reads the tape: it is defined
      wherever the head is, and changes nothing beyond the fetch. */
  lemma StepCmpOringSetFlag(s: State)
    requires WellSized(s) && s.pc < RAM_SIZE && s.eq
    requires Decode(Fetched(s)).Cmp? && Decode(Fetched(s)).oring
    ensures CanStep(s) && Step(s) == (Advanced(s), Running)
  {
  }

  /** DRAW changes only the cell under the head: with `blank` set it marks
      the cell blank and keeps its character, otherwise it writes `letter`. */
  lemma StepDraw(s: State)
    requires WellSized(s) && CanStep(s) && Decode(Fetched(s)).Draw?
    ensures var i, r, h := Decode(Fetched(s)), Step(s).0, s.headPos;
      Step(s).1 == Running &&
      r == Advanced(s).(tape := r.tape) &&
      |r.tape| == |s.tape| &&
      (forall k :: 0 <= k < |s.tape| && k != h ==> r.tape[k] == s.tape[k]) &&
      r.tape[h].blank == i.blank &&
      (i.blank ==> r.tape[h].character == s.tape[h].character) &&
      (!i.blank ==> r.tape[h].character == i.letter)
  {
  }

  /** A cell that DRAW wrote with a letter matches CMP of that letter,
      whichever letter it is. */
  lemma DrawThenCmpMatches(s: State, l: bv8, oring: bool)
    requires WellSized(s) && HeadInRange(s)
    ensures var t := Execute(s, Draw(l, false)).0;
      WellSized(t) && HeadInRange(t) && Execute(t, Cmp(l, false, oring)).0.eq
  {
  }

  /** CMP's tests sort every cell one way only: the blank test matches a
      cell exactly when no letter test does, whatever letter it carries,
      and no two letters' tests match the same cell. */
  lemma CmpTestsExclusive(c: Letter, l: bv8, m: bv8)
    ensures Matches(l, true, c) <==> forall n: bv8 :: !Matches(n, false, c)
    ensures Matches(l, true, c) == Matches(m, true, c)
    ensures Matches(l, false, c) && Matches(m, false, c) ==> l == m
  {
    if !c.blank {
      assert Matches(c.character, false, c);
    }
  }

  /** MOVE shifts the head by exactly one cell and counts the move. */
  lemma StepMove(s: State)
    requires WellSized(s) && CanStep(s) && Decode(Fetched(s)).Move?
    ensures var i, r := Decode(Fetched(s)), Step(s).0;
      Step(s).1 == Running &&
      r == Advanced(s).(headPos := r.headPos, moves := r.moves) &&
      r.headPos == s.headPos + (if i.left then -1 else 1) &&
      r.moves == s.moves + 1
  {
  }

  /** MOVE is the only instruction that changes the head or the move count. */
  lemma StepOnlyMoveMoves(s: State)
    requires WellSized(s) && CanStep(s) && !Decode(Fetched(s)).Move?
    ensures Step(s).0.headPos == s.headPos && Step(s).0.moves == s.moves
  {
  }

  /** ALPHA declares its letter and changes nothing else. */
  lemma StepAlpha(s: State)
    requires WellSized(s) && CanStep(s) && Decode(Fetched(s)).Alpha?
    ensures var l, r := Decode(Fetched(s)).letter as int, Step(s).0;
      Step(s).1 == Running &&
      r == Advanced(s).(alpha := r.alpha) &&
      |r.alpha| == |s.alpha| && r.alpha[l] &&
      (forall k :: 0 <= k < |s.alpha| && k != l ==> r.alpha[k] == s.alpha[k])
  {
  }

  /** No step clears a declared letter. */
  lemma StepKeepsAlpha(s: State)
    requires WellSized(s) && CanStep(s)
    ensures forall k :: 0 <= k < ALPHABET_SIZE && s.alpha[k] ==> Step(s).0.alpha[k]
  {
  }

  /** END stops the step with its halt bit and changes nothing but the fetch. */
  lemma StepEnd(s: State)
    requires WellSized(s) && CanStep(s) && Decode(Fetched(s)).End?
    ensures Step(s) == (Advanced(s), if Decode(Fetched(s)).halt then Halted else Failed)
  {
  }

  /** Opcode 7 does nothing beyond the fetch and the step count. */
  lemma StepUnknown(s: State)
    requires WellSized(s) && CanStep(s) && Decode(Fetched(s)) == Unknown
    ensures Step(s) == (Advanced(s), Running)
  {
  }

  /** No instruction reads the alphabet: a step from a state that differs
      only in its alphabet has the same status and a result that differs
      only in its alphabet. */
  lemma StepIgnoresAlpha(s: State, a: seq<bool>)
    requires WellSized(s) && CanStep(s) && |a| == ALPHABET_SIZE
    ensures var t := s.(alpha := a);
      WellSized(t) && CanStep(t) &&
      Step(t).1 == Step(s).1 &&
      Step(t).0.(alpha := Step(s).0.alpha) == Step(s).0
  {
    var w := Fetched(s);
    ExecuteIgnoresAlpha(s.(ir := w, pc := Increment(s.pc)), Decode(w), a);
  }

  lemma ExecuteIgnoresAlpha(s: State, i: Instr, a: seq<bool>)
    requires WellSized(s) && (ReadsTape(i, s.eq) ==> HeadInRange(s)) && |a| == ALPHABET_SIZE
    ensures var t := s.(alpha := a);
      WellSized(t) &&
      Execute(t, i).1 == Execute(s, i).1 &&
      Execute(t, i).0.(alpha := Execute(s, i).0.alpha) == Execute(s, i).0
  {
  }

  /** A run of at least one step from a state that can step: the step,
      then the rest of the run unless the step executed END. */
  lemma RunOneStep(s: State, fuel: nat)
    requires WellSized(s) && fuel > 0 && CanStep(s)
    ensures Step(s).1 == Running ==> Run(s, fuel) == Run(Step(s).0, fuel - 1)
    ensures Step(s).1 == Halted ==> Run(s, fuel) == (Step(s).0, Finished(true))
    ensures Step(s).1 == Failed ==> Run(s, fuel) == (Step(s).0, Finished(false))
  {
  }

  /** A run never clears a declared letter. */
  lemma {:induction false} RunKeepsAlpha(s: State, fuel: nat)
    requires WellSized(s)
    ensures forall k :: 0 <= k < ALPHABET_SIZE && s.alpha[k] ==> Run(s, fuel).0.alpha[k]
    decreases fuel
  {
    if fuel > 0 && CanStep(s) {
      StepKeepsAlpha(s);
      var (t, status) := Step(s);
      if status == Running {
        RunKeepsAlpha(t, fuel - 1);
      }
    }
  }

  /** A run finishes only by executing END, which is left in the instruction
      register, and its outcome is that instruction's halt bit. */
  lemma {:induction false} RunFinishesAtEnd(s: State, fuel: nat)
    requires WellSized(s)
    ensures var (r, outcome) := Run(s, fuel);
      outcome.Finished? ==> Decode(r.ir) == End(outcome.halt)
    decreases fuel
  {
    if fuel > 0 && CanStep(s) {
      var (t, status) := Step(s);
      if status == Running {
        RunFinishesAtEnd(t, fuel - 1);
      } else {
        assert Decode(t.ir).End?;
      }
    }
  }

  /** The step counter counts the instructions executed: a run that used up
      its fuel executed exactly `fuel` of them, one that finished at least one,
      and none executed more than `fuel`. */
  lemma {:induction false} RunCountsSteps(s: State, fuel: nat)
    requires WellSized(s)
    ensures var (r, outcome) := Run(s, fuel);
      s.lineNum <= r.lineNum <= s.lineNum + fuel &&
      (outcome == OutOfFuel ==> r.lineNum == s.lineNum + fuel) &&
      (outcome == Stuck ==> r.lineNum < s.lineNum + fuel) &&
      (outcome.Finished? ==> s.lineNum < r.lineNum)
    decreases fuel
  {
    if fuel > 0 && CanStep(s) {
      var (t, status) := Step(s);
      if status == Running {
        RunCountsSteps(t, fuel - 1);
      }
    }
  }

  /** Once a run ends other than by running out of fuel, more fuel changes nothing. */
  lemma {:induction false} RunMoreFuel(s: State, fuel: nat, more: nat)
    requires WellSized(s) && fuel <= more && Run(s, fuel).1 != OutOfFuel
    ensures Run(s, more) == Run(s, fuel)
    decreases fuel
  {
    if CanStep(s) {
      var (t, status) := Step(s);
      if status == Running {
        RunMoreFuel(t, fuel - 1, more - 1);
      }
    }
  }

  /** A finished run used exactly as many steps as its counter says: with
      that much fuel it finishes the same way, with one less it does not. */
  lemma {:induction false} RunExactFuel(s: State, fuel: nat)
    requires WellSized(s) && Run(s, fuel).1.Finished?
    ensures var n := Run(s, fuel).0.lineNum - s.lineNum;
      1 <= n <= fuel && Run(s, n) == Run(s, fuel) && Run(s, n - 1).1 == OutOfFuel
    decreases fuel
  {
    RunCountsSteps(s, fuel);
    var (t, status) := Step(s);
    if status == Running {
      RunExactFuel(t, fuel - 1);
    }
  }

  /** The head moves at most one cell per move, and at most one move is made
      per step. */
  lemma {:induction false} RunHeadBoundedByMoves(s: State, fuel: nat)
    requires WellSized(s)
    ensures var r := Run(s, fuel).0;
      -(r.moves - s.moves) <= r.headPos - s.headPos <= r.moves - s.moves &&
      r.moves - s.moves <= r.lineNum - s.lineNum
    decreases fuel
  {
    if fuel > 0 && CanStep(s) {
      var (t, status) := Step(s);
      if Decode(Fetched(s)).Move? {
        StepMove(s);
      } else {
        StepOnlyMoveMoves(s);
      }
      if status == Running {
        RunHeadBoundedByMoves(t, fuel - 1);
      }
    }
  }

  /** No run reads the alphabet: runs from states that differ only in their
      alphabet end the same way, in states that differ only in their alphabet. */
  lemma {:induction false} RunIgnoresAlpha(s: State, a: seq<bool>, fuel: nat)
    requires WellSized(s) && |a| == ALPHABET_SIZE
    ensures var (r, outcome) := Run(s, fuel);
      var (r', outcome') := Run(s.(alpha := a), fuel);
      outcome' == outcome && r'.(alpha := r.alpha) == r
    decreases fuel
  {
    if fuel > 0 && CanStep(s) {
      StepIgnoresAlpha(s, a);
      var (t, status) := Step(s);
      if status == Running {
        var t' := Step(s.(alpha := a)).0;
        assert t' == t.(alpha := t'.alpha);
        RunIgnoresAlpha(t, t'.alpha, fuel - 1);
      }
    }
  }

  /** Seeding writes character z of the line, non-blank, into cell
      HEAD_START + z, and leaves every other cell as it was. */
  lemma {:induction false} SeedPrefixAt(tape: seq<Letter>, line: seq<bv8>, n: nat, k: int)
    requires n <= |line| && HEAD_START + |line| <= |tape| && 0 <= k < |tape|
    ensures SeedPrefix(tape, line, n)[k] ==
      if HEAD_START <= k < HEAD_START + n then Letter(false, line[k - HEAD_START]) else tape[k]
    decreases n
  {
    if n > 0 {
      SeedPrefixAt(tape, line, n - 1, k);
    }
  }
}
