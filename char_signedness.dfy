/** CMP as the source writes it compares the letter field, an unsigned
    value 0..255, with a cell's `char`.  Where `char` is signed, a cell
    holding a byte of 0x80 or more reads as a negative number, so the
    comparison fails for exactly the letters 0x80..0xFF. */
module CharSignedness {
  import opened Encodings
  import opened MachineSpec

  /** The value a signed (two's complement) `char` holding byte `c` has. */
  function SignedValue(c: bv8): (v: int)
    ensures -128 <= v < 128
    ensures v % 256 == c as int
    ensures v == c as int <==> c < 0x80
  {
    if c < 0x80 then c as int else c as int - 256
  }

  /** CMP's test of one cell as written, with a signed `char`. */
  predicate MatchesAsWritten(letter: bv8, blank: bool, cell: Letter)
    ensures MatchesAsWritten(letter, blank, cell) ==> Matches(letter, blank, cell)
  {
    if blank then cell.blank else !cell.blank && letter as int == SignedValue(cell.character)
  }

  /** The test as written agrees with the byte comparison when the letter
      is below 0x80 or the test is for a blank; for any other letter it
      never matches. */
  lemma AsWrittenAgrees(letter: bv8, blank: bool, cell: Letter)
    ensures letter < 0x80 || blank ==> MatchesAsWritten(letter, blank, cell) == Matches(letter, blank, cell)
    ensures letter >= 0x80 && !blank ==> !MatchesAsWritten(letter, blank, cell)
  {
  }

  /** The discrepancy: a cell that DRAW 0x80 wrote does not match CMP 0x80
      as written, while it does match under the byte comparison the model
      uses. */
  lemma AsWrittenMissesDrawnLetter()
    ensures Matches(0x80, false, Letter(false, 0x80))
    ensures !MatchesAsWritten(0x80, false, Letter(false, 0x80))
  {
    assert SignedValue(0x80) == -128;
  }
}
