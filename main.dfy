/**
 * The simulator's driver program, and sample inputs for the decrement,
 * 8-bit-increment and malformed-group paths, stated against the processor model.
 */
module Driver {
  import opened Wrappers
  import opened Architecture

  /** The driver's program decodes to the four opcodes it spells. */
  lemma DriverProgramDecodes(code: seq<u8>)
    requires code == [0x40, 0x41, 0x43, 0x90]
    ensures Scan(code) == Decoded([Increment(AX), Increment(CX), Increment(BX), Noop], 4, None)
  {
    assert OneByte(0x90) == Noop && OneByte(0x43) == Increment(BX);
    assert OneByte(0x41) == Increment(CX) && OneByte(0x40) == Increment(AX);
    assert code[3..][1..] == [];
    assert Scan(code[3..]) == Decoded([Noop], 1, None);
    assert code[2..][1..] == code[3..];
    assert Scan(code[2..]) == Decoded([Increment(BX), Noop], 2, None);
    assert code[1..][1..] == code[2..];
    assert Scan(code[1..]) == Decoded([Increment(CX), Increment(BX), Noop], 3, None);
  }

  /** Its four opcodes take the zeroed registers to AX = CX = BX = 1, DX = 0. */
  lemma DriverProgramRuns(ops: seq<Opcode>)
    requires ops == [Increment(AX), Increment(CX), Increment(BX), Noop]
    ensures Run(MainZero, ops) == MainRegisters(1, 1, 1, 0)
  {
    var one := ops[..1];
    var two := ops[..2];
    var three := ops[..3];
    assert one[..0] == [] && two[..1] == one && three[..2] == two && ops[..3] == three;
    assert Run(MainZero, one) == MainRegisters(1, 0, 0, 0);
    assert Run(MainZero, two) == MainRegisters(1, 0, 1, 0);
    assert Run(MainZero, three) == MainRegisters(1, 1, 1, 0);
  }

  /**
   * The driver: a processor over INC AX, INC CX, INC BX, NOP, decoded and
   * then executed. AX, CX and BX end at 1, DX at 0, and the pointer at 4.
   */
  method RunDriverProgram() returns (p: Processor, fault: Option<DecodeError>)
    ensures fault == None
    ensures p.quasiCompiled == [Increment(AX), Increment(CX), Increment(BX), Noop]
    ensures p.Main() == MainRegisters(1, 1, 1, 0)
    ensures p.ip == 4 && p.Flags() == AllClear && p.Wide() == WideZero
  {
    var code: seq<u8> := [0x40, 0x41, 0x43, 0x90];
    DriverProgramDecodes(code);
    p := new Processor.Default(code);
    assert code[0..] == code;
    fault := p.CompileByteCodeToQuasiCompiled();
    p.ExecuteQuasiCompiled();
    DriverProgramRuns(p.quasiCompiled);
  }

  /** A decrement decodes but has no effect. */
  lemma DecrementIsSkipped()
    ensures Scan([0x48]) == Decoded([Decrement(AX)], 1, None)
    ensures Run(MainZero, Scan([0x48]).ops) == MainZero
  {
    var c: seq<u8> := [0x48];
    assert c[1..] == [];
  }

  /** An 8-bit increment takes two bytes and has no effect. */
  lemma ByteIncrementIsSkipped()
    ensures Scan([0xFE, 0xC0]) == Decoded([Increment(AL)], 2, None)
    ensures Run(MainZero, Scan([0xFE, 0xC0]).ops) == MainZero
  {
    var c: seq<u8> := [0xFE, 0xC0];
    assert c[2..] == [];
  }

  /** An unlisted second byte and a lone group lead at the end are decode faults. */
  lemma MalformedGroups()
    ensures Scan([0xFE, 0x00]) == Decoded([], 1, Some(UnknownSecondary(0xFE, 0x00)))
    ensures Scan([0x40, 0xFC]) == Decoded([Increment(AX)], 2, Some(TruncatedGroup(0xFC)))
  {
    var c: seq<u8> := [0x40, 0xFC];
    assert c[1..] == [0xFC];
  }
}
