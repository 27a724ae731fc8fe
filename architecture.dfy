/**
 * Model of the `Processor` of a minimal 8086 instruction-set simulator.
 *
 * The simulator runs in two phases: a decoder turns the raw byte buffer into
 * a sequence of typed opcodes, advancing the instruction pointer as bytes
 * are consumed, and an interpreter folds that sequence over the registers.
 *
 * Each phase is a method of the class `Processor` proved against a pure
 * specification function: `Scan` for the decoder and `Run` for the
 * interpreter. The lemmas relate those functions to independent reference
 * definitions (the encoder `Encode`, the byte counter `GroupLeaders`,
 * multiset counts of opcodes).
 */
module Architecture {
  import opened Wrappers

  /** Unsigned integers of the widths the source uses. */
  newtype u8 = x: int | 0 <= x < 0x100
  newtype u16 = x: int | 0 <= x < 0x1_0000

  // ---------------------------------------------------------------------
  // Data model
  // ---------------------------------------------------------------------

  datatype Register =
    | AX | AL | AH | BX | BH | BL | CX | CH | CL | DX | DH | DL  // main registers
    | CS | DS | ES | SS                                          // segment registers
    | SI | DI | BP | SP                                          // index registers
    | IP                                                         // program counter

  datatype Flag =
    | Carry | Auxiliary | Parity | Zero | Sign | Overflow  // conditional flags
    | Trap | Interrupt | Direction                         // control flags

  /** The decoded instruction; `Stop` is declared but never produced by the decoder. */
  datatype Opcode = Noop | Stop | Increment(reg: Register) | Decrement(reg: Register)

  /** Why a decode pass stopped before the end of the buffer. */
  datatype DecodeError =
    | TruncatedGroup(lead: u8)                 // a two-byte group whose second byte is missing
    | UnknownSecondary(lead: u8, secondary: u8) // a second byte absent from the group's table

  /** Value views of the processor's fields. */
  datatype FlagSet = FlagSet(carry: bool, auxiliary: bool, parity: bool, zero: bool, sign: bool,
                             overflow: bool, trap: bool, interrupt: bool, direction: bool)
  datatype MainRegisters = MainRegisters(ax: u8, bx: u8, cx: u8, dx: u8)
  datatype WideRegisters = WideRegisters(cs: u16, ds: u16, es: u16, ss: u16,
                                         si: u16, di: u16, bp: u16, sp: u16)

  const AllClear := FlagSet(false, false, false, false, false, false, false, false, false)
  const MainZero := MainRegisters(0, 0, 0, 0)
  const WideZero := WideRegisters(0, 0, 0, 0, 0, 0, 0, 0)

  predicate IsByteRegister(r: Register) {
    r in {AL, AH, BL, BH, CL, CH, DL, DH}
  }

  // ---------------------------------------------------------------------
  // Decoder tables
  // ---------------------------------------------------------------------

  /** The bytes that open a two-byte group. */
  predicate IsGroupLead(b: u8) {
    b == 0xFE || b == 0xFC
  }

  /** The one-byte opcode table; every byte outside it falls back to `Noop`. */
  function OneByte(b: u8): (r: Opcode)
    requires !IsGroupLead(b)
    ensures r.Increment? <==> b in {0x40, 0x41, 0x42, 0x43, 0x46, 0x47}
    ensures r.Decrement? <==> 0x48 <= b <= 0x4B
    ensures r.Noop? <==> !(b in {0x40, 0x41, 0x42, 0x43, 0x46, 0x47} || 0x48 <= b <= 0x4B)
    ensures (r.Increment? || r.Decrement?) ==> !IsByteRegister(r.reg)
  {
    match b
    case 0x90 => Noop
    case 0x40 => Increment(AX)
    case 0x41 => Increment(CX)
    case 0x42 => Increment(DX)
    case 0x43 => Increment(BX)
    case 0x46 => Increment(SI)
    case 0x47 => Increment(DI)
    case 0x48 => Decrement(AX)
    case 0x49 => Decrement(CX)
    case 0x4A => Decrement(DX)
    case 0x4B => Decrement(BX)
    case _ => Noop
  }

  /** The table of second bytes after 0xFE. */
  function GroupFE(s: u8): (r: Option<Opcode>)
    ensures r.Some? <==> (0xC0 <= s <= 0xC3 || 0xC8 <= s <= 0xCF)
    ensures r.Some? ==> (r.value.Increment? <==> s <= 0xC3)
    ensures r.Some? ==> (r.value.Increment? || r.value.Decrement?) && IsByteRegister(r.value.reg)
  {
    match s
    case 0xC0 => Some(Increment(AL))
    case 0xC1 => Some(Increment(CL))
    case 0xC2 => Some(Increment(DL))
    case 0xC3 => Some(Increment(BL))
    case 0xC8 => Some(Decrement(AL))
    case 0xC9 => Some(Decrement(CL))
    case 0xCA => Some(Decrement(DL))
    case 0xCB => Some(Decrement(BL))
    case 0xCC => Some(Decrement(AH))
    case 0xCD => Some(Decrement(CH))
    case 0xCE => Some(Decrement(DH))
    case 0xCF => Some(Decrement(BH))
    case _ => None
  }

  /** The table of second bytes after 0xFC. */
  function GroupFC(s: u8): (r: Option<Opcode>)
    ensures r.Some? <==> 0xC4 <= s <= 0xC7
    ensures r.Some? ==> r.value.Increment? && r.value.reg in {AH, BH, CH, DH}
  {
    match s
    case 0xC4 => Some(Increment(AH))
    case 0xC5 => Some(Increment(CH))
    case 0xC6 => Some(Increment(DH))
    case 0xC7 => Some(Increment(BH))
    case _ => None
  }

  /** Dispatch of a two-byte group on its lead byte. */
  function Group(lead: u8, s: u8): Option<Opcode>
    requires IsGroupLead(lead)
  {
    if lead == 0xFE then GroupFE(s) else GroupFC(s)
  }

  // ---------------------------------------------------------------------
  // Decoder specification
  // ---------------------------------------------------------------------

  /** The decoding of the instruction at the start of a buffer suffix. */
  datatype Fetched = Fetched(op: Opcode, width: nat) | Faulted(error: DecodeError)

  /**
   * Decodes the instruction that starts at `code[0]`: one byte, or two for a
   * group lead. A group whose second byte is missing or unlisted is a fault.
   */
  function Fetch(code: seq<u8>): (r: Fetched)
    requires |code| > 0
    ensures r.Faulted? <==> IsGroupLead(code[0]) && (|code| == 1 || Group(code[0], code[1]).None?)
    ensures r.Fetched? ==> r.width == (if IsGroupLead(code[0]) then 2 else 1) && r.width <= |code|
    ensures r.Faulted? ==> r.error.lead == code[0] && (r.error.TruncatedGroup? <==> |code| == 1)
    ensures r.Faulted? && r.error.UnknownSecondary? ==> r.error.secondary == code[1]
  {
    if IsGroupLead(code[0]) then
      if |code| == 1 then Faulted(TruncatedGroup(code[0]))
      else match Group(code[0], code[1])
        case None => Faulted(UnknownSecondary(code[0], code[1]))
        case Some(op) => Fetched(op, 2)
    else Fetched(OneByte(code[0]), 1)
  }

  /**
   * The outcome of decoding a buffer suffix: the opcodes produced, how far
   * the instruction pointer moved, and the fault that stopped decoding, if any.
   */
  datatype Decoded = Decoded(ops: seq<Opcode>, consumed: nat, fault: Option<DecodeError>)

  /** `d` preceded by opcodes `pre` that took `w` bytes. */
  function Prefixed(pre: seq<Opcode>, w: nat, d: Decoded): Decoded {
    Decoded(pre + d.ops, w + d.consumed, d.fault)
  }

  lemma PrefixedThen(pre: seq<Opcode>, w: nat, more: seq<Opcode>, v: nat, d: Decoded)
    ensures Prefixed(pre, w, Prefixed(more, v, d)) == Prefixed(pre + more, w + v, d)
  {
  }

  /**
   * Decodes `code` from its first byte to its end or to the first fault.
   * On a fault the pointer has moved one byte past the group's lead, as it
   * has where the source fetches the second byte.
   */
  function Scan(code: seq<u8>): Decoded
    decreases |code|
  {
    if |code| == 0 then Decoded([], 0, None)
    else match Fetch(code)
      case Faulted(e) => Decoded([], 1, Some(e))
      case Fetched(op, w) => Prefixed([op], w, Scan(code[w..]))
  }

  /** One step of `Scan` at position `i` of a buffer, as the decoder loop takes it. */
  lemma ScanAt(code: seq<u8>, i: nat)
    requires i < |code|
    ensures Fetch(code[i..]).Faulted? ==> Scan(code[i..]) == Decoded([], 1, Some(Fetch(code[i..]).error))
    ensures Fetch(code[i..]).Fetched? ==>
              Scan(code[i..]) == Prefixed([Fetch(code[i..]).op], Fetch(code[i..]).width,
                                          Scan(code[i + Fetch(code[i..]).width..]))
  {
  }

  /** Decoding from `start` has produced `done` so far and resumes at `at`. */
  ghost predicate ScannedUpTo(code: seq<u8>, start: nat, at: nat, done: seq<Opcode>)
  {
    start <= at <= |code| && Scan(code[start..]) == Prefixed(done, at - start, Scan(code[at..]))
  }

  /** The decoder loop starts with nothing decoded. */
  lemma ScanBegins(code: seq<u8>, start: nat)
    requires start <= |code|
    ensures ScannedUpTo(code, start, start, [])
  {
    assert [] + Scan(code[start..]).ops == Scan(code[start..]).ops;
  }

  /**
   * The decoder loop's step: the instruction `r` at `at` extends what has
   * been decoded, or ends decoding with a fault.
   */
  lemma ScanResumes(code: seq<u8>, start: nat, at: nat, done: seq<Opcode>, r: Fetched)
    requires at < |code| && r == Fetch(code[at..]) && ScannedUpTo(code, start, at, done)
    ensures r.Faulted? ==> Scan(code[start..]) == Decoded(done, at + 1 - start, Some(r.error))
    ensures r.Fetched? ==> ScannedUpTo(code, start, at + r.width, done + [r.op])
  {
    ScanAt(code, at);
    if r.Faulted? {
      assert done + [] == done;
    } else {
      PrefixedThen(done, at - start, [r.op], r.width, Scan(code[at + r.width..]));
    }
  }

  /** Appending one more opcode regroups with what came before. */
  lemma AppendOne(before: seq<Opcode>, done: seq<Opcode>, op: Opcode)
    ensures (before + done) + [op] == before + (done + [op])
  {
  }

  /** The decoder loop ends at the end of the buffer without a fault. */
  lemma ScanFinishes(code: seq<u8>, start: nat, done: seq<Opcode>)
    requires ScannedUpTo(code, start, |code|, done)
    ensures Scan(code[start..]) == Decoded(done, |code| - start, None)
  {
    assert code[|code|..] == [];
    assert done + [] == done;
  }

  // ---------------------------------------------------------------------
  // Encoder: the inverse of the decoder tables
  // ---------------------------------------------------------------------

  /** The bytes that decode to `op`, for the opcodes the decoder can produce. */
  function Encode(op: Opcode): (r: Option<seq<u8>>)
    ensures r.Some? ==> |r.value| > 0 && Fetch(r.value) == Fetched(op, |r.value|)
    ensures r.Some? <==> op != Stop && (op.Noop? || op.reg in {AX, BX, CX, DX, AL, BL, CL, DL, AH, BH, CH, DH}
                                        || op == Increment(SI) || op == Increment(DI))
  {
    match op
    case Noop => Some([0x90])
    case Stop => None
    case Increment(r) =>
      (match r
       case AX => Some([0x40])
       case CX => Some([0x41])
       case DX => Some([0x42])
       case BX => Some([0x43])
       case SI => Some([0x46])
       case DI => Some([0x47])
       case AL => Some([0xFE, 0xC0])
       case CL => Some([0xFE, 0xC1])
       case DL => Some([0xFE, 0xC2])
       case BL => Some([0xFE, 0xC3])
       case AH => Some([0xFC, 0xC4])
       case CH => Some([0xFC, 0xC5])
       case DH => Some([0xFC, 0xC6])
       case BH => Some([0xFC, 0xC7])
       case _ => None)
    case Decrement(r) =>
      (match r
       case AX => Some([0x48])
       case CX => Some([0x49])
       case DX => Some([0x4A])
       case BX => Some([0x4B])
       case AL => Some([0xFE, 0xC8])
       case CL => Some([0xFE, 0xC9])
       case DL => Some([0xFE, 0xCA])
       case BL => Some([0xFE, 0xCB])
       case AH => Some([0xFE, 0xCC])
       case CH => Some([0xFE, 0xCD])
       case DH => Some([0xFE, 0xCE])
       case BH => Some([0xFE, 0xCF])
       case _ => None)
  }

  predicate Encodable(op: Opcode) {
    Encode(op).Some?
  }

  predicate AllEncodable(ops: seq<Opcode>) {
    forall k :: 0 <= k < |ops| ==> Encodable(ops[k])
  }

  /** The concatenated encodings of `ops`. */
  function EncodeAll(ops: seq<Opcode>): seq<u8>
    requires AllEncodable(ops)
  {
    if ops == [] then [] else Encode(ops[0]).value + EncodeAll(ops[1..])
  }

  /** Number of bytes in `code` that open a two-byte group. */
  function GroupLeaders(code: seq<u8>): nat {
    if code == [] then 0 else (if IsGroupLead(code[0]) then 1 else 0) + GroupLeaders(code[1..])
  }

  // ---------------------------------------------------------------------
  // Decoder lemmas
  // ---------------------------------------------------------------------

  /**
   * Every instruction the decoder accepts, other than the fallback `Noop`
   * of an unlisted one-byte opcode, re-encodes to the bytes it came from.
   */
  lemma FetchInvertsEncode(code: seq<u8>)
    requires |code| > 0 && Fetch(code).Fetched?
    ensures Encodable(Fetch(code).op)
    ensures code[0] == 0x90 || Fetch(code).op != Noop ==> Encode(Fetch(code).op) == Some(code[..Fetch(code).width])
  {
    var b := code[0];
    if !IsGroupLead(b) {
      assert code[..1] == [b];
      assert b == 0x90 || OneByte(b) != Noop ==> b in {0x90, 0x40, 0x41, 0x42, 0x43, 0x46, 0x47, 0x48, 0x49, 0x4A, 0x4B};
    } else {
      var s := code[1];
      assert code[..2] == [b, s];
      if b == 0xFE {
        assert s in {0xC0, 0xC1, 0xC2, 0xC3, 0xC8, 0xC9, 0xCA, 0xCB, 0xCC, 0xCD, 0xCE, 0xCF};
      } else {
        assert s in {0xC4, 0xC5, 0xC6, 0xC7};
      }
    }
  }

  /**
   * Where decoding stops: at the end of the buffer when it succeeds or when
   * the last byte is a group lead; otherwise on the unlisted second byte,
   * just after its lead. The pointer never passes the end of the buffer.
   */
  lemma {:induction false} ScanStops(code: seq<u8>)
    ensures Scan(code).consumed <= |code|
    ensures Scan(code).fault.None? ==> Scan(code).consumed == |code|
    ensures Scan(code).fault.Some? ==>
              0 < Scan(code).consumed && code[Scan(code).consumed - 1] == Scan(code).fault.value.lead
    ensures Scan(code).fault.Some? ==> IsGroupLead(Scan(code).fault.value.lead)
    ensures Scan(code).fault.Some? && Scan(code).fault.value.TruncatedGroup? ==> Scan(code).consumed == |code|
    ensures Scan(code).fault.Some? && Scan(code).fault.value.UnknownSecondary? ==>
              Scan(code).consumed < |code| && code[Scan(code).consumed] == Scan(code).fault.value.secondary
    decreases |code|
  {
    if |code| > 0 && Fetch(code).Fetched? {
      var w := Fetch(code).width;
      ScanStops(code[w..]);
      var rest := Scan(code[w..]);
      if rest.fault.Some? {
        assert code[w + rest.consumed - 1] == code[w..][rest.consumed - 1];
        if rest.fault.value.UnknownSecondary? {
          assert code[w + rest.consumed] == code[w..][rest.consumed];
        }
      }
    }
  }

  /** Decoding a buffer that starts with the encoding of `op` yields `op` first. */
  lemma ScanEncodedHead(op: Opcode, tail: seq<u8>)
    requires Encodable(op)
    ensures Scan(Encode(op).value + tail) == Prefixed([op], |Encode(op).value|, Scan(tail))
  {
  }

  /** Decoding inverts encoding: the encoded program decodes to exactly `ops`, without fault. */
  lemma {:induction false} DecodeEncode(ops: seq<Opcode>)
    requires AllEncodable(ops)
    ensures Scan(EncodeAll(ops)) == Decoded(ops, |EncodeAll(ops)|, None)
  {
    if ops != [] {
      assert AllEncodable(ops[1..]) by {
        forall k | 0 <= k < |ops[1..]| ensures Encodable(ops[1..][k]) {
          assert ops[1..][k] == ops[k + 1];
        }
      }
      DecodeEncode(ops[1..]);
      ScanEncodedHead(ops[0], EncodeAll(ops[1..]));
      assert [ops[0]] + ops[1..] == ops;
    }
  }

  /**
   * Every decoded opcode has an encoding, and the encodings of the decoded
   * opcodes occupy exactly the bytes consumed, less the lead byte of a
   * faulting group.
   */
  lemma {:induction false} ScanWidths(code: seq<u8>)
    ensures AllEncodable(Scan(code).ops)
    ensures |EncodeAll(Scan(code).ops)| == Scan(code).consumed - (if Scan(code).fault.Some? then 1 else 0)
    decreases |code|
  {
    if |code| > 0 && Fetch(code).Fetched? {
      var op, w := Fetch(code).op, Fetch(code).width;
      ScanWidths(code[w..]);
      var rest := Scan(code[w..]);
      FetchInvertsEncode(code);
      var all := [op] + rest.ops;
      assert all[1..] == rest.ops;
      assert AllEncodable(all) by {
        forall k | 0 <= k < |all| ensures Encodable(all[k]) {
          if k > 0 { assert all[k] == rest.ops[k - 1]; }
        }
      }
      assert |Encode(op).value| == w;
    }
  }

  /** A byte that the one-byte table lists, rather than letting it fall back to `Noop`. */
  predicate ListedOneByte(b: u8) {
    b == 0x90 || b in {0x40, 0x41, 0x42, 0x43, 0x46, 0x47, 0x48, 0x49, 0x4A, 0x4B}
  }

  /**
   * Every byte of `code` is a listed one-byte opcode, a group lead, or the
   * byte right after a group lead: no byte falls back to `Noop`.
   */
  predicate NoFallback(code: seq<u8>) {
    forall i {:trigger code[i]} :: 0 <= i < |code| ==>
      ListedOneByte(code[i]) || IsGroupLead(code[i]) || (0 < i && IsGroupLead(code[i - 1]))
  }

  /**
   * Encoding inverts decoding: a program that decodes without fault and has
   * no fallback bytes is reproduced, byte for byte, by encoding its opcodes.
   */
  lemma {:induction false} ScanReencodes(code: seq<u8>)
    requires Scan(code).fault.None? && NoFallback(code)
    ensures AllEncodable(Scan(code).ops) && EncodeAll(Scan(code).ops) == code
    decreases |code|
  {
    ScanWidths(code);
    if |code| > 0 {
      var op, w := Fetch(code).op, Fetch(code).width;
      var rest := Scan(code[w..]);
      assert Scan(code).ops == [op] + rest.ops;
      assert NoFallback(code[w..]) by {
        forall i | 0 <= i < |code[w..]|
          ensures ListedOneByte(code[w..][i]) || IsGroupLead(code[w..][i]) || (0 < i && IsGroupLead(code[w..][i - 1]))
        {
          assert code[w..][i] == code[i + w];
          if w == 2 { assert !IsGroupLead(code[1]); }
          if 0 < i { assert code[w..][i - 1] == code[i + w - 1]; }
        }
      }
      ScanReencodes(code[w..]);
      FetchInvertsEncode(code);
      assert code[0] == 0x90 || op != Noop by {
        if w == 1 { assert ListedOneByte(code[0]); }
      }
      assert ([op] + rest.ops)[1..] == rest.ops;
      assert code == code[..w] + code[w..];
    }
  }

  /**
   * A program that decodes without fault yields one opcode per byte, less
   * one for every two-byte group, that is, for every group lead byte.
   */
  lemma {:induction false} ScanCount(code: seq<u8>)
    requires Scan(code).fault.None?
    ensures |Scan(code).ops| == |code| - GroupLeaders(code)
    decreases |code|
  {
    if |code| > 0 {
      var w := Fetch(code).width;
      if w == 2 {
        // A listed second byte lies in 0xC0..0xCF, so it never opens a group itself.
        assert !IsGroupLead(code[1]);
        assert code[1..][1..] == code[2..];
      }
      ScanCount(code[w..]);
    }
  }

  // ---------------------------------------------------------------------
  // Interpreter specification
  // ---------------------------------------------------------------------

  /** `x + 1` on an 8-bit register, wrapping at 256. */
  function Inc8(x: u8): (r: u8)
    ensures r as int == (x as int + 1) % 0x100
  {
    if x == 0xFF then 0 else x + 1
  }

  /** The opcodes the interpreter gives an effect; every other opcode is skipped. */
  predicate Executes(op: Opcode) {
    op in {Increment(AX), Increment(BX), Increment(CX), Increment(DX)}
  }

  /** The effect of one opcode on the main registers. */
  function Step(m: MainRegisters, op: Opcode): MainRegisters {
    match op
    case Noop => m
    case Increment(AX) => m.(ax := Inc8(m.ax))
    case Increment(BX) => m.(bx := Inc8(m.bx))
    case Increment(CX) => m.(cx := Inc8(m.cx))
    case Increment(DX) => m.(dx := Inc8(m.dx))
    case _ => m
  }

  /**
   * One opcode changes the main registers exactly when it is executed, and
   * then it adds 1, modulo 256, to the register it names and to no other.
   */
  lemma StepEffect(m: MainRegisters, op: Opcode)
    ensures Step(m, op) != m <==> Executes(op)
    ensures Step(m, op).ax as int == (m.ax as int + (if op == Increment(AX) then 1 else 0)) % 0x100
    ensures Step(m, op).bx as int == (m.bx as int + (if op == Increment(BX) then 1 else 0)) % 0x100
    ensures Step(m, op).cx as int == (m.cx as int + (if op == Increment(CX) then 1 else 0)) % 0x100
    ensures Step(m, op).dx as int == (m.dx as int + (if op == Increment(DX) then 1 else 0)) % 0x100
  {
  }

  /** The opcodes applied in order, starting from `m`. */
  function Run(m: MainRegisters, ops: seq<Opcode>): MainRegisters
    decreases |ops|
  {
    if ops == [] then m else Step(Run(m, ops[..|ops| - 1]), ops[|ops| - 1])
  }

  // ---------------------------------------------------------------------
  // Interpreter lemmas
  // ---------------------------------------------------------------------

  /** Adding `d` after reducing `x` modulo 256 is adding it before. */
  lemma AddAfterMod(y: int, x: int, d: int)
    requires 0 <= x && 0 <= d && y == x % 0x100
    ensures (y + d) % 0x100 == (x + d) % 0x100
  {
  }

  /** The main register `r` of `m`. */
  function Value(m: MainRegisters, r: Register): u8
    requires r in {AX, BX, CX, DX}
  {
    match r
    case AX => m.ax
    case BX => m.bx
    case CX => m.cx
    case DX => m.dx
  }

  /** Dropping the last element of `ops` removes one occurrence of it and none of anything else. */
  lemma MultisetLast(ops: seq<Opcode>, x: Opcode)
    requires ops != []
    ensures multiset(ops)[x] == multiset(ops[..|ops| - 1])[x] + (if ops[|ops| - 1] == x then 1 else 0)
  {
    assert ops == ops[..|ops| - 1] + [ops[|ops| - 1]];
    assert multiset(ops) == multiset(ops[..|ops| - 1]) + multiset{ops[|ops| - 1]};
  }

  /** The last opcode of a sequence adds 1, modulo 256, to register `r` exactly when it increments `r`. */
  lemma RunLast(m: MainRegisters, ops: seq<Opcode>, r: Register)
    requires ops != [] && r in {AX, BX, CX, DX}
    ensures Value(Run(m, ops), r) as int ==
              (Value(Run(m, ops[..|ops| - 1]), r) as int + (if ops[|ops| - 1] == Increment(r) then 1 else 0)) % 0x100
  {
  }

  /** Each main register ends up incremented, modulo 256, once per `Increment` of it in the sequence. */
  lemma {:induction false} RunCounts(m: MainRegisters, ops: seq<Opcode>, r: Register)
    requires r in {AX, BX, CX, DX}
    ensures Value(Run(m, ops), r) as int == (Value(m, r) as int + multiset(ops)[Increment(r)]) % 0x100
    decreases |ops|
  {
    if ops != [] {
      var init := ops[..|ops| - 1];
      RunCounts(m, init, r);
      RunLast(m, ops, r);
      MultisetLast(ops, Increment(r));
      AddAfterMod(Value(Run(m, init), r) as int, Value(m, r) as int + multiset(init)[Increment(r)],
                  if ops[|ops| - 1] == Increment(r) then 1 else 0);
    }
  }

  /** A sequence with no executed opcode leaves the registers as they were. */
  lemma {:induction false} RunInert(m: MainRegisters, ops: seq<Opcode>)
    requires forall k :: 0 <= k < |ops| ==> !Executes(ops[k])
    ensures Run(m, ops) == m
    decreases |ops|
  {
    if ops != [] {
      RunInert(m, ops[..|ops| - 1]);
    }
  }

  /** Running two sequences one after the other is running their concatenation. */
  lemma {:induction false} RunAppend(m: MainRegisters, a: seq<Opcode>, b: seq<Opcode>)
    ensures Run(m, a + b) == Run(Run(m, a), b)
    decreases |b|
  {
    if b == [] {
      assert a + b == a;
    } else {
      var init := b[..|b| - 1];
      assert (a + b)[..|a + b| - 1] == a + init;
      RunAppend(m, a, init);
    }
  }

  // ---------------------------------------------------------------------
  // The processor
  // ---------------------------------------------------------------------

  class Processor {
    // conditional flags
    var carry: bool
    var auxiliary: bool
    var parity: bool
    var zero: bool
    var sign: bool
    var overflow: bool
    // control flags
    var trap: bool
    var interrupt: bool
    var direction: bool

    // main registers, one byte each
    var ax: u8
    var bx: u8
    var cx: u8
    var dx: u8

    // segment registers
    var cs: u16
    var ds: u16
    var es: u16
    var ss: u16

    // index registers
    var si: u16
    var di: u16
    var bp: u16
    var sp: u16

    // program counter, an index into byteCode
    var ip: u16

    const byteCode: seq<u8>
    var quasiCompiled: seq<Opcode>

    /** The instruction pointer never passes the end of the buffer. */
    ghost predicate Valid()
      reads this`ip
    {
      ip as int <= |byteCode|
    }

    function Flags(): FlagSet
      reads this`carry, this`auxiliary, this`parity, this`zero, this`sign, this`overflow, this`trap, this`interrupt, this`direction
    {
      FlagSet(carry, auxiliary, parity, zero, sign, overflow, trap, interrupt, direction)
    }

    function Main(): MainRegisters
      reads this`ax, this`bx, this`cx, this`dx
    {
      MainRegisters(ax, bx, cx, dx)
    }

    function Wide(): WideRegisters
      reads this`cs, this`ds, this`es, this`ss, this`si, this`di, this`bp, this`sp
    {
      WideRegisters(cs, ds, es, ss, si, di, bp, sp)
    }

    /** A processor over `hexCode` with every flag clear, every register zero and nothing decoded. */
    constructor Default(hexCode: seq<u8>)
      ensures Valid()
      ensures Flags() == AllClear && Main() == MainZero && Wide() == WideZero
      ensures ip == 0 && byteCode == hexCode && quasiCompiled == []
    {
      carry, auxiliary, parity, zero, sign, overflow := false, false, false, false, false, false;
      trap, interrupt, direction := false, false, false;
      ax, bx, cx, dx := 0, 0, 0, 0;
      cs, ds, es, ss := 0, 0, 0, 0;
      si, di, bp, sp := 0, 0, 0, 0;
      ip := 0;
      byteCode := hexCode;
      quasiCompiled := [];
    }

    /** The byte under the instruction pointer; `None` where the source's index would be out of bounds. */
    method CurrentHexCode() returns (b: Option<u8>)
      ensures b.Some? <==> ip as int < |byteCode|
      ensures b.Some? ==> b.value == byteCode[ip]
    {
      if ip as int < |byteCode| {
        b := Some(byteCode[ip]);
      } else {
        b := None;
      }
    }

    /**
     * Decodes the instruction under the instruction pointer, moving the
     * pointer onto the second byte of a two-byte group.
     */
    method DecodeCurrent() returns (r: Fetched)
      requires Valid() && ip as int < |byteCode| < 0x1_0000
      modifies this`ip
      ensures Valid()
      ensures r == Fetch(byteCode[old(ip)..])
      ensures ip as int == old(ip) as int + (if IsGroupLead(byteCode[old(ip)]) then 1 else 0)
      ensures r.Fetched? ==> ip as int + 1 == old(ip) as int + r.width
    {
      ghost var here := byteCode[ip..];
      var b := CurrentHexCode();
      if b.value == 0xFE || b.value == 0xFC {
        ip := ip + 1;
        var s := CurrentHexCode();
        if s.None? {
          return Faulted(TruncatedGroup(b.value));
        }
        assert here[1] == s.value;
        var op := if b.value == 0xFE then GroupFE(s.value) else GroupFC(s.value);
        if op.None? {
          return Faulted(UnknownSecondary(b.value, s.value));
        }
        r := Fetched(op.value, 2);
      } else {
        r := Fetched(OneByte(b.value), 1);
      }
    }

    /**
     * Decodes the buffer from the instruction pointer to its end, appending
     * the opcodes to `quasiCompiled`. Returns the fault that stopped it, if any.
     */
    method CompileByteCodeToQuasiCompiled() returns (fault: Option<DecodeError>)
      requires Valid() && |byteCode| < 0x1_0000
      modifies this`ip, this`quasiCompiled
      ensures Valid()
      ensures quasiCompiled == old(quasiCompiled) + Scan(byteCode[old(ip)..]).ops
      ensures ip as int == old(ip) as int + Scan(byteCode[old(ip)..]).consumed
      ensures fault == Scan(byteCode[old(ip)..]).fault
      ensures Flags() == old(Flags()) && Main() == old(Main()) && Wide() == old(Wide())
    {
      ghost var start := ip as int;
      ghost var q0 := quasiCompiled;
      ghost var done: seq<Opcode> := [];
      ScanBegins(byteCode, start);
      fault := None;
      while ip as int < |byteCode|
        invariant quasiCompiled == q0 + done
        invariant ScannedUpTo(byteCode, start, ip as int, done)
        decreases |byteCode| - ip as int
      {
        ghost var at := ip as int;
        var r := DecodeCurrent();
        ScanResumes(byteCode, start, at, done, r);
        if r.Faulted? {
          fault := Some(r.error);
          break;
        }
        ghost var next := at + r.width;
        AppendOne(q0, done, r.op);
        quasiCompiled := quasiCompiled + [r.op];
        ip := ip + 1;
        done := done + [r.op];
        assert ip as int == next;
      }
      if fault.None? {
        ScanFinishes(byteCode, start, done);
      }
    }

    /** Applies the decoded opcodes in order to the main registers. */
    method ExecuteQuasiCompiled()
      modifies this`ax, this`bx, this`cx, this`dx
      ensures Main() == Run(old(Main()), quasiCompiled)
      ensures Flags() == old(Flags()) && Wide() == old(Wide())
      ensures ip == old(ip) && quasiCompiled == old(quasiCompiled)
    {
      for k := 0 to |quasiCompiled|
        invariant Main() == Run(old(Main()), quasiCompiled[..k])
      {
        assert quasiCompiled[..k + 1][..k] == quasiCompiled[..k];
        match quasiCompiled[k]
        case Noop =>
        case Increment(AX) => ax := Inc8(ax);
        case Increment(BX) => bx := Inc8(bx);
        case Increment(CX) => cx := Inc8(cx);
        case Increment(DX) => dx := Inc8(dx);
        case _ =>
      }
      assert quasiCompiled[..|quasiCompiled|] == quasiCompiled;
    }
  }
}
