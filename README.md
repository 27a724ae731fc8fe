# 8086 instruction-subset simulator: processor model

This project models the `Processor` of a small 8086 simulator written in Rust.
The processor owns a raw byte buffer, an instruction pointer `ip`, a list of
decoded opcodes, nine flags and the 8086 register set. It works in two passes:

- **Decoding** (`compile_byte_code_to_quasi_compiled`) walks the buffer from
  `ip`. It maps each opcode byte through a fixed table and appends the result
  to the decoded list. The one-byte opcodes are `INC r16` (0x40-0x43, 0x46,
  0x47), `DEC r16` (0x48-0x4B) and `NOP` (0x90). Any other byte is a `Noop`.
  The leads 0xFE and 0xFC open two-byte groups whose second byte selects an
  8-bit register.
- **Execution** (`execute_quasi_compiled`) applies the decoded list in order.
  Only `Increment` of AX, BX, CX or DX changes anything. Every other opcode is
  skipped.

The model is the class `Architecture.Processor` (file `architecture.dfy`). Its
fields mirror the Rust struct. Each method is proved against a pure function:

- Decoding is proved against `Scan`, the decoding of the buffer suffix
  `byteCode[ip..]`. `Scan` returns the opcodes produced, how far `ip` moved and
  the fault that stopped it, if any.
- Execution is proved against `Run`, an in-order fold of `Step` over the main
  registers.

The lemmas compare these functions with independent definitions:

- the encoder `Encode`, the inverse of the decoder tables;
- the count `GroupLeaders` of group lead bytes;
- multiset counts of opcodes.

Module `Driver` (file `main.dfy`) holds the repository's driver program as a
proved example: decode and execute `[0x40, 0x41, 0x43, 0x90]`.

Modelling decisions:

- Bytes and registers are the newtypes `u8` and `u16` over `int`.
- `byte_code` is never written after construction, so it is a `const` field.
- The `match` that computes each pushed opcode is its own method,
  `DecodeCurrent`, called from the loop of `CompileByteCodeToQuasiCompiled`.
- `+= 1` on a `u8` register wraps modulo 256, as a release build does.
- `get_current_hex_code` is a method that reads `byteCode[ip]`. Where the Rust
  index would be out of bounds, it returns `None` instead of panicking.
- The inner matches on the second byte of a group are not exhaustive in the
  source. A second byte that is missing or unlisted is modelled as an explicit
  decode fault, `TruncatedGroup` or `UnknownSecondary`.
- On a fault, the decode method returns the fault and keeps the state the
  source has at that point: the opcodes pushed so far, and `ip` moved past the
  group's lead byte.
- Decoding requires a buffer shorter than 65536 bytes, because `ip` is a `u16`.

Where the code departs from the 8086 it simulates, the model follows the code:

- On an 8086, AX is a 16-bit register whose halves are AL and AH. The code
  stores `ax` as a single `u8` (src/architecture.rs:81), and so do `bx`, `cx`
  and `dx` (:82-84).
- On an 8086, `DEC r16` decrements its register and `INC`/`DEC r/m8` change one
  byte of AX, BX, CX or DX. The code's executor skips every opcode except
  `Increment` of AX, BX, CX and DX (src/architecture.rs:197-204).
- The inner matches on a group's second byte are not exhaustive
  (src/architecture.rs:162-175, :179-184). The model reports an unlisted or
  missing second byte as a decode fault.

## Model

| member | source | states |
|---|---|---|
| `Architecture.OneByte` | src/architecture.rs:149-159 | A one-byte opcode is an Increment exactly for 0x40-0x43, 0x46 and 0x47, and a Decrement exactly for 0x48-0x4B. Every other non-group byte is Noop. None of them names an 8-bit register. |
| `Architecture.GroupFE` | src/architecture.rs:160-176 | After 0xFE, a second byte is listed exactly when it is in 0xC0-0xC3 or 0xC8-0xCF. It is an Increment iff it is at most 0xC3. It always names an 8-bit register. |
| `Architecture.GroupFC` | src/architecture.rs:177-185 | After 0xFC, a second byte is listed exactly when it is in 0xC4-0xC7, and it gives an Increment of AH, BH, CH or DH. |
| `Architecture.Fetch` | src/architecture.rs:148-187 | One instruction is two bytes wide after a group lead and one byte otherwise, and never extends past the buffer. Decoding faults exactly when a group lead has no second byte or an unlisted one. The fault records the lead byte, and the second byte when there is one. |
| `Architecture.Encode` | src/architecture.rs:149-185 | Every opcode the tables produce has an encoding of one or two bytes, and `Fetch` decodes that encoding back to the same opcode at the same width. `Stop` and the opcodes of registers outside the tables have no encoding. |
| `Architecture.FetchInvertsEncode` | src/architecture.rs:149-186 | Every decoded instruction has an encoding. Except for the Noop that an unlisted byte falls back to, that encoding is exactly the bytes it was decoded from. |
| `Architecture.DecodeEncode` | src/architecture.rs:146-191 | Decoding the concatenated encodings of any encodable opcode list gives back exactly that list. It consumes the whole buffer and does not fault. |
| `Architecture.ScanStops` | src/architecture.rs:147-190 | The pointer never passes the end of the buffer. A successful decode stops exactly at the end. A truncated group stops at the end, on a buffer whose last byte is the lead. An unlisted second byte stops on that byte, just after its lead. A fault's lead byte is always 0xFE or 0xFC. |
| `Architecture.ScanWidths` | src/architecture.rs:148-189 | Every decoded opcode is encodable. The lengths of the decoded opcodes' encodings add up to the bytes consumed, less the lead byte of a faulting group. |
| `Architecture.ScanReencodes` | src/architecture.rs:146-191 | When a buffer decodes without fault and every byte is a listed opcode, a group lead or a group's second byte, re-encoding the decoded opcodes gives back exactly that buffer. |
| `Architecture.ScanCount` | src/architecture.rs:148-189 | On a successful decode, the number of opcodes is the buffer length minus the number of group lead bytes (0xFE, 0xFC), one per two-byte group. |
| `Architecture.Inc8` | src/architecture.rs:199-202 | An 8-bit register increment yields (x + 1) mod 256. |
| `Architecture.StepEffect` | src/architecture.rs:197-204 | One opcode changes the main registers iff it is Increment of AX, BX, CX or DX. Each register gains 1 modulo 256 exactly when the opcode increments it and is unchanged otherwise. |
| `Architecture.RunCounts` | src/architecture.rs:195-204 | After executing a list, each of AX, BX, CX and DX has grown, modulo 256, by the number of `Increment` opcodes of that register in the list. |
| `Architecture.RunInert` | src/architecture.rs:198 | A list with no executed opcode, such as an empty list or one of decrements, 8-bit and SI/DI opcodes, leaves the registers as they were. |
| `Architecture.RunAppend` | src/architecture.rs:195 | Executing one list and then another is executing their concatenation. |
| `Architecture.Processor.Default` | src/architecture.rs:106-133 | The new processor has all nine flags clear, every register zero, `ip` 0, the given buffer and an empty decoded list. |
| `Architecture.Processor.CurrentHexCode` | src/architecture.rs:141-143 | Returns the byte at `ip` exactly when `ip` is inside the buffer, and nothing where the source's index would be out of bounds. |
| `Architecture.Processor.DecodeCurrent` | src/architecture.rs:148-187 | Returns `Fetch` of the buffer from `ip`. It moves `ip` by one onto the second byte of a two-byte group and leaves it otherwise. |
| `Architecture.Processor.CompileByteCodeToQuasiCompiled` | src/architecture.rs:146-191 | Appends `Scan`'s opcodes to the decoded list, earlier entries untouched. Moves `ip` by the bytes consumed and returns `Scan`'s fault. Flags and registers are unchanged. |
| `Architecture.Processor.ExecuteQuasiCompiled` | src/architecture.rs:194-206 | The main registers become `Run` of the decoded list from their old values. Flags, the wide registers, `ip`, the buffer and the decoded list are unchanged. |
| `Driver.DriverProgramDecodes` | src/main.rs:4-6 | The driver's buffer decodes to Inc AX, Inc CX, Inc BX, Noop over 4 bytes, without fault. |
| `Driver.DriverProgramRuns` | src/main.rs:6-7 | Those opcodes take zeroed registers to AX = CX = BX = 1 and DX = 0. |
| `Driver.RunDriverProgram` | src/main.rs:4-7 | Construct, decode and execute the driver's buffer: no fault, AX = CX = BX = 1, DX = 0, `ip` = 4, all flags clear, wide registers zero. |
| `Driver.DecrementIsSkipped` | src/architecture.rs:156 | 0x48 decodes to Decrement AX, which leaves the registers unchanged. |
| `Driver.ByteIncrementIsSkipped` | src/architecture.rs:163 | 0xFE 0xC0 decodes to one Increment AL over two bytes, which leaves the registers unchanged. |
| `Driver.MalformedGroups` | src/architecture.rs:160-185 | 0xFE 0x00 is an unlisted-second-byte fault after one byte. A trailing 0xFC is a truncated-group fault after the opcodes before it. |

## Left out

- `source_code_to_byte_code` (src/architecture.rs:136-138) is unimplemented (`todo!()`) and has no behaviour to model.
- The `println!` traces and state dumps are output only. src/main.rs is modelled only as the example program.
- The Move opcode family is commented out and has no decode or execute path. `Stop` is declared but never decoded or executed; it is kept in the datatype.
- 8-bit sub-register aliasing (AL/AH as halves of AX) is not modelled. The source stores `ax` as one byte and never executes an 8-bit opcode.
- Flag updates are not modelled. The source declares the nine flags and never writes them after construction.
- The `Flag` and `Register` enums are modelled as datatypes. Only the registers of the tables take part in behaviour.
- Architecture.Inc8: models `+= 1` on a `u8` with release-build wrap-around. A debug build panics at 255 instead.
- Architecture.Processor.CompileByteCodeToQuasiCompiled: requires a buffer shorter than 65536 bytes. With a longer one, the source's `u16` pointer overflows, which panics in a debug build and wraps in a release build. That behaviour is not modelled.
- Architecture.Processor.CurrentHexCode: returns `None` where the source panics on an out-of-range index, so the caller can report a truncated group.
