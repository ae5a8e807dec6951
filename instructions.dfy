/** The CHIP-8 instruction set and the decoder that turns a raw 16-bit opcode
    into an instruction (`Instruction::new`).

    The decoder works on the opcode's bits exactly as the Rust code does, with
    masks and shifts on `bv16`; operand fields keep the Rust widths (`u8` as
    `bv8`, `u16` as `bv16`). Next to it stands the table the decoder implements,
    written per instruction: `Opcode` gives the opcode word of every
    instruction the decoder can produce and `DecodedBits` says which bits of a
    word the decoder looks at for that instruction. The lemmas at the end tie
    the two together. */
module Instructions {

  datatype Option<T> = None | Some(value: T)

  /** Rust's `Result`. */
  datatype Result<T, E> = Ok(value: T) | Err(error: E)

  /** The two kinds of `Chip8Error` the decoder can return. */
  datatype Chip8Error =
    | ProgramNotCompatible
    | InvalidInstruction(instruction: bv16)

  /** Every instruction the emulator knows. The comment on each line is its
      documented opcode pattern (NNN address, NN byte, N nibble, X and Y
      register numbers). */
  datatype Instruction =
    | CallMachineCodeRoutine                      // 0NNN, never decoded
    | Clear                                       // 00E0
    | Return                                      // 00EE
    | Jump(nnn: bv16)                             // 1NNN
    | Call(nnn: bv16)                             // 2NNN
    | SkipIfRegisterEquals(vx: bv8, nn: bv8)      // 3XNN
    | SkipIfRegisterNotEquals(vx: bv8, nn: bv8)   // 4XNN
    | SkipIfRegisterVxEqualsVy(vx: bv8, vy: bv8)  // 5XY0
    | SetImmediate(vx: bv8, nn: bv8)              // 6XNN
    | AddImmediate(vx: bv8, nn: bv8)              // 7XNN
    | Copy(vx: bv8, vy: bv8)                      // 8XY0
    | BitwiseOr(vx: bv8, vy: bv8)                 // 8XY1
    | BitwiseAnd(vx: bv8, vy: bv8)                // 8XY2
    | BitwiseXor(vx: bv8, vy: bv8)                // 8XY3
    | Add(vx: bv8, vy: bv8)                       // 8XY4
    | Subtract(vx: bv8, vy: bv8)                  // 8XY5
    | RightShift(vx: bv8)                         // 8XY6
    | SetVxToVyMinusVx(vx: bv8, vy: bv8)          // 8XY7
    | LeftShift(vx: bv8)                          // 8XYE
    | SkipIfRegisterVxNotEqualsVy(vx: bv8, vy: bv8) // 9XY0
    | SetIndexRegister(nnn: bv16)                 // ANNN
    | JumpWithPcOffset(nnn: bv16)                 // BNNN
    | Random(vx: bv8, nn: bv8)                    // CXNN
    | Draw(vx: bv8, vy: bv8, n: bv8)              // DXYN
    | SkipIfKeyPressed(vx: bv8)                   // EX9E
    | SkipIfKeyNotPressed(vx: bv8)                // EXA1
    | SetVxToDelayTimer(vx: bv8)                  // FX07
    | AwaitKeyInput(vx: bv8)                      // FX0A
    | SetDelayTimer(vx: bv8)                      // FX15
    | SetSoundTimer(vx: bv8)                      // FX18
    | AddToIndex(vx: bv8)                         // FX1E
    | SetIndexToFontCharacter(vx: bv8)            // FX29
    | SetIndexToBinaryCodedVx(vx: bv8)            // FX33
    | DumpRegisters(vx: bv8)                      // FX55
    | LoadRegisters(vx: bv8)                      // FX65
    | Unknown                                     // no opcode

  // ---------------------------------------------------------------------
  // Operand fields. They sit at the same bit positions in every opcode.
  // ---------------------------------------------------------------------

  /** The top nibble, which selects the instruction group. */
  function Selector(raw: bv16): (s: bv16)
    ensures s < 0x10
    ensures s << 12 == raw & 0xF000
  {
    raw >> 12
  }

  /** Register X, bits 8-11. */
  function Vx(raw: bv16): (vx: bv8)
    ensures vx < 0x10
    ensures (vx as bv16) << 8 == raw & 0x0F00
  {
    ((raw & 0x0F00) >> 8) as bv8
  }

  /** Register Y, bits 4-7. */
  function Vy(raw: bv16): (vy: bv8)
    ensures vy < 0x10
    ensures (vy as bv16) << 4 == raw & 0x00F0
  {
    ((raw & 0x00F0) >> 4) as bv8
  }

  /** The 12-bit address, bits 0-11. */
  function Nnn(raw: bv16): (nnn: bv16)
    ensures nnn < 0x1000
    ensures (raw & 0xF000) | nnn == raw
  {
    raw & 0x0FFF
  }

  /** The 8-bit constant, bits 0-7. */
  function Nn(raw: bv16): (nn: bv8)
    ensures (raw & 0xFF00) | (nn as bv16) == raw
  {
    (raw & 0x00FF) as bv8
  }

  /** The 4-bit constant, bits 0-3. */
  function N(raw: bv16): (n: bv8)
    ensures n < 0x10
    ensures (raw & 0xFFF0) | (n as bv16) == raw
  {
    (raw & 0x000F) as bv8
  }

  // ---------------------------------------------------------------------
  // The table the decoder implements, one entry per instruction.
  // ---------------------------------------------------------------------

  /** Register numbers and N fit in a nibble, addresses in 12 bits. */
  predicate OperandsInRange(i: Instruction)
  {
    match i
    case Jump(nnn) => nnn < 0x1000
    case Call(nnn) => nnn < 0x1000
    case SetIndexRegister(nnn) => nnn < 0x1000
    case JumpWithPcOffset(nnn) => nnn < 0x1000
    case SkipIfRegisterEquals(vx, _) => vx < 0x10
    case SkipIfRegisterNotEquals(vx, _) => vx < 0x10
    case SetImmediate(vx, _) => vx < 0x10
    case AddImmediate(vx, _) => vx < 0x10
    case Random(vx, _) => vx < 0x10
    case SkipIfRegisterVxEqualsVy(vx, vy) => vx < 0x10 && vy < 0x10
    case Copy(vx, vy) => vx < 0x10 && vy < 0x10
    case BitwiseOr(vx, vy) => vx < 0x10 && vy < 0x10
    case BitwiseAnd(vx, vy) => vx < 0x10 && vy < 0x10
    case BitwiseXor(vx, vy) => vx < 0x10 && vy < 0x10
    case Add(vx, vy) => vx < 0x10 && vy < 0x10
    case Subtract(vx, vy) => vx < 0x10 && vy < 0x10
    case SetVxToVyMinusVx(vx, vy) => vx < 0x10 && vy < 0x10
    case SkipIfRegisterVxNotEqualsVy(vx, vy) => vx < 0x10 && vy < 0x10
    case Draw(vx, vy, n) => vx < 0x10 && vy < 0x10 && n < 0x10
    case RightShift(vx) => vx < 0x10
    case LeftShift(vx) => vx < 0x10
    case SkipIfKeyPressed(vx) => vx < 0x10
    case SkipIfKeyNotPressed(vx) => vx < 0x10
    case SetVxToDelayTimer(vx) => vx < 0x10
    case AwaitKeyInput(vx) => vx < 0x10
    case SetDelayTimer(vx) => vx < 0x10
    case SetSoundTimer(vx) => vx < 0x10
    case AddToIndex(vx) => vx < 0x10
    case SetIndexToFontCharacter(vx) => vx < 0x10
    case SetIndexToBinaryCodedVx(vx) => vx < 0x10
    case DumpRegisters(vx) => vx < 0x10
    case LoadRegisters(vx) => vx < 0x10
    case CallMachineCodeRoutine => true
    case Clear => true
    case Return => true
    case Unknown => true
  }

  function X(vx: bv8): bv16 { (vx as bv16) << 8 }
  function Y(vy: bv8): bv16 { (vy as bv16) << 4 }

  /** The opcode word of an instruction in the table the decoder implements,
      with every position the decoder does not read set to 0. The variants the
      decoder never produces, `CallMachineCodeRoutine` and `Unknown`, have
      none: a word 0NNN other than 00E0 and 00EE is rejected as
      `ProgramNotCompatible`. */
  function Opcode(i: Instruction): (r: Option<bv16>)
    requires OperandsInRange(i)
    ensures r.None? <==> i.CallMachineCodeRoutine? || i.Unknown?
  {
    match i
    case CallMachineCodeRoutine => None
    case Unknown => None
    case Clear => Some(0x00E0)
    case Return => Some(0x00EE)
    case Jump(nnn) => Some(0x1000 | nnn)
    case Call(nnn) => Some(0x2000 | nnn)
    case SkipIfRegisterEquals(vx, nn) => Some(0x3000 | X(vx) | nn as bv16)
    case SkipIfRegisterNotEquals(vx, nn) => Some(0x4000 | X(vx) | nn as bv16)
    case SkipIfRegisterVxEqualsVy(vx, vy) => Some(0x5000 | X(vx) | Y(vy))
    case SetImmediate(vx, nn) => Some(0x6000 | X(vx) | nn as bv16)
    case AddImmediate(vx, nn) => Some(0x7000 | X(vx) | nn as bv16)
    case Copy(vx, vy) => Some(0x8000 | X(vx) | Y(vy))
    case BitwiseOr(vx, vy) => Some(0x8001 | X(vx) | Y(vy))
    case BitwiseAnd(vx, vy) => Some(0x8002 | X(vx) | Y(vy))
    case BitwiseXor(vx, vy) => Some(0x8003 | X(vx) | Y(vy))
    case Add(vx, vy) => Some(0x8004 | X(vx) | Y(vy))
    case Subtract(vx, vy) => Some(0x8005 | X(vx) | Y(vy))
    case RightShift(vx) => Some(0x8006 | X(vx))
    case SetVxToVyMinusVx(vx, vy) => Some(0x8007 | X(vx) | Y(vy))
    case LeftShift(vx) => Some(0x800E | X(vx))
    case SkipIfRegisterVxNotEqualsVy(vx, vy) => Some(0x9000 | X(vx) | Y(vy))
    case SetIndexRegister(nnn) => Some(0xA000 | nnn)
    case JumpWithPcOffset(nnn) => Some(0xB000 | nnn)
    case Random(vx, nn) => Some(0xC000 | X(vx) | nn as bv16)
    case Draw(vx, vy, n) => Some(0xD000 | X(vx) | Y(vy) | n as bv16)
    case SkipIfKeyPressed(vx) => Some(0xE09E | X(vx))
    case SkipIfKeyNotPressed(vx) => Some(0xE0A1 | X(vx))
    case SetVxToDelayTimer(vx) => Some(0xF007 | X(vx))
    case AwaitKeyInput(vx) => Some(0xF00A | X(vx))
    case SetDelayTimer(vx) => Some(0xF015 | X(vx))
    case SetSoundTimer(vx) => Some(0xF018 | X(vx))
    case AddToIndex(vx) => Some(0xF01E | X(vx))
    case SetIndexToFontCharacter(vx) => Some(0xF029 | X(vx))
    case SetIndexToBinaryCodedVx(vx) => Some(0xF033 | X(vx))
    case DumpRegisters(vx) => Some(0xF055 | X(vx))
    case LoadRegisters(vx) => Some(0xF065 | X(vx))
  }

  /** The bits of an opcode that the decoder reads when it produces `i`: it
      never looks at X in 00E0/00EE, at the low nibble in 5XY_/9XY_, or at Y
      in the two shifts. */
  function DecodedBits(i: Instruction): bv16
  {
    match i
    case Clear => 0xF0FF
    case Return => 0xF0FF
    case SkipIfRegisterVxEqualsVy(_, _) => 0xFFF0
    case SkipIfRegisterVxNotEqualsVy(_, _) => 0xFFF0
    case RightShift(_) => 0xFF0F
    case LeftShift(_) => 0xFF0F
    case _ => 0xFFFF
  }

  /** The opcodes the table defines: every opcode except 0NNN other than
      00E0/00EE, and the unused sub-codes of the 8, E and F groups. */
  predicate Defined(raw: bv16)
  {
    var group := raw >> 12;
    var lowByte := raw & 0xFF;
    var lowNibble := raw & 0xF;
    (group == 0x0 ==> lowByte == 0xE0 || lowByte == 0xEE) &&
    (group == 0x8 ==> lowNibble <= 0x7 || lowNibble == 0xE) &&
    (group == 0xE ==> lowByte == 0x9E || lowByte == 0xA1) &&
    (group == 0xF ==> lowByte in {0x07, 0x0A, 0x15, 0x18, 0x1E, 0x29, 0x33, 0x55, 0x65})
  }

  // ---------------------------------------------------------------------
  // The decoder.
  // ---------------------------------------------------------------------

  /** `Instruction::new`: decodes one raw opcode. A successful result is the
      table's instruction for the bits the decoder reads; group 0 with any
      other low byte is an incompatible program; every other undefined word is
      an invalid instruction carrying the raw word. */
  function Decode(raw: bv16): (r: Result<Instruction, Chip8Error>)
    ensures r.Err? ==> r.error == if raw >> 12 == 0 then ProgramNotCompatible else InvalidInstruction(raw)
  {
    var vx := Vx(raw);
    var vy := Vy(raw);
    var nnn := Nnn(raw);
    var nn := Nn(raw);
    var n := N(raw);
    match Selector(raw)
    case 0x0 =>
      (match raw & 0x00FF
       case 0xE0 => Ok(Clear)
       case 0xEE => Ok(Return)
       case _ => Err(ProgramNotCompatible))
    case 0x1 => Ok(Jump(nnn))
    case 0x2 => Ok(Call(nnn))
    case 0x3 => Ok(SkipIfRegisterEquals(vx, nn))
    case 0x4 => Ok(SkipIfRegisterNotEquals(vx, nn))
    case 0x5 => Ok(SkipIfRegisterVxEqualsVy(vx, vy))
    case 0x6 => Ok(SetImmediate(vx, nn))
    case 0x7 => Ok(AddImmediate(vx, nn))
    case 0x8 =>
      (match (raw & 0x000F) as bv8
       case 0x0 => Ok(Copy(vx, vy))
       case 0x1 => Ok(BitwiseOr(vx, vy))
       case 0x2 => Ok(BitwiseAnd(vx, vy))
       case 0x3 => Ok(BitwiseXor(vx, vy))
       case 0x4 => Ok(Add(vx, vy))
       case 0x5 => Ok(Subtract(vx, vy))
       case 0x6 => Ok(RightShift(vx))
       case 0x7 => Ok(SetVxToVyMinusVx(vx, vy))
       case 0xE => Ok(LeftShift(vx))
       case _ => Err(InvalidInstruction(raw)))
    case 0x9 => Ok(SkipIfRegisterVxNotEqualsVy(vx, vy))
    case 0xA => Ok(SetIndexRegister(nnn))
    case 0xB => Ok(JumpWithPcOffset(nnn))
    case 0xC => Ok(Random(vx, nn))
    case 0xD => Ok(Draw(vx, vy, n))
    case 0xE =>
      (match (raw & 0x00FF) as bv8
       case 0x9E => Ok(SkipIfKeyPressed(vx))
       case 0xA1 => Ok(SkipIfKeyNotPressed(vx))
       case _ => Err(InvalidInstruction(raw)))
    case 0xF =>
      (match (raw & 0x00FF) as bv8
       case 0x07 => Ok(SetVxToDelayTimer(vx))
       case 0x0A => Ok(AwaitKeyInput(vx))
       case 0x15 => Ok(SetDelayTimer(vx))
       case 0x18 => Ok(SetSoundTimer(vx))
       case 0x1E => Ok(AddToIndex(vx))
       case 0x29 => Ok(SetIndexToFontCharacter(vx))
       case 0x33 => Ok(SetIndexToBinaryCodedVx(vx))
       case 0x55 => Ok(DumpRegisters(vx))
       case 0x65 => Ok(LoadRegisters(vx))
       case _ => Err(InvalidInstruction(raw)))
    case _ =>
      // The selector is a nibble, so this arm is never taken.
      assert false; Err(InvalidInstruction(raw))
  }

  // ---------------------------------------------------------------------
  // The decoder agrees with the table.
  // ---------------------------------------------------------------------

  /** `i` is the table entry for `raw`: its operands are in range and its
      opcode is `raw` with the bits the decoder ignores for `i` cleared. */
  predicate TableEntry(raw: bv16, i: Instruction)
  {
    OperandsInRange(i) && Opcode(i) == Some(raw & DecodedBits(i))
  }

  /** The decoder succeeds exactly on the defined opcodes, and what it returns
      is the table entry for the word. */
  lemma DecodeSound(raw: bv16)
    ensures Decode(raw).Ok? <==> Defined(raw)
    ensures Decode(raw).Ok? ==> TableEntry(raw, Decode(raw).value)
  {
    if Selector(raw) == 0x0 {
      DecodeSoundSystem(raw);
    } else if Selector(raw) in {0x1, 0x2, 0xA, 0xB} {
      DecodeSoundAddresses(raw);
    } else if Selector(raw) in {0x3, 0x4, 0x6, 0x7, 0xC} {
      DecodeSoundImmediates(raw);
    } else if Selector(raw) in {0x5, 0x9, 0xD} {
      DecodeSoundRegisterPairs(raw);
    } else if Selector(raw) == 0x8 && (raw & 0x000F) as bv8 <= 0x3 {
      DecodeSoundLogic(raw);
    } else if Selector(raw) == 0x8 && (raw & 0x000F) as bv8 > 0x3 {
      DecodeSoundArithmetic(raw);
    } else if Selector(raw) == 0xE {
      DecodeSoundKeys(raw);
    } else if Selector(raw) == 0xF && (raw & 0x00FF) as bv8 < 0x20 {
      DecodeSoundTimersAndIndex(raw);
    } else {
      DecodeSoundMemory(raw);
    }
  }

  /** Every table entry is decoded from every word that agrees with its
      opcode on the bits the decoder reads. */
  lemma DecodeComplete(raw: bv16, i: Instruction)
    requires TableEntry(raw, i)
    ensures Decode(raw) == Ok(i)
  {
    if i.Clear? || i.Return? {
      DecodeCompleteSystem(raw, i);
    } else if i.Jump? || i.Call? || i.SetIndexRegister? || i.JumpWithPcOffset? {
      DecodeCompleteAddresses(raw, i);
    } else if i.SkipIfRegisterEquals? || i.SkipIfRegisterNotEquals? || i.SetImmediate? || i.AddImmediate? || i.Random? {
      DecodeCompleteImmediates(raw, i);
    } else if i.SkipIfRegisterVxEqualsVy? || i.SkipIfRegisterVxNotEqualsVy? || i.Draw? {
      DecodeCompleteRegisterPairs(raw, i);
    } else if i.Copy? || i.BitwiseOr? || i.BitwiseAnd? || i.BitwiseXor? {
      DecodeCompleteLogic(raw, i);
    } else if i.Add? || i.Subtract? || i.RightShift? || i.SetVxToVyMinusVx? || i.LeftShift? {
      DecodeCompleteArithmetic(raw, i);
    } else if i.SkipIfKeyPressed? || i.SkipIfKeyNotPressed? {
      DecodeCompleteKeys(raw, i);
    } else if i.SetVxToDelayTimer? || i.AwaitKeyInput? || i.SetDelayTimer? || i.SetSoundTimer? || i.AddToIndex? {
      DecodeCompleteTimersAndIndex(raw, i);
    } else if i.SetIndexToFontCharacter? || i.SetIndexToBinaryCodedVx? || i.DumpRegisters? || i.LoadRegisters? {
      DecodeCompleteMemory(raw, i);
    }
  }

  /** Every instruction that has an opcode decodes back from it. */
  lemma DecodeOpcode(i: Instruction)
    requires OperandsInRange(i) && Opcode(i).Some?
    ensures Decode(Opcode(i).value) == Ok(i)
  {
    OpcodeReadsOnly(i);
    DecodeComplete(Opcode(i).value, i);
  }

  /** An opcode word has no bits set where the decoder does not look. */
  lemma OpcodeReadsOnly(i: Instruction)
    requires OperandsInRange(i) && Opcode(i).Some?
    ensures Opcode(i).value & DecodedBits(i) == Opcode(i).value
  {
  }

  /** The decoder never produces `CallMachineCodeRoutine` or `Unknown`. */
  lemma DecodeNeverUnused(raw: bv16)
    ensures Decode(raw).Ok? ==> !Decode(raw).value.CallMachineCodeRoutine? && !Decode(raw).value.Unknown?
  {
    DecodeSound(raw);
  }

  /** Each word has at most one table entry. */
  lemma TableEntryUnique(raw: bv16, i: Instruction, j: Instruction)
    requires TableEntry(raw, i) && TableEntry(raw, j)
    ensures i == j
  {
    DecodeComplete(raw, i);
    DecodeComplete(raw, j);
  }

  /** The result of decoding depends only on the bits the decoder reads: two
      words that agree on them decode alike (the X nibble of 00E0/00EE, the low
      nibble of 5XY_/9XY_ and the Y nibble of 8XY6/8XYE are ignored). */
  lemma DecodeIgnoresUnreadBits(raw: bv16, other: bv16)
    requires Decode(raw).Ok?
    requires raw & DecodedBits(Decode(raw).value) == other & DecodedBits(Decode(raw).value)
    ensures Decode(other) == Decode(raw)
  {
    DecodeSound(raw);
    DecodeComplete(other, Decode(raw).value);
  }

  /** A few opcodes decoded by hand. */
  lemma DecodeExamples()
    ensures Decode(0x00E0) == Ok(Clear)
    ensures Decode(0x1ABC) == Ok(Jump(0xABC))
    ensures Decode(0x3A42) == Ok(SkipIfRegisterEquals(0xA, 0x42))
    ensures Decode(0x8126) == Ok(RightShift(0x1))
    ensures Decode(0xD125) == Ok(Draw(0x1, 0x2, 0x5))
    ensures Decode(0xF355) == Ok(DumpRegisters(0x3))
    ensures Decode(0x0123) == Err(ProgramNotCompatible)
    ensures Decode(0x8128) == Err(InvalidInstruction(0x8128))
    ensures Decode(0xE1FF) == Err(InvalidInstruction(0xE1FF))
  {
  }

  // ---------------------------------------------------------------------
  // The two directions, one instruction group at a time.
  // ---------------------------------------------------------------------

  /** `DecodeSound` restricted to group 0 (00E0, 00EE and the unsupported 0NNN). */
  lemma DecodeSoundSystem(raw: bv16)
    requires Selector(raw) == 0x0
    ensures Decode(raw).Ok? <==> Defined(raw)
    ensures Decode(raw).Ok? ==> TableEntry(raw, Decode(raw).value)
  {
    if Selector(raw) == 0x0 && raw & 0x00FF == 0xE0 {
      DecodeRowClear(raw);
    } else if Selector(raw) == 0x0 && raw & 0x00FF == 0xEE {
      DecodeRowReturn(raw);
    } else {
      SystemGroupIncompatible(raw);
    }
  }

  /** `DecodeSound` restricted to groups 1, 2, A and B, whose operand is an address. */
  lemma DecodeSoundAddresses(raw: bv16)
    requires Selector(raw) in {0x1, 0x2, 0xA, 0xB}
    ensures Decode(raw).Ok? <==> Defined(raw)
    ensures Decode(raw).Ok? ==> TableEntry(raw, Decode(raw).value)
  {
    if Selector(raw) == 0x1 {
      DecodeRowJump(raw);
    } else if Selector(raw) == 0x2 {
      DecodeRowCall(raw);
    } else if Selector(raw) == 0xA {
      DecodeRowSetIndexRegister(raw);
    } else if Selector(raw) == 0xB {
      DecodeRowJumpWithPcOffset(raw);
    }
  }

  /** `DecodeSound` restricted to groups 3, 4, 6, 7 and C, whose operands are a register and a byte. */
  lemma DecodeSoundImmediates(raw: bv16)
    requires Selector(raw) in {0x3, 0x4, 0x6, 0x7, 0xC}
    ensures Decode(raw).Ok? <==> Defined(raw)
    ensures Decode(raw).Ok? ==> TableEntry(raw, Decode(raw).value)
  {
    if Selector(raw) == 0x3 {
      DecodeRowSkipIfRegisterEquals(raw);
    } else if Selector(raw) == 0x4 {
      DecodeRowSkipIfRegisterNotEquals(raw);
    } else if Selector(raw) == 0x6 {
      DecodeRowSetImmediate(raw);
    } else if Selector(raw) == 0x7 {
      DecodeRowAddImmediate(raw);
    } else if Selector(raw) == 0xC {
      DecodeRowRandom(raw);
    }
  }

  /** `DecodeSound` restricted to groups 5, 9 and D, whose operands are two registers and, for D, a nibble. */
  lemma DecodeSoundRegisterPairs(raw: bv16)
    requires Selector(raw) in {0x5, 0x9, 0xD}
    ensures Decode(raw).Ok? <==> Defined(raw)
    ensures Decode(raw).Ok? ==> TableEntry(raw, Decode(raw).value)
  {
    if Selector(raw) == 0x5 {
      DecodeRowSkipIfRegisterVxEqualsVy(raw);
    } else if Selector(raw) == 0x9 {
      DecodeRowSkipIfRegisterVxNotEqualsVy(raw);
    } else if Selector(raw) == 0xD {
      DecodeRowDraw(raw);
    }
  }

  /** `DecodeSound` restricted to group 8 with low nibble 0-3. */
  lemma DecodeSoundLogic(raw: bv16)
    requires Selector(raw) == 0x8 && (raw & 0x000F) as bv8 <= 0x3
    ensures Decode(raw).Ok? <==> Defined(raw)
    ensures Decode(raw).Ok? ==> TableEntry(raw, Decode(raw).value)
  {
    if Selector(raw) == 0x8 && (raw & 0x000F) as bv8 == 0x0 {
      DecodeRowCopy(raw);
    } else if Selector(raw) == 0x8 && (raw & 0x000F) as bv8 == 0x1 {
      DecodeRowBitwiseOr(raw);
    } else if Selector(raw) == 0x8 && (raw & 0x000F) as bv8 == 0x2 {
      DecodeRowBitwiseAnd(raw);
    } else if Selector(raw) == 0x8 && (raw & 0x000F) as bv8 == 0x3 {
      DecodeRowBitwiseXor(raw);
    }
  }

  /** `DecodeSound` restricted to group 8 with low nibble 4-F. */
  lemma DecodeSoundArithmetic(raw: bv16)
    requires Selector(raw) == 0x8 && (raw & 0x000F) as bv8 > 0x3
    ensures Decode(raw).Ok? <==> Defined(raw)
    ensures Decode(raw).Ok? ==> TableEntry(raw, Decode(raw).value)
  {
    if Selector(raw) == 0x8 && (raw & 0x000F) as bv8 == 0x4 {
      DecodeRowAdd(raw);
    } else if Selector(raw) == 0x8 && (raw & 0x000F) as bv8 == 0x5 {
      DecodeRowSubtract(raw);
    } else if Selector(raw) == 0x8 && (raw & 0x000F) as bv8 == 0x6 {
      DecodeRowRightShift(raw);
    } else if Selector(raw) == 0x8 && (raw & 0x000F) as bv8 == 0x7 {
      DecodeRowSetVxToVyMinusVx(raw);
    } else if Selector(raw) == 0x8 && (raw & 0x000F) as bv8 == 0xE {
      DecodeRowLeftShift(raw);
    } else {
      ArithmeticGroupInvalid(raw);
    }
  }

  /** `DecodeSound` restricted to group E. */
  lemma DecodeSoundKeys(raw: bv16)
    requires Selector(raw) == 0xE
    ensures Decode(raw).Ok? <==> Defined(raw)
    ensures Decode(raw).Ok? ==> TableEntry(raw, Decode(raw).value)
  {
    if Selector(raw) == 0xE && (raw & 0x00FF) as bv8 == 0x9E {
      DecodeRowSkipIfKeyPressed(raw);
    } else if Selector(raw) == 0xE && (raw & 0x00FF) as bv8 == 0xA1 {
      DecodeRowSkipIfKeyNotPressed(raw);
    } else {
      KeyGroupInvalid(raw);
    }
  }

  /** `DecodeSound` restricted to group F with low byte below 0x20. */
  lemma DecodeSoundTimersAndIndex(raw: bv16)
    requires Selector(raw) == 0xF && (raw & 0x00FF) as bv8 < 0x20
    ensures Decode(raw).Ok? <==> Defined(raw)
    ensures Decode(raw).Ok? ==> TableEntry(raw, Decode(raw).value)
  {
    if Selector(raw) == 0xF && (raw & 0x00FF) as bv8 == 0x07 {
      DecodeRowSetVxToDelayTimer(raw);
    } else if Selector(raw) == 0xF && (raw & 0x00FF) as bv8 == 0x0A {
      DecodeRowAwaitKeyInput(raw);
    } else if Selector(raw) == 0xF && (raw & 0x00FF) as bv8 == 0x15 {
      DecodeRowSetDelayTimer(raw);
    } else if Selector(raw) == 0xF && (raw & 0x00FF) as bv8 == 0x18 {
      DecodeRowSetSoundTimer(raw);
    } else if Selector(raw) == 0xF && (raw & 0x00FF) as bv8 == 0x1E {
      DecodeRowAddToIndex(raw);
    } else {
      MiscGroupInvalid(raw);
    }
  }

  /** `DecodeSound` restricted to group F with low byte 0x20 or above. */
  lemma DecodeSoundMemory(raw: bv16)
    requires Selector(raw) == 0xF && (raw & 0x00FF) as bv8 >= 0x20
    ensures Decode(raw).Ok? <==> Defined(raw)
    ensures Decode(raw).Ok? ==> TableEntry(raw, Decode(raw).value)
  {
    if Selector(raw) == 0xF && (raw & 0x00FF) as bv8 == 0x29 {
      DecodeRowSetIndexToFontCharacter(raw);
    } else if Selector(raw) == 0xF && (raw & 0x00FF) as bv8 == 0x33 {
      DecodeRowSetIndexToBinaryCodedVx(raw);
    } else if Selector(raw) == 0xF && (raw & 0x00FF) as bv8 == 0x55 {
      DecodeRowDumpRegisters(raw);
    } else if Selector(raw) == 0xF && (raw & 0x00FF) as bv8 == 0x65 {
      DecodeRowLoadRegisters(raw);
    } else {
      MiscGroupInvalid(raw);
    }
  }

  /** `DecodeComplete` restricted to the instructions of group 0 (00E0, 00EE and the unsupported 0NNN). */
  lemma DecodeCompleteSystem(raw: bv16, i: Instruction)
    requires TableEntry(raw, i)
    requires i.Clear? || i.Return?
    ensures Decode(raw) == Ok(i)
  {
  }

  /** `DecodeComplete` restricted to the instructions of groups 1, 2, A and B, whose operand is an address. */
  lemma DecodeCompleteAddresses(raw: bv16, i: Instruction)
    requires TableEntry(raw, i)
    requires i.Jump? || i.Call? || i.SetIndexRegister? || i.JumpWithPcOffset?
    ensures Decode(raw) == Ok(i)
  {
    if i.Jump? {
      DecodeEntryJump(raw, i.nnn);
    } else if i.Call? {
      DecodeEntryCall(raw, i.nnn);
    } else if i.SetIndexRegister? {
      DecodeEntrySetIndexRegister(raw, i.nnn);
    } else {
      DecodeEntryJumpWithPcOffset(raw, i.nnn);
    }
  }

  /** `DecodeComplete` restricted to the instructions of groups 3, 4, 6, 7 and C, whose operands are a register and a byte. */
  lemma DecodeCompleteImmediates(raw: bv16, i: Instruction)
    requires TableEntry(raw, i)
    requires i.SkipIfRegisterEquals? || i.SkipIfRegisterNotEquals? || i.SetImmediate? || i.AddImmediate? || i.Random?
    ensures Decode(raw) == Ok(i)
  {
    if i.SkipIfRegisterEquals? {
      DecodeEntrySkipIfRegisterEquals(raw, i.vx, i.nn);
    } else if i.SkipIfRegisterNotEquals? {
      DecodeEntrySkipIfRegisterNotEquals(raw, i.vx, i.nn);
    } else if i.SetImmediate? {
      DecodeEntrySetImmediate(raw, i.vx, i.nn);
    } else if i.AddImmediate? {
      DecodeEntryAddImmediate(raw, i.vx, i.nn);
    } else {
      DecodeEntryRandom(raw, i.vx, i.nn);
    }
  }

  /** `DecodeComplete` restricted to the instructions of groups 5, 9 and D, whose operands are two registers and, for D, a nibble. */
  lemma DecodeCompleteRegisterPairs(raw: bv16, i: Instruction)
    requires TableEntry(raw, i)
    requires i.SkipIfRegisterVxEqualsVy? || i.SkipIfRegisterVxNotEqualsVy? || i.Draw?
    ensures Decode(raw) == Ok(i)
  {
    if i.SkipIfRegisterVxEqualsVy? {
      DecodeEntrySkipIfRegisterVxEqualsVy(raw, i.vx, i.vy);
    } else if i.SkipIfRegisterVxNotEqualsVy? {
      DecodeEntrySkipIfRegisterVxNotEqualsVy(raw, i.vx, i.vy);
    } else {
      DecodeEntryDraw(raw, i.vx, i.vy, i.n);
    }
  }

  /** `DecodeComplete` restricted to the instructions of group 8 with low nibble 0-3. */
  lemma DecodeCompleteLogic(raw: bv16, i: Instruction)
    requires TableEntry(raw, i)
    requires i.Copy? || i.BitwiseOr? || i.BitwiseAnd? || i.BitwiseXor?
    ensures Decode(raw) == Ok(i)
  {
  }

  /** `DecodeComplete` restricted to the instructions of group 8 with low nibble 4-F. */
  lemma DecodeCompleteArithmetic(raw: bv16, i: Instruction)
    requires TableEntry(raw, i)
    requires i.Add? || i.Subtract? || i.RightShift? || i.SetVxToVyMinusVx? || i.LeftShift?
    ensures Decode(raw) == Ok(i)
  {
  }

  /** `DecodeComplete` restricted to the instructions of group E. */
  lemma DecodeCompleteKeys(raw: bv16, i: Instruction)
    requires TableEntry(raw, i)
    requires i.SkipIfKeyPressed? || i.SkipIfKeyNotPressed?
    ensures Decode(raw) == Ok(i)
  {
  }

  /** `DecodeComplete` restricted to the instructions of group F with low byte below 0x20. */
  lemma DecodeCompleteTimersAndIndex(raw: bv16, i: Instruction)
    requires TableEntry(raw, i)
    requires i.SetVxToDelayTimer? || i.AwaitKeyInput? || i.SetDelayTimer? || i.SetSoundTimer? || i.AddToIndex?
    ensures Decode(raw) == Ok(i)
  {
  }

  /** `DecodeComplete` restricted to the instructions of group F with low byte 0x20 or above. */
  lemma DecodeCompleteMemory(raw: bv16, i: Instruction)
    requires TableEntry(raw, i)
    requires i.SetIndexToFontCharacter? || i.SetIndexToBinaryCodedVx? || i.DumpRegisters? || i.LoadRegisters?
    ensures Decode(raw) == Ok(i)
  {
  }

  // ---------------------------------------------------------------------
  // The error arms: an undefined word in a multiplexed group is rejected,
  // with the error kind of that group.
  // ---------------------------------------------------------------------

  lemma SystemGroupIncompatible(raw: bv16)
    requires Selector(raw) == 0x0 && raw & 0xFF != 0xE0 && raw & 0xFF != 0xEE
    ensures Decode(raw) == Err(ProgramNotCompatible)
  {
  }

  lemma ArithmeticGroupInvalid(raw: bv16)
    requires Selector(raw) == 0x8 && !Defined(raw)
    ensures Decode(raw) == Err(InvalidInstruction(raw))
  {
  }

  lemma KeyGroupInvalid(raw: bv16)
    requires Selector(raw) == 0xE && !Defined(raw)
    ensures Decode(raw) == Err(InvalidInstruction(raw))
  {
  }

  lemma MiscGroupInvalid(raw: bv16)
    requires Selector(raw) == 0xF && !Defined(raw)
    ensures Decode(raw) == Err(InvalidInstruction(raw))
  {
  }

  // ---------------------------------------------------------------------
  // Reading the operands back out of an opcode word: the fields of a word
  // built from a group and operands are those operands.
  // ---------------------------------------------------------------------

  lemma OpcodeShapeXNn(raw: bv16, base: bv16, vx: bv8, nn: bv8)
    requires base & 0x0FFF == 0 && vx < 0x10
    requires base | X(vx) | nn as bv16 == raw
    ensures Selector(raw) == base >> 12 && Vx(raw) == vx && Nn(raw) == nn
  {
  }

  lemma OpcodeShapeXYN(raw: bv16, base: bv16, vx: bv8, vy: bv8, n: bv8)
    requires base & 0x0FFF == 0 && vx < 0x10 && vy < 0x10 && n < 0x10
    requires base | X(vx) | Y(vy) | n as bv16 == raw
    ensures Selector(raw) == base >> 12 && Vx(raw) == vx && Vy(raw) == vy && N(raw) == n
  {
  }

  // ---------------------------------------------------------------------
  // One table row at a time: a word in the row decodes to that row's
  // variant with its operands taken from their positions, and that variant is
  // the table's entry for the word.
  // ---------------------------------------------------------------------

  lemma DecodeRowClear(raw: bv16)
    requires Selector(raw) == 0x0 && raw & 0x00FF == 0xE0
    ensures Decode(raw) == Ok(Clear)
    ensures TableEntry(raw, Clear)
  {
  }

  lemma DecodeRowReturn(raw: bv16)
    requires Selector(raw) == 0x0 && raw & 0x00FF == 0xEE
    ensures Decode(raw) == Ok(Return)
    ensures TableEntry(raw, Return)
  {
  }

  lemma DecodeRowJump(raw: bv16)
    requires Selector(raw) == 0x1
    ensures Decode(raw) == Ok(Jump(Nnn(raw)))
    ensures TableEntry(raw, Jump(Nnn(raw)))
  {
  }

  lemma DecodeRowCall(raw: bv16)
    requires Selector(raw) == 0x2
    ensures Decode(raw) == Ok(Call(Nnn(raw)))
    ensures TableEntry(raw, Call(Nnn(raw)))
  {
  }

  lemma DecodeRowSkipIfRegisterEquals(raw: bv16)
    requires Selector(raw) == 0x3
    ensures Decode(raw) == Ok(SkipIfRegisterEquals(Vx(raw), Nn(raw)))
    ensures TableEntry(raw, SkipIfRegisterEquals(Vx(raw), Nn(raw)))
  {
  }

  lemma DecodeRowSkipIfRegisterNotEquals(raw: bv16)
    requires Selector(raw) == 0x4
    ensures Decode(raw) == Ok(SkipIfRegisterNotEquals(Vx(raw), Nn(raw)))
    ensures TableEntry(raw, SkipIfRegisterNotEquals(Vx(raw), Nn(raw)))
  {
  }

  lemma DecodeRowSkipIfRegisterVxEqualsVy(raw: bv16)
    requires Selector(raw) == 0x5
    ensures Decode(raw) == Ok(SkipIfRegisterVxEqualsVy(Vx(raw), Vy(raw)))
    ensures TableEntry(raw, SkipIfRegisterVxEqualsVy(Vx(raw), Vy(raw)))
  {
  }

  lemma DecodeRowSetImmediate(raw: bv16)
    requires Selector(raw) == 0x6
    ensures Decode(raw) == Ok(SetImmediate(Vx(raw), Nn(raw)))
    ensures TableEntry(raw, SetImmediate(Vx(raw), Nn(raw)))
  {
  }

  lemma DecodeRowAddImmediate(raw: bv16)
    requires Selector(raw) == 0x7
    ensures Decode(raw) == Ok(AddImmediate(Vx(raw), Nn(raw)))
    ensures TableEntry(raw, AddImmediate(Vx(raw), Nn(raw)))
  {
  }

  lemma DecodeRowCopy(raw: bv16)
    requires Selector(raw) == 0x8 && (raw & 0x000F) as bv8 == 0x0
    ensures Decode(raw) == Ok(Copy(Vx(raw), Vy(raw)))
    ensures TableEntry(raw, Copy(Vx(raw), Vy(raw)))
  {
  }

  lemma DecodeRowBitwiseOr(raw: bv16)
    requires Selector(raw) == 0x8 && (raw & 0x000F) as bv8 == 0x1
    ensures Decode(raw) == Ok(BitwiseOr(Vx(raw), Vy(raw)))
    ensures TableEntry(raw, BitwiseOr(Vx(raw), Vy(raw)))
  {
  }

  lemma DecodeRowBitwiseAnd(raw: bv16)
    requires Selector(raw) == 0x8 && (raw & 0x000F) as bv8 == 0x2
    ensures Decode(raw) == Ok(BitwiseAnd(Vx(raw), Vy(raw)))
    ensures TableEntry(raw, BitwiseAnd(Vx(raw), Vy(raw)))
  {
  }

  lemma DecodeRowBitwiseXor(raw: bv16)
    requires Selector(raw) == 0x8 && (raw & 0x000F) as bv8 == 0x3
    ensures Decode(raw) == Ok(BitwiseXor(Vx(raw), Vy(raw)))
    ensures TableEntry(raw, BitwiseXor(Vx(raw), Vy(raw)))
  {
  }

  lemma DecodeRowAdd(raw: bv16)
    requires Selector(raw) == 0x8 && (raw & 0x000F) as bv8 == 0x4
    ensures Decode(raw) == Ok(Add(Vx(raw), Vy(raw)))
    ensures TableEntry(raw, Add(Vx(raw), Vy(raw)))
  {
  }

  lemma DecodeRowSubtract(raw: bv16)
    requires Selector(raw) == 0x8 && (raw & 0x000F) as bv8 == 0x5
    ensures Decode(raw) == Ok(Subtract(Vx(raw), Vy(raw)))
    ensures TableEntry(raw, Subtract(Vx(raw), Vy(raw)))
  {
  }

  lemma DecodeRowRightShift(raw: bv16)
    requires Selector(raw) == 0x8 && (raw & 0x000F) as bv8 == 0x6
    ensures Decode(raw) == Ok(RightShift(Vx(raw)))
    ensures TableEntry(raw, RightShift(Vx(raw)))
  {
  }

  lemma DecodeRowSetVxToVyMinusVx(raw: bv16)
    requires Selector(raw) == 0x8 && (raw & 0x000F) as bv8 == 0x7
    ensures Decode(raw) == Ok(SetVxToVyMinusVx(Vx(raw), Vy(raw)))
    ensures TableEntry(raw, SetVxToVyMinusVx(Vx(raw), Vy(raw)))
  {
  }

  lemma DecodeRowLeftShift(raw: bv16)
    requires Selector(raw) == 0x8 && (raw & 0x000F) as bv8 == 0xE
    ensures Decode(raw) == Ok(LeftShift(Vx(raw)))
    ensures TableEntry(raw, LeftShift(Vx(raw)))
  {
  }

  lemma DecodeRowSkipIfRegisterVxNotEqualsVy(raw: bv16)
    requires Selector(raw) == 0x9
    ensures Decode(raw) == Ok(SkipIfRegisterVxNotEqualsVy(Vx(raw), Vy(raw)))
    ensures TableEntry(raw, SkipIfRegisterVxNotEqualsVy(Vx(raw), Vy(raw)))
  {
  }

  lemma DecodeRowSetIndexRegister(raw: bv16)
    requires Selector(raw) == 0xA
    ensures Decode(raw) == Ok(SetIndexRegister(Nnn(raw)))
    ensures TableEntry(raw, SetIndexRegister(Nnn(raw)))
  {
  }

  lemma DecodeRowJumpWithPcOffset(raw: bv16)
    requires Selector(raw) == 0xB
    ensures Decode(raw) == Ok(JumpWithPcOffset(Nnn(raw)))
    ensures TableEntry(raw, JumpWithPcOffset(Nnn(raw)))
  {
  }

  lemma DecodeRowRandom(raw: bv16)
    requires Selector(raw) == 0xC
    ensures Decode(raw) == Ok(Random(Vx(raw), Nn(raw)))
    ensures TableEntry(raw, Random(Vx(raw), Nn(raw)))
  {
  }

  lemma DecodeRowDraw(raw: bv16)
    requires Selector(raw) == 0xD
    ensures Decode(raw) == Ok(Draw(Vx(raw), Vy(raw), N(raw)))
    ensures TableEntry(raw, Draw(Vx(raw), Vy(raw), N(raw)))
  {
  }

  lemma DecodeRowSkipIfKeyPressed(raw: bv16)
    requires Selector(raw) == 0xE && (raw & 0x00FF) as bv8 == 0x9E
    ensures Decode(raw) == Ok(SkipIfKeyPressed(Vx(raw)))
    ensures TableEntry(raw, SkipIfKeyPressed(Vx(raw)))
  {
  }

  lemma DecodeRowSkipIfKeyNotPressed(raw: bv16)
    requires Selector(raw) == 0xE && (raw & 0x00FF) as bv8 == 0xA1
    ensures Decode(raw) == Ok(SkipIfKeyNotPressed(Vx(raw)))
    ensures TableEntry(raw, SkipIfKeyNotPressed(Vx(raw)))
  {
  }

  lemma DecodeRowSetVxToDelayTimer(raw: bv16)
    requires Selector(raw) == 0xF && (raw & 0x00FF) as bv8 == 0x07
    ensures Decode(raw) == Ok(SetVxToDelayTimer(Vx(raw)))
    ensures TableEntry(raw, SetVxToDelayTimer(Vx(raw)))
  {
  }

  lemma DecodeRowAwaitKeyInput(raw: bv16)
    requires Selector(raw) == 0xF && (raw & 0x00FF) as bv8 == 0x0A
    ensures Decode(raw) == Ok(AwaitKeyInput(Vx(raw)))
    ensures TableEntry(raw, AwaitKeyInput(Vx(raw)))
  {
  }

  lemma DecodeRowSetDelayTimer(raw: bv16)
    requires Selector(raw) == 0xF && (raw & 0x00FF) as bv8 == 0x15
    ensures Decode(raw) == Ok(SetDelayTimer(Vx(raw)))
    ensures TableEntry(raw, SetDelayTimer(Vx(raw)))
  {
  }

  lemma DecodeRowSetSoundTimer(raw: bv16)
    requires Selector(raw) == 0xF && (raw & 0x00FF) as bv8 == 0x18
    ensures Decode(raw) == Ok(SetSoundTimer(Vx(raw)))
    ensures TableEntry(raw, SetSoundTimer(Vx(raw)))
  {
  }

  lemma DecodeRowAddToIndex(raw: bv16)
    requires Selector(raw) == 0xF && (raw & 0x00FF) as bv8 == 0x1E
    ensures Decode(raw) == Ok(AddToIndex(Vx(raw)))
    ensures TableEntry(raw, AddToIndex(Vx(raw)))
  {
  }

  lemma DecodeRowSetIndexToFontCharacter(raw: bv16)
    requires Selector(raw) == 0xF && (raw & 0x00FF) as bv8 == 0x29
    ensures Decode(raw) == Ok(SetIndexToFontCharacter(Vx(raw)))
    ensures TableEntry(raw, SetIndexToFontCharacter(Vx(raw)))
  {
  }

  lemma DecodeRowSetIndexToBinaryCodedVx(raw: bv16)
    requires Selector(raw) == 0xF && (raw & 0x00FF) as bv8 == 0x33
    ensures Decode(raw) == Ok(SetIndexToBinaryCodedVx(Vx(raw)))
    ensures TableEntry(raw, SetIndexToBinaryCodedVx(Vx(raw)))
  {
  }

  lemma DecodeRowDumpRegisters(raw: bv16)
    requires Selector(raw) == 0xF && (raw & 0x00FF) as bv8 == 0x55
    ensures Decode(raw) == Ok(DumpRegisters(Vx(raw)))
    ensures TableEntry(raw, DumpRegisters(Vx(raw)))
  {
  }

  lemma DecodeRowLoadRegisters(raw: bv16)
    requires Selector(raw) == 0xF && (raw & 0x00FF) as bv8 == 0x65
    ensures Decode(raw) == Ok(LoadRegisters(Vx(raw)))
    ensures TableEntry(raw, LoadRegisters(Vx(raw)))
  {
  }

  // ---------------------------------------------------------------------
  // The single-variant groups 1-7 and 9-D: a word matching a row's
  // entry carries that entry's operands in its fields (`OpcodeFields*`), and
  // so decodes to it (`DecodeEntry*`). The other rows need no such step.
  // ---------------------------------------------------------------------

  lemma OpcodeFieldsJump(raw: bv16, nnn: bv16)
    requires TableEntry(raw, Jump(nnn))
    ensures Selector(raw) == 0x1 && Nnn(raw) == nnn
  {
  }

  lemma DecodeEntryJump(raw: bv16, nnn: bv16)
    requires TableEntry(raw, Jump(nnn))
    ensures Decode(raw) == Ok(Jump(nnn))
  {
    OpcodeFieldsJump(raw, nnn);
    DecodeRowJump(raw);
  }

  lemma OpcodeFieldsCall(raw: bv16, nnn: bv16)
    requires TableEntry(raw, Call(nnn))
    ensures Selector(raw) == 0x2 && Nnn(raw) == nnn
  {
  }

  lemma DecodeEntryCall(raw: bv16, nnn: bv16)
    requires TableEntry(raw, Call(nnn))
    ensures Decode(raw) == Ok(Call(nnn))
  {
    OpcodeFieldsCall(raw, nnn);
    DecodeRowCall(raw);
  }

  lemma OpcodeFieldsSkipIfRegisterEquals(raw: bv16, vx: bv8, nn: bv8)
    requires TableEntry(raw, SkipIfRegisterEquals(vx, nn))
    ensures Selector(raw) == 0x3 && Vx(raw) == vx && Nn(raw) == nn
  {
    OpcodeShapeXNn(raw, 0x3000, vx, nn);
  }

  lemma DecodeEntrySkipIfRegisterEquals(raw: bv16, vx: bv8, nn: bv8)
    requires TableEntry(raw, SkipIfRegisterEquals(vx, nn))
    ensures Decode(raw) == Ok(SkipIfRegisterEquals(vx, nn))
  {
    OpcodeFieldsSkipIfRegisterEquals(raw, vx, nn);
    DecodeRowSkipIfRegisterEquals(raw);
  }

  lemma OpcodeFieldsSkipIfRegisterNotEquals(raw: bv16, vx: bv8, nn: bv8)
    requires TableEntry(raw, SkipIfRegisterNotEquals(vx, nn))
    ensures Selector(raw) == 0x4 && Vx(raw) == vx && Nn(raw) == nn
  {
    OpcodeShapeXNn(raw, 0x4000, vx, nn);
  }

  lemma DecodeEntrySkipIfRegisterNotEquals(raw: bv16, vx: bv8, nn: bv8)
    requires TableEntry(raw, SkipIfRegisterNotEquals(vx, nn))
    ensures Decode(raw) == Ok(SkipIfRegisterNotEquals(vx, nn))
  {
    OpcodeFieldsSkipIfRegisterNotEquals(raw, vx, nn);
    DecodeRowSkipIfRegisterNotEquals(raw);
  }

  lemma OpcodeFieldsSkipIfRegisterVxEqualsVy(raw: bv16, vx: bv8, vy: bv8)
    requires TableEntry(raw, SkipIfRegisterVxEqualsVy(vx, vy))
    ensures Selector(raw) == 0x5 && Vx(raw) == vx && Vy(raw) == vy
  {
  }

  lemma DecodeEntrySkipIfRegisterVxEqualsVy(raw: bv16, vx: bv8, vy: bv8)
    requires TableEntry(raw, SkipIfRegisterVxEqualsVy(vx, vy))
    ensures Decode(raw) == Ok(SkipIfRegisterVxEqualsVy(vx, vy))
  {
    OpcodeFieldsSkipIfRegisterVxEqualsVy(raw, vx, vy);
    DecodeRowSkipIfRegisterVxEqualsVy(raw);
  }

  lemma OpcodeFieldsSetImmediate(raw: bv16, vx: bv8, nn: bv8)
    requires TableEntry(raw, SetImmediate(vx, nn))
    ensures Selector(raw) == 0x6 && Vx(raw) == vx && Nn(raw) == nn
  {
    OpcodeShapeXNn(raw, 0x6000, vx, nn);
  }

  lemma DecodeEntrySetImmediate(raw: bv16, vx: bv8, nn: bv8)
    requires TableEntry(raw, SetImmediate(vx, nn))
    ensures Decode(raw) == Ok(SetImmediate(vx, nn))
  {
    OpcodeFieldsSetImmediate(raw, vx, nn);
    DecodeRowSetImmediate(raw);
  }

  lemma OpcodeFieldsAddImmediate(raw: bv16, vx: bv8, nn: bv8)
    requires TableEntry(raw, AddImmediate(vx, nn))
    ensures Selector(raw) == 0x7 && Vx(raw) == vx && Nn(raw) == nn
  {
    OpcodeShapeXNn(raw, 0x7000, vx, nn);
  }

  lemma DecodeEntryAddImmediate(raw: bv16, vx: bv8, nn: bv8)
    requires TableEntry(raw, AddImmediate(vx, nn))
    ensures Decode(raw) == Ok(AddImmediate(vx, nn))
  {
    OpcodeFieldsAddImmediate(raw, vx, nn);
    DecodeRowAddImmediate(raw);
  }

  lemma OpcodeFieldsSkipIfRegisterVxNotEqualsVy(raw: bv16, vx: bv8, vy: bv8)
    requires TableEntry(raw, SkipIfRegisterVxNotEqualsVy(vx, vy))
    ensures Selector(raw) == 0x9 && Vx(raw) == vx && Vy(raw) == vy
  {
  }

  lemma DecodeEntrySkipIfRegisterVxNotEqualsVy(raw: bv16, vx: bv8, vy: bv8)
    requires TableEntry(raw, SkipIfRegisterVxNotEqualsVy(vx, vy))
    ensures Decode(raw) == Ok(SkipIfRegisterVxNotEqualsVy(vx, vy))
  {
    OpcodeFieldsSkipIfRegisterVxNotEqualsVy(raw, vx, vy);
    DecodeRowSkipIfRegisterVxNotEqualsVy(raw);
  }

  lemma OpcodeFieldsSetIndexRegister(raw: bv16, nnn: bv16)
    requires TableEntry(raw, SetIndexRegister(nnn))
    ensures Selector(raw) == 0xA && Nnn(raw) == nnn
  {
  }

  lemma DecodeEntrySetIndexRegister(raw: bv16, nnn: bv16)
    requires TableEntry(raw, SetIndexRegister(nnn))
    ensures Decode(raw) == Ok(SetIndexRegister(nnn))
  {
    OpcodeFieldsSetIndexRegister(raw, nnn);
    DecodeRowSetIndexRegister(raw);
  }

  lemma OpcodeFieldsJumpWithPcOffset(raw: bv16, nnn: bv16)
    requires TableEntry(raw, JumpWithPcOffset(nnn))
    ensures Selector(raw) == 0xB && Nnn(raw) == nnn
  {
  }

  lemma DecodeEntryJumpWithPcOffset(raw: bv16, nnn: bv16)
    requires TableEntry(raw, JumpWithPcOffset(nnn))
    ensures Decode(raw) == Ok(JumpWithPcOffset(nnn))
  {
    OpcodeFieldsJumpWithPcOffset(raw, nnn);
    DecodeRowJumpWithPcOffset(raw);
  }

  lemma OpcodeFieldsRandom(raw: bv16, vx: bv8, nn: bv8)
    requires TableEntry(raw, Random(vx, nn))
    ensures Selector(raw) == 0xC && Vx(raw) == vx && Nn(raw) == nn
  {
    OpcodeShapeXNn(raw, 0xC000, vx, nn);
  }

  lemma DecodeEntryRandom(raw: bv16, vx: bv8, nn: bv8)
    requires TableEntry(raw, Random(vx, nn))
    ensures Decode(raw) == Ok(Random(vx, nn))
  {
    OpcodeFieldsRandom(raw, vx, nn);
    DecodeRowRandom(raw);
  }

  lemma OpcodeFieldsDraw(raw: bv16, vx: bv8, vy: bv8, n: bv8)
    requires TableEntry(raw, Draw(vx, vy, n))
    ensures Selector(raw) == 0xD && Vx(raw) == vx && Vy(raw) == vy && N(raw) == n
  {
    OpcodeShapeXYN(raw, 0xD000, vx, vy, n);
  }

  lemma DecodeEntryDraw(raw: bv16, vx: bv8, vy: bv8, n: bv8)
    requires TableEntry(raw, Draw(vx, vy, n))
    ensures Decode(raw) == Ok(Draw(vx, vy, n))
  {
    OpcodeFieldsDraw(raw, vx, vy, n);
    DecodeRowDraw(raw);
  }
}
