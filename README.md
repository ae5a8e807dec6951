# CHIP-8 opcode decoder and display buffer

A Dafny model of two pieces of a CHIP-8 emulator written in Rust:

- the opcode decoder `Instruction::new` (`src/chip_8/instructions/mod.rs`).
  It turns a raw 16-bit opcode into one of the `Instruction` variants. Otherwise it
  returns `Chip8Error::ProgramNotCompatible` (the unsupported 0NNN
  machine-code call) or `Chip8Error::InvalidInstruction` carrying the raw word;
- the display buffer `Screen` (`src/chip_8/screen.rs`). This is a row-major array of
  `WIDTH * HEIGHT` bytes, one per pixel. `clear` blanks it in place and `invert`
  toggles one pixel and reports its new value.

`instructions.dfy` (module `Instructions`) keeps the decoder in the source's
form: a pure function over `bv16`, with the same masks, shifts, nested matches
and error arms. The partner it is proved against is the table the decoder implements,
written per instruction:

- `Opcode(i)` is the opcode word of each instruction the decoder can produce;
- `DecodedBits(i)` gives the bits the decoder reads for that instruction;
- `Defined(raw)` is the set of opcodes the table defines;
- `TableEntry(raw, i)` says that `i` is the table's instruction for `raw`.

`DecodeSound` and `DecodeComplete` prove the decoder agrees with the table in
both directions, for all 65536 words. Both are split by instruction group. The
per-row helper lemmas are:

- `DecodeRow*`: a word in the row decodes to that row's variant, with positional operands;
- `OpcodeFields*` and `DecodeEntry*`: only for the single-variant groups 1-7 and 9-D. They read the operands back out of a table word, and so show that the table entry is what the decoder returns.

`screen.dfy` (module `Display`) keeps `Screen` as a class with an array field.
`Clear` and `Invert` update it in place and are specified against the functions
`Blank` and `Toggle` on its contents. The lemmas about those functions carry what
drawing relies on:

- a double inversion restores a pixel;
- inversions commute;
- drawing the same pixels twice erases them;
- a buffer of 0s and 1s stays one.

## Model

| member | source | states |
|---|---|---|
| Instructions.Instruction | src/chip_8/instructions/mod.rs:26-189 | All 36 variants of `enum Instruction`, with their fields at the Rust widths (`u8` as `bv8`, `u16` as `bv16`). |
| Instructions.Chip8Error | src/chip_8/instructions/mod.rs:220-276 | The two `Chip8Error` variants the decoder returns: `ProgramNotCompatible` and `InvalidInstruction` carrying the raw word. |
| Instructions.Opcode | src/chip_8/instructions/mod.rs:27-183 | The opcode word of each variant in the table the decoder implements, with the positions the decoder does not read set to 0. Exactly the variants the decoder never produces (`CallMachineCodeRoutine`, `Unknown`) have none. |
| Instructions.OpcodeReadsOnly | src/chip_8/instructions/mod.rs:27-183 | An opcode word has no bits set where the decoder does not look for that variant. |
| Instructions.DecodeOpcode | src/chip_8/instructions/mod.rs:192-280 | Round trip: every variant with an opcode, with its operands in range, decodes back from that opcode. |
| Instructions.Decode | src/chip_8/instructions/mod.rs:192-280 | `Instruction::new`. An error from group 0 is always `ProgramNotCompatible`, and any other error is `InvalidInstruction` carrying the raw word unchanged. The final catch-all arm is proved unreachable, because the selector is a nibble. |
| Instructions.Selector | src/chip_8/instructions/mod.rs:196 | The selector is the top nibble: it is below 16, and shifted back it is the word's top 4 bits. |
| Instructions.Vx | src/chip_8/instructions/mod.rs:203 | X is bits 8-11 of the word and is below 16. |
| Instructions.Vy | src/chip_8/instructions/mod.rs:204 | Y is bits 4-7 of the word and is below 16. |
| Instructions.Nnn | src/chip_8/instructions/mod.rs:205 | NNN is the low 12 bits: below 4096, and together with the top nibble it rebuilds the word. |
| Instructions.Nn | src/chip_8/instructions/mod.rs:206 | NN is the low byte: together with the high byte it rebuilds the word. |
| Instructions.N | src/chip_8/instructions/mod.rs:207 | N is the low nibble: below 16, and together with the upper 12 bits it rebuilds the word. |
| Instructions.DecodeSound | src/chip_8/instructions/mod.rs:209-279 | For every word, decoding succeeds exactly when the table the decoder implements defines the word. A decoded instruction is then the table's entry for it, with operands in range: X, Y and N below 16, NNN below 4096. |
| Instructions.DecodeComplete | src/chip_8/instructions/mod.rs:209-279 | Every table entry is decoded from every word that agrees with its opcode on the bits the decoder reads. |
| Instructions.DecodeSoundSystem | src/chip_8/instructions/mod.rs:210-221 | Group 0 succeeds exactly for low bytes E0 and EE, whatever X is. |
| Instructions.DecodeSoundAddresses | src/chip_8/instructions/mod.rs:223-248 | Groups 1, 2, A and B always succeed, to Jump, Call, SetIndexRegister and JumpWithPcOffset with NNN = the low 12 bits. |
| Instructions.DecodeSoundImmediates | src/chip_8/instructions/mod.rs:225-249 | Groups 3, 4, 6, 7 and C always succeed, to their variants with X and NN taken from their positions. |
| Instructions.DecodeSoundRegisterPairs | src/chip_8/instructions/mod.rs:227-250 | Groups 5, 9 and D always succeed. 5XY_ and 9XY_ succeed whatever the low nibble, and Draw takes X, Y and N. |
| Instructions.DecodeSoundLogic | src/chip_8/instructions/mod.rs:230-237 | 8XY0-8XY3 decode to Copy, BitwiseOr, BitwiseAnd and BitwiseXor. |
| Instructions.DecodeSoundArithmetic | src/chip_8/instructions/mod.rs:238-245 | 8XY4-8XY7 and 8XYE decode to Add, Subtract, RightShift, SetVxToVyMinusVx and LeftShift; the shifts drop Y. Low nibbles 8-D and F are rejected. |
| Instructions.DecodeSoundKeys | src/chip_8/instructions/mod.rs:251-259 | Group E succeeds exactly for low bytes 9E and A1. |
| Instructions.DecodeSoundTimersAndIndex | src/chip_8/instructions/mod.rs:260-268 | Group F with low byte 07, 0A, 15, 18 or 1E decodes to its timer, key or index variant. Every other low byte below 0x20 is rejected. |
| Instructions.DecodeSoundMemory | src/chip_8/instructions/mod.rs:269-273 | Group F with low byte 29, 33, 55 or 65 decodes to its font, BCD, dump or load variant. Every other low byte from 0x20 up is rejected. |
| Instructions.DecodeCompleteSystem | src/chip_8/instructions/mod.rs:210-215 | Every word whose bits outside X equal 00E0 decodes to Clear, and 00EE likewise to Return. |
| Instructions.DecodeCompleteAddresses | src/chip_8/instructions/mod.rs:223-248 | Each 1NNN, 2NNN, ANNN and BNNN word decodes to its instruction with that NNN. |
| Instructions.DecodeCompleteImmediates | src/chip_8/instructions/mod.rs:225-249 | Each 3XNN, 4XNN, 6XNN, 7XNN and CXNN word decodes to its instruction with that X and NN. |
| Instructions.DecodeCompleteRegisterPairs | src/chip_8/instructions/mod.rs:227-250 | Every 5XY_ and 9XY_ word, whatever its low nibble, and every DXYN word decode to their instructions. |
| Instructions.DecodeCompleteLogic | src/chip_8/instructions/mod.rs:234-237 | Each 8XY0-8XY3 word decodes to its instruction with that X and Y. |
| Instructions.DecodeCompleteArithmetic | src/chip_8/instructions/mod.rs:238-242 | Each 8XY4, 8XY5 and 8XY7 word decodes to its instruction. Every 8XY6 and 8XYE word decodes to its shift of X, whatever Y is. |
| Instructions.DecodeCompleteKeys | src/chip_8/instructions/mod.rs:255-256 | Each EX9E and EXA1 word decodes to its key-skip instruction with that X. |
| Instructions.DecodeCompleteTimersAndIndex | src/chip_8/instructions/mod.rs:264-268 | Each FX07, FX0A, FX15, FX18 and FX1E word decodes to its instruction with that X. |
| Instructions.DecodeCompleteMemory | src/chip_8/instructions/mod.rs:269-272 | Each FX29, FX33, FX55 and FX65 word decodes to its instruction with that X. |
| Instructions.SystemGroupIncompatible | src/chip_8/instructions/mod.rs:216-220 | Group 0 with any low byte other than E0/EE is `ProgramNotCompatible`, never `InvalidInstruction`. |
| Instructions.ArithmeticGroupInvalid | src/chip_8/instructions/mod.rs:243 | An undefined 8XY_ sub-code is `InvalidInstruction` carrying the raw word. |
| Instructions.KeyGroupInvalid | src/chip_8/instructions/mod.rs:257 | An undefined EX__ sub-code is `InvalidInstruction` carrying the raw word. |
| Instructions.MiscGroupInvalid | src/chip_8/instructions/mod.rs:273 | An undefined FX__ sub-code is `InvalidInstruction` carrying the raw word. |
| Instructions.DecodeNeverUnused | src/chip_8/instructions/mod.rs:192-280 | The decoder never returns `CallMachineCodeRoutine` or `Unknown`, the variants the decoder never produces. |
| Instructions.TableEntryUnique | src/chip_8/instructions/mod.rs:209-277 | No word matches two table rows: the table the decoder follows is unambiguous. |
| Instructions.DecodeIgnoresUnreadBits | src/chip_8/instructions/mod.rs:210-250 | Two words that agree on the bits read for the decoded instruction decode alike. So X in 00E0/00EE, the low nibble of 5XY_/9XY_ and Y in the shifts are ignored. |
| Instructions.DecodeExamples | src/chip_8/instructions/mod.rs:214-273 | 00E0, 1ABC, 3A42, 8126, D125 and F355 decode to Clear, Jump(ABC), SkipIfRegisterEquals(A, 42), RightShift(1), Draw(1, 2, 5) and DumpRegisters(3). 0123 is `ProgramNotCompatible`, and 8128 and E1FF are `InvalidInstruction` of themselves. |
| Display.Address | src/chip_8/screen.rs:10 | Pixel (x, y) lives at `WIDTH*y + x`. |
| Display.AddressRowMajor | src/chip_8/screen.rs:8-10 | For an on-screen column, the address gives back the row as its quotient by `WIDTH` and the column as its remainder. |
| Display.AddressInBuffer | src/chip_8/screen.rs:35 | Every on-screen coordinate indexes inside the buffer. |
| Display.AddressOverflowsIntoNextRow | src/chip_8/screen.rs:35 | The address is not wrapped: a column past the right edge lands at the start of the next row. |
| Display.Blank | src/chip_8/screen.rs:15-17 | The black screen has `WIDTH*HEIGHT` cells, all 0. |
| Display.Toggle | src/chip_8/screen.rs:37-38 | Inverting a cell makes it 1 exactly when it was not 1, else 0, and leaves every other cell and the length unchanged. A buffer of 0s and 1s stays one. |
| Display.ToggleTwice | src/chip_8/screen.rs:37-38 | Inverting a black or white cell twice restores the buffer. |
| Display.ToggleReportsCollision | src/chip_8/screen.rs:29-37 | The new pixel is not white exactly when a white pixel was turned off. This is the collision signal, stated once for the buffer; `Invert` returns its negation. |
| Display.ToggleCommutes | src/chip_8/screen.rs:34-38 | Two inversions give the same buffer in either order. |
| Display.ToggleAll | src/chip_8/screen.rs:34-38 | Inverting a sequence of cells in turn keeps the buffer size and leaves every cell not in the sequence unchanged. |
| Display.ToggleAllToggle | src/chip_8/screen.rs:34-38 | One more inversion can be done before or after a sequence of them. |
| Display.ToggleAllTwice | src/chip_8/screen.rs:34-38 | Inverting the same cells twice over a black-and-white buffer restores it, so drawing a sprite twice erases it. |
| Display.ToggleAllBinary | src/chip_8/screen.rs:37-38 | Any sequence of inversions keeps a black-and-white buffer black-and-white. |
| Display.Screen.constructor | src/chip_8/screen.rs:14-19 | `Default::default` gives a fresh buffer of `WIDTH*HEIGHT` cells, all 0, so the class invariant (right size, every cell 0 or 1) holds. |
| Display.Screen.Clear | src/chip_8/screen.rs:22-27 | After `clear` every cell is 0, the size is unchanged and the invariant still holds. |
| Display.Screen.Invert | src/chip_8/screen.rs:29-41 | `invert(x, y)` changes exactly cell `WIDTH*y + x`, as `Toggle`, and returns true exactly when that cell is now 1. It returns false exactly when the cell was 1 (a collision). The invariant that every cell is 0 or 1 is kept. |
| Display.Screen.Get | src/chip_8/screen.rs:43-45 | `get` returns the buffer itself, of `WIDTH*HEIGHT` cells, and changes nothing. |

## Left out

- `src/main.rs` is not part of this model. It holds the window and event loop, rendering, argument parsing, ROM loading, the game-loop thread, channels and wall-clock timing. All of that is I/O, concurrency and floating point.
- The `execution` module (`pub mod execution;`) is not part of this model, so neither is what the decoded instructions do. That includes whatever the draw instruction does to coordinates before it calls `invert`.
- Timers and keypad: their source is not part of this model.
- `Chip8Error` is declared in a file that is not part of this model. Only the two variants the decoder returns are modelled.
- `WIDTH` and `HEIGHT` are declared in a file that is not part of this model. They are taken as 64 and 32, the canonical CHIP-8 display.
- Instructions.Opcode: gives no word for `CallMachineCodeRoutine`, documented as 0NNN (`src/chip_8/instructions/mod.rs:27`). The decoder rejects every 0NNN word other than 00E0 and 00EE as `ProgramNotCompatible` (`src/chip_8/instructions/mod.rs:216-220`), and the variant carries no address to put back into a word. The table also follows the decoder, not the documentation, for 5XY_ and 9XY_: it accepts any low nibble there, unlike the documented 5XY0 and 9XY0 (`src/chip_8/instructions/mod.rs:61` and `:111`).
- Display.Screen.Invert: requires `WIDTH*y + x` to lie inside the buffer. The Rust code panics on an out-of-range index, and the model does not represent the panic.
- Display.Screen.Get: returns the array itself, like the Rust reference. Aliasing through it is left to the caller's `modifies` clauses.
- The `Debug` derives and the doc-comment prose are left out.

Two details of `invert` that the model keeps as the code has them:

- `invert` does no wrapping (`src/chip_8/screen.rs:35`), so `Address` is the plain `WIDTH*y + x`. Any wrapping of sprite coordinates would be done by the draw instruction, which is not modelled.
- `invert` writes 1 when the cell is not 1 and 0 otherwise (`src/chip_8/screen.rs:37-38`). It is therefore not a pure bit flip: a cell holding 2 would become 1. `Toggle` models this.
