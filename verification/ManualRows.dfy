/** The disassembler's table against the manual's: every one of the 256 rows. */
module ManualRows {
  import opened Bits
  import opened Manual
  import D = Disassembler

  /** The row the manual has: name, registers, operand bytes, and a length of one byte more. */
  function RowOf(op: byte): D.Text {
    var i := Decode(op);
    D.Text(Manual.NameOf(i), RegistersOf(i), OperandBytes(i), 1 + OperandBytes(i))
  }

  /** The bytes that name no instruction of the 8080. */
  predicate NoInstruction(op: byte) {
    op in {0x08, 0x10, 0x18, 0x20, 0x28, 0x30, 0x38, 0xCB, 0xD9, 0xDD, 0xED, 0xFD}
  }

  /** The instructions whose row is not the manual's. */
  predicate Misprinted(op: byte) {
    op in {0x11, 0x17, 0x19, 0x1A, 0x1B, 0x1C, 0x32, 0x33, 0x34, 0x35, 0x36, 0x5F, 0xD0, 0xDE, 0xDF, 0xE2}
  }

  lemma Rows00(op: byte)
    requires 0x00 <= op < 0x08 && !NoInstruction(op) && !Misprinted(op)
    ensures D.Disassemble(op) == RowOf(op)
  {
    hide Decode, D.Row1, D.Row2, D.Row3, D.RowC, D.RowD, D.RowE, D.RowF;
    DecodedLow(op, 0);
  }

  lemma Rows08(op: byte)
    requires 0x08 <= op < 0x10 && !NoInstruction(op) && !Misprinted(op)
    ensures D.Disassemble(op) == RowOf(op)
  {
    hide Decode, D.Row1, D.Row2, D.Row3, D.RowC, D.RowD, D.RowE, D.RowF;
    DecodedLow(op, 1);
  }

  lemma Rows10(op: byte)
    requires 0x10 <= op < 0x18 && !NoInstruction(op) && !Misprinted(op)
    ensures D.Disassemble(op) == RowOf(op)
  {
    hide Decode, D.Row0, D.Row2, D.Row3, D.RowC, D.RowD, D.RowE, D.RowF;
    DecodedLow(op, 2);
  }

  lemma Rows18(op: byte)
    requires 0x18 <= op < 0x20 && !NoInstruction(op) && !Misprinted(op)
    ensures D.Disassemble(op) == RowOf(op)
  {
    hide Decode, D.Row0, D.Row2, D.Row3, D.RowC, D.RowD, D.RowE, D.RowF;
    DecodedLow(op, 3);
  }

  lemma Rows20(op: byte)
    requires 0x20 <= op < 0x28 && !NoInstruction(op) && !Misprinted(op)
    ensures D.Disassemble(op) == RowOf(op)
  {
    hide Decode, D.Row0, D.Row1, D.Row3, D.RowC, D.RowD, D.RowE, D.RowF;
    DecodedLow(op, 4);
  }

  lemma Rows28(op: byte)
    requires 0x28 <= op < 0x30 && !NoInstruction(op) && !Misprinted(op)
    ensures D.Disassemble(op) == RowOf(op)
  {
    hide Decode, D.Row0, D.Row1, D.Row3, D.RowC, D.RowD, D.RowE, D.RowF;
    DecodedLow(op, 5);
  }

  lemma Rows30(op: byte)
    requires 0x30 <= op < 0x38 && !NoInstruction(op) && !Misprinted(op)
    ensures D.Disassemble(op) == RowOf(op)
  {
    hide Decode, D.Row0, D.Row1, D.Row2, D.RowC, D.RowD, D.RowE, D.RowF;
    DecodedLow(op, 6);
  }

  lemma Rows38(op: byte)
    requires 0x38 <= op < 0x40 && !NoInstruction(op) && !Misprinted(op)
    ensures D.Disassemble(op) == RowOf(op)
  {
    hide Decode, D.Row0, D.Row1, D.Row2, D.RowC, D.RowD, D.RowE, D.RowF;
    DecodedLow(op, 7);
  }

  lemma MovRows(op: byte)
    requires 0x40 <= op < 0x80 && !Misprinted(op)
    ensures D.Disassemble(op) == RowOf(op)
  {
  }

  lemma AluRows(op: byte)
    requires 0x80 <= op < 0xC0
    ensures D.Disassemble(op) == RowOf(op)
  {
  }

  lemma RowsC0(op: byte)
    requires 0xC0 <= op < 0xC8 && !NoInstruction(op) && !Misprinted(op)
    ensures D.Disassemble(op) == RowOf(op)
  {
    hide Decode, D.Row0, D.Row1, D.Row2, D.Row3, D.RowD, D.RowE, D.RowF;
    DecodedHigh(op, 0);
  }

  lemma RowsC8(op: byte)
    requires 0xC8 <= op < 0xD0 && !NoInstruction(op) && !Misprinted(op)
    ensures D.Disassemble(op) == RowOf(op)
  {
    hide Decode, D.Row0, D.Row1, D.Row2, D.Row3, D.RowD, D.RowE, D.RowF;
    DecodedHigh(op, 1);
  }

  lemma RowsD0(op: byte)
    requires 0xD0 <= op < 0xD8 && !NoInstruction(op) && !Misprinted(op)
    ensures D.Disassemble(op) == RowOf(op)
  {
    hide Decode, D.Row0, D.Row1, D.Row2, D.Row3, D.RowC, D.RowE, D.RowF;
    DecodedHigh(op, 2);
  }

  lemma RowsD8(op: byte)
    requires 0xD8 <= op < 0xE0 && !NoInstruction(op) && !Misprinted(op)
    ensures D.Disassemble(op) == RowOf(op)
  {
    hide Decode, D.Row0, D.Row1, D.Row2, D.Row3, D.RowC, D.RowE, D.RowF;
    DecodedHigh(op, 3);
  }

  lemma RowsE0(op: byte)
    requires 0xE0 <= op < 0xE8 && !NoInstruction(op) && !Misprinted(op)
    ensures D.Disassemble(op) == RowOf(op)
  {
    hide Decode, D.Row0, D.Row1, D.Row2, D.Row3, D.RowC, D.RowD, D.RowF;
    DecodedHigh(op, 4);
  }

  lemma RowsE8(op: byte)
    requires 0xE8 <= op < 0xF0 && !NoInstruction(op) && !Misprinted(op)
    ensures D.Disassemble(op) == RowOf(op)
  {
    hide Decode, D.Row0, D.Row1, D.Row2, D.Row3, D.RowC, D.RowD, D.RowF;
    DecodedHigh(op, 5);
  }

  lemma RowsF0(op: byte)
    requires 0xF0 <= op < 0xF8 && !NoInstruction(op) && !Misprinted(op)
    ensures D.Disassemble(op) == RowOf(op)
  {
    hide Decode, D.Row0, D.Row1, D.Row2, D.Row3, D.RowC, D.RowD, D.RowE;
    DecodedHigh(op, 6);
  }

  lemma RowsF8(op: byte)
    requires 0xF8 <= op && !NoInstruction(op) && !Misprinted(op)
    ensures D.Disassemble(op) == RowOf(op)
  {
    hide Decode, D.Row0, D.Row1, D.Row2, D.Row3, D.RowC, D.RowD, D.RowE;
    DecodedHigh(op, 7);
  }

  lemma RowsAgree(op: byte)
    requires !NoInstruction(op) && !Misprinted(op)
    ensures D.Disassemble(op) == RowOf(op)
  {
    hide D.Disassemble, RowOf, NoInstruction, Misprinted;
    if op < 0x08 {
      Rows00(op);
    } else if op < 0x10 {
      Rows08(op);
    } else if op < 0x18 {
      Rows10(op);
    } else if op < 0x20 {
      Rows18(op);
    } else if op < 0x28 {
      Rows20(op);
    } else if op < 0x30 {
      Rows28(op);
    } else if op < 0x38 {
      Rows30(op);
    } else if op < 0x40 {
      Rows38(op);
    } else if op < 0x80 {
      MovRows(op);
    } else if op < 0xC0 {
      AluRows(op);
    } else if op < 0xC8 {
      RowsC0(op);
    } else if op < 0xD0 {
      RowsC8(op);
    } else if op < 0xD8 {
      RowsD0(op);
    } else if op < 0xE0 {
      RowsD8(op);
    } else if op < 0xE8 {
      RowsE0(op);
    } else if op < 0xF0 {
      RowsE8(op);
    } else if op < 0xF8 {
      RowsF0(op);
    } else {
      RowsF8(op);
    }
  }

  /** What the table has for them. */
  function PrintedInstead(op: byte): D.Text
    requires NoInstruction(op) || Misprinted(op)
  {
    match op
    case 0x08 => D.Text("NOP", "", 0, 1)
    case 0xCB => D.Text("*JMP", "", 2, 3)
    case 0xD9 => D.Text("*RET", "", 0, 1)
    case 0xDD | 0xED | 0xFD => D.Text("*CALL", "", 2, 3)
    case 0x11 => D.Text("LXI", "D", 2, 1)
    case 0x17 => D.Text("DAA", "", 0, 1)
    case 0x19 => D.Text("DAD", "H", 0, 1)
    case 0x1A => D.Text("LDAX", "D", 0, 3)
    case 0x1B => D.Text("DCX", "H", 0, 1)
    case 0x1C => D.Text("INR,", "E", 0, 1)
    case 0x32 => D.Text("SHLD,", "", 2, 3)
    case 0x33 => D.Text("INX", "H", 0, 1)
    case 0x34 => D.Text("INR", "H", 0, 1)
    case 0x35 => D.Text("DCR", "H", 0, 1)
    case 0x36 => D.Text("MVI", "H", 1, 2)
    case 0x5F => D.Text("MOV,", "E,A", 0, 1)
    case 0xD0 => D.Text("RNZ", "", 0, 1)
    case 0xDE => D.Text("XRI", "", 1, 2)
    case 0xDF => D.Text("RST", "5", 0, 1)
    case 0xE2 => D.Text("JNC", "", 2, 3)
    case _ => D.Text("*NOP", "", 0, 1)
  }

  lemma PrintedLow(op: byte)
    requires op < 0x80 && (NoInstruction(op) || Misprinted(op))
    ensures D.Disassemble(op) == PrintedInstead(op)
  {
  }

  lemma PrintedHigh(op: byte)
    requires 0x80 <= op && (NoInstruction(op) || Misprinted(op))
    ensures D.Disassemble(op) == PrintedInstead(op)
  {
  }

  lemma IsUndefined(op: byte)
    requires NoInstruction(op)
    ensures Decode(op) == Undefined
  {
  }

  lemma UnnamedDiffer(op: byte)
    requires NoInstruction(op)
    ensures PrintedInstead(op).name != RowOf(op).name
  {
    hide Decode;
    assert Decode(op) == Undefined by { IsUndefined(op); }
  }

  lemma LowDiffer(op: byte)
    requires Misprinted(op) && op < 0x33
    ensures PrintedInstead(op) != RowOf(op)
  {
  }

  lemma HighDiffer(op: byte)
    requires Misprinted(op) && 0x33 <= op
    ensures PrintedInstead(op) != RowOf(op)
  {
  }

  /**
   * Every row of the table: it is the manual's, name, registers, operand bytes and length, for all bytes but the listed
   * ones, and those have the rows of PrintedInstead.
   */
  lemma RowsExactly(op: byte)
    ensures D.Disassemble(op) == RowOf(op) <==> !NoInstruction(op) && !Misprinted(op)
    ensures NoInstruction(op) || Misprinted(op) ==> D.Disassemble(op) == PrintedInstead(op)
  {
    hide D.Disassemble, RowOf, NoInstruction, Misprinted, PrintedInstead;
    if NoInstruction(op) || Misprinted(op) {
      if op < 0x80 {
        PrintedLow(op);
      } else {
        PrintedHigh(op);
      }
      if NoInstruction(op) {
        UnnamedDiffer(op);
      } else if op < 0x33 {
        LowDiffer(op);
      } else {
        HighDiffer(op);
      }
    } else {
      RowsAgree(op);
    }
  }

  // ---- the sweep over any image ----

  function ByteOf(image: seq<byte>, pc: nat): byte { if pc < |image| then image[pc] else 0 }

  /** What the manual would have printed: operands of two bytes high byte first. */
  function ManualEntry(image: seq<byte>, pc: nat): D.Listed {
    var row := RowOf(ByteOf(image, pc));
    D.Listed(pc, row.name, row.regs,
             if row.operands == 2 then [ByteOf(image, pc + 2) as int, ByteOf(image, pc + 1)]
             else if row.operands == 1 then [ByteOf(image, pc + 1)]
             else [])
  }

  /** A sweep by the manual: each instruction where the one before it ends. */
  function ManualListing(image: seq<byte>, pc: nat): (r: (seq<D.Listed>, nat))
    decreases |image| - pc
  {
    if pc >= |image| then ([], pc)
    else
      var rest := ManualListing(image, pc + 1 + OperandBytes(Decode(image[pc])));
      ([ManualEntry(image, pc)] + rest.0, rest.1)
  }

  /** Every byte at which that sweep stops has the manual's row. */
  predicate RowsRight(image: seq<byte>, pc: nat)
    decreases |image| - pc
  {
    pc >= |image| || (
      && !NoInstruction(image[pc]) && !Misprinted(image[pc])
      && RowsRight(image, pc + 1 + OperandBytes(Decode(image[pc]))))
  }

  lemma ManualStarts(image: seq<byte>, pc: nat)
    ensures var r := ManualListing(image, pc);
      if pc < |image| then r.0 != [] && r.0[0].pc == pc else r == ([], pc)
  {
    hide ManualEntry, OperandBytes, Decode;
    assert ManualEntry(image, pc).pc == pc by { EntryStands(image, pc); }
  }

  lemma EntryStands(image: seq<byte>, pc: nat)
    ensures ManualEntry(image, pc).pc == pc
  {
    hide RowOf;
  }

  lemma TableStarts(image: seq<byte>, pc: nat)
    ensures var r := D.Listing(image, pc);
      if pc < |image| then r.0 != [] && r.0[0].pc == pc else r == ([], pc)
  {
    hide D.Disassemble;
  }

  /** An entry of the table is the manual's exactly when name, registers and operand bytes of its row are. */
  lemma EntriesEqual(image: seq<byte>, pc: nat)
    requires pc < |image|
    ensures var row, t := RowOf(image[pc]), D.Disassemble(image[pc]);
      (t.name == row.name && t.regs == row.regs && t.operands == row.operands)
      <==> D.ListedAt(image, pc) == ManualEntry(image, pc)
  {
    hide D.Disassemble;
    D.LengthPositive(image[pc]);
    assert D.ByteAt(image, pc) == ByteOf(image, pc) == image[pc];
    assert D.ByteAt(image, pc + 1) == ByteOf(image, pc + 1) && D.ByteAt(image, pc + 2) == ByteOf(image, pc + 2);
    OperandsAtMost(image[pc]);
    hide RowOf, D.ByteAt, ByteOf;
  }

  lemma OperandsAtMost(op: byte)
    ensures RowOf(op).operands <= 2 && RowOf(op).len == 1 + RowOf(op).operands == 1 + OperandBytes(Decode(op))
  {
    hide Decode, Manual.NameOf, RegistersOf;
  }

  /**
   * For every image: the sweep lists what the manual has, instruction for instruction, and ends where it does, exactly
   * when each byte at which the manual's sweep stops has the manual's row.
   */
  lemma {:induction false} SweepExactly(image: seq<byte>, pc: nat)
    ensures D.Listing(image, pc) == ManualListing(image, pc) <==> RowsRight(image, pc)
    decreases |image| - pc
  {
    hide D.Disassemble, RowOf, NoInstruction, Misprinted, D.ListedAt, ManualEntry, Decode, OperandBytes;
    if pc < |image| {
      hide D.Listing, ManualListing;
      var op := image[pc];
      RowsExactly(op);
      OperandsAtMost(op);
      EntriesEqual(image, pc);
      D.LengthPositive(op);
      D.ListingStep(image, pc);
      ManualStep(image, pc);
      var len, size := D.Disassemble(op).len, RowOf(op).len;
      SweepExactly(image, pc + size);
      D.SameHeadAndTail(D.ListedAt(image, pc), D.Listing(image, pc + len).0,
                        ManualEntry(image, pc), ManualListing(image, pc + size).0);
      TableStarts(image, pc + len);
      ManualStarts(image, pc + size);
    }
  }

  lemma ManualStep(image: seq<byte>, pc: nat)
    requires pc < |image|
    ensures var after := ManualListing(image, pc + RowOf(image[pc]).len);
      ManualListing(image, pc) == ([ManualEntry(image, pc)] + after.0, after.1)
  {
    hide ManualEntry, RowOf;
    OperandsAtMost(image[pc]);
  }
}
