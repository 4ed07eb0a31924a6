/** The listing of every opcode byte, mnemonic by mnemonic. */
module Listing {
  import opened Bits
  import opened Cpu
  import opened Disassembly
  import InstructionSet
  import InstructionFrames

  /** What the disassembler lists for an opcode with second byte d whose near target is near. */
  predicate Lists(op: byte, d: byte, near: nat, name: Mnemonic, args: seq<Arg>) {
    Syntax(op, d, near) == (name, args)
  }

  /** The second operand of an instruction on A with a register, a cell or a constant. */
  function Operand(op: byte, d: byte): Arg {
    if op % 16 >= 8 then R(op % 8) else if op % 16 < 2 then AtR(op % 2) else Const(d)
  }

  lemma OperandIs(op: byte, d: byte)
    requires op % 16 >= 8 || op % 16 < 2 || op % 16 == 3
    ensures SourceArg(InstructionSet.SourceOf(op), d) == Operand(op, d)
  {
  }

  lemma AluListed(op: byte, d: byte, near: nat, o: AluOp)
    requires Decode(op) == Data(Alu(o, InstructionSet.SourceOf(op))) && (op % 16 >= 8 || op % 16 < 2 || op % 16 == 3)
    ensures Syntax(op, d, near) == (AluName(o), [Sym(ACC), Operand(op, d)])
  {
    hide Decode, InstructionSet.SourceOf;
    OperandIs(op, d);
  }

  /** ADD, ADDC, ORL, ANL, XRL and MOV to A. */
  lemma Combining(op: byte, d: byte, near: nat)
    ensures op in {0x03, 0x60, 0x61} || 0x68 <= op <= 0x6f ==> Lists(op, d, near, Mnemonic.ADD, [Sym(ACC), Operand(op, d)])
    ensures op in {0x13, 0x70, 0x71} || 0x78 <= op <= 0x7f ==> Lists(op, d, near, Mnemonic.ADDC, [Sym(ACC), Operand(op, d)])
    ensures op in {0x40, 0x41, 0x43} || 0x48 <= op <= 0x4f ==> Lists(op, d, near, Mnemonic.ORL, [Sym(ACC), Operand(op, d)])
    ensures op in {0x50, 0x51, 0x53} || 0x58 <= op <= 0x5f ==> Lists(op, d, near, Mnemonic.ANL, [Sym(ACC), Operand(op, d)])
    ensures op in {0xd0, 0xd1, 0xd3} || 0xd8 <= op <= 0xdf ==> Lists(op, d, near, Mnemonic.XRL, [Sym(ACC), Operand(op, d)])
    ensures op in {0x23, 0xf0, 0xf1} || 0xf8 <= op <= 0xff ==> Lists(op, d, near, Mnemonic.MOV, [Sym(ACC), Operand(op, d)])
  {
    hide Decode, Syntax, Operand, InstructionSet.SourceOf;
    if op in {0x03, 0x60, 0x61} || 0x68 <= op <= 0x6f {
      InstructionSet.DecodeAdd(op);
      AluListed(op, d, near, AluOp.ADD);
    } else if op in {0x13, 0x70, 0x71} || 0x78 <= op <= 0x7f {
      InstructionSet.DecodeAddc(op);
      AluListed(op, d, near, AluOp.ADDC);
    } else if op in {0x40, 0x41, 0x43} || 0x48 <= op <= 0x4f {
      InstructionSet.DecodeOrl(op);
      AluListed(op, d, near, AluOp.ORL);
    } else if op in {0x50, 0x51, 0x53} || 0x58 <= op <= 0x5f {
      InstructionSet.DecodeAnl(op);
      AluListed(op, d, near, AluOp.ANL);
    } else if op in {0xd0, 0xd1, 0xd3} || 0xd8 <= op <= 0xdf {
      InstructionSet.DecodeXrl(op);
      AluListed(op, d, near, AluOp.XRL);
    } else if op in {0x23, 0xf0, 0xf1} || 0xf8 <= op <= 0xff {
      InstructionSet.DecodeMov(op);
      AluListed(op, d, near, AluOp.MOV);
    }
  }

  /** INC, DEC, MOV and XCH on registers. */
  lemma Registers(op: byte, d: byte, near: nat)
    ensures 0x18 <= op <= 0x1f ==> Lists(op, d, near, Mnemonic.INC, [R(op % 8)])
    ensures 0xc8 <= op <= 0xcf ==> Lists(op, d, near, Mnemonic.DEC, [R(op % 8)])
    ensures 0xa8 <= op <= 0xaf ==> Lists(op, d, near, Mnemonic.MOV, [R(op % 8), Sym(ACC)])
    ensures 0xb8 <= op <= 0xbf ==> Lists(op, d, near, Mnemonic.MOV, [R(op % 8), Const(d)])
    ensures 0x28 <= op <= 0x2f ==> Lists(op, d, near, XCH, [Sym(ACC), R(op % 8)])
    ensures 0xe8 <= op <= 0xef ==> Lists(op, d, near, DJNZ, [R(op % 8), Addr(near)])
  {
    if op % 16 >= 8 && op / 16 in {1, 2, 10, 11, 12, 14} { InstructionSet.RegisterRow(op); }
    hide Decode;
  }

  /** The same on cells, and MOVX. */
  lemma Cells(op: byte, d: byte, near: nat)
    requires op in {0x10, 0x11, 0x20, 0x21, 0x30, 0x31, 0x80, 0x81, 0x90, 0x91, 0xa0, 0xa1, 0xb0, 0xb1}
    ensures var at := AtR(op % 2);
            && (op / 16 == 1 ==> Lists(op, d, near, Mnemonic.INC, [at]))
            && (op / 16 == 2 ==> Lists(op, d, near, XCH, [Sym(ACC), at]))
            && (op / 16 == 3 ==> Lists(op, d, near, XCHD, [Sym(ACC), at]))
            && (op / 16 == 8 ==> Lists(op, d, near, MOVX, [Sym(ACC), at]))
            && (op / 16 == 9 ==> Lists(op, d, near, MOVX, [at, Sym(ACC)]))
            && (op / 16 == 10 ==> Lists(op, d, near, Mnemonic.MOV, [at, Sym(ACC)]))
            && (op / 16 == 11 ==> Lists(op, d, near, Mnemonic.MOV, [at, Const(d)]))
  {
    InstructionSet.IndirectRow(op);
    hide Decode;
  }

  lemma UnaryListed(op: byte, d: byte, near: nat, u: UnaryOp)
    requires op % 16 == 7 && AccumulatorColumn(op / 16) == Data(Unary(u))
    ensures Syntax(op, d, near) == (UnaryName(u), UnaryArgs(u))
  {
    InstructionSet.Column7(op);
    hide Decode, AccumulatorColumn, UnaryName, UnaryArgs;
  }

  lemma FlagListed(op: byte, d: byte, near: nat, f: FlagOp)
    requires || (op % 16 == 5 && ControlColumn(op / 16) == Data(Flag(f)))
             || (op % 16 == 7 && AccumulatorColumn(op / 16) == Data(Flag(f)))
    ensures Syntax(op, d, near) == FlagSyntax(f)
  {
    if op % 16 == 5 { InstructionSet.Column5(op); } else { InstructionSet.Column7(op); }
    hide Decode, ControlColumn, AccumulatorColumn, FlagSyntax;
  }

  lemma ControlListed(op: byte, d: byte, near: nat, k: ControlInstr)
    requires op % 16 == 5 && ControlColumn(op / 16) == Control(k)
    ensures Syntax(op, d, near) == ControlSyntax(k)
  {
    InstructionSet.Column5(op);
    hide Decode, ControlColumn, ControlSyntax;
  }

  lemma JumpListed(op: byte, d: byte, near: nat, c: Cond)
    requires op % 16 == 6 && JumpColumn(op / 16) == Flow(Jump(c))
    ensures Syntax(op, d, near) == (CondName(c), [Addr(near)])
  {
    InstructionSet.Column6(op);
    hide Decode, JumpColumn, CondName;
  }

  /** DEC A, INC A, CLR A, CPL A, SWAP A and DA A. */
  lemma Accumulator(d: byte, near: nat)
    ensures Lists(0x07, d, near, Mnemonic.DEC, [Sym(ACC)]) && Lists(0x17, d, near, Mnemonic.INC, [Sym(ACC)])
    ensures Lists(0x27, d, near, Mnemonic.CLR, [Sym(ACC)]) && Lists(0x37, d, near, Mnemonic.CPL, [Sym(ACC)])
    ensures Lists(0x47, d, near, Mnemonic.SWAP, [Sym(ACC)]) && Lists(0x57, d, near, Mnemonic.DA, [Sym(ACC)])
  {
    hide Decode, Syntax;
    UnaryListed(0x07, d, near, UnaryOp.DEC);
    UnaryListed(0x17, d, near, UnaryOp.INC);
    UnaryListed(0x27, d, near, UnaryOp.CLR);
    UnaryListed(0x37, d, near, UnaryOp.CPL);
    UnaryListed(0x47, d, near, UnaryOp.SWAP);
    UnaryListed(0x57, d, near, UnaryOp.DA);
  }

  /** The rotations of A. */
  lemma Rotations(d: byte, near: nat)
    ensures Lists(0x67, d, near, Mnemonic.RRC, [Sym(ACC)]) && Lists(0x77, d, near, Mnemonic.RR, [Sym(ACC)])
    ensures Lists(0xe7, d, near, Mnemonic.RL, [Sym(ACC)]) && Lists(0xf7, d, near, Mnemonic.RLC, [Sym(ACC)])
  {
    hide Decode, Syntax;
    UnaryListed(0x67, d, near, UnaryOp.RRC);
    UnaryListed(0x77, d, near, UnaryOp.RR);
    UnaryListed(0xe7, d, near, UnaryOp.RL);
    UnaryListed(0xf7, d, near, UnaryOp.RLC);
  }

  /** Flags. */
  lemma Flags(d: byte, near: nat)
    ensures Lists(0x97, d, near, Mnemonic.CLR, [Sym(CY)]) && Lists(0xa7, d, near, Mnemonic.CPL, [Sym(CY)])
    ensures Lists(0x85, d, near, Mnemonic.CLR, [Sym(Symbol.F0)]) && Lists(0x95, d, near, Mnemonic.CPL, [Sym(Symbol.F0)])
    ensures Lists(0xa5, d, near, Mnemonic.CLR, [Sym(F1)]) && Lists(0xb5, d, near, Mnemonic.CPL, [Sym(F1)])
  {
    hide Decode, Syntax;
    FlagListed(0x97, d, near, ClrC);
    FlagListed(0xa7, d, near, CplC);
    FlagListed(0x85, d, near, ClrF0);
    FlagListed(0x95, d, near, CplF0);
    FlagListed(0xa5, d, near, ClrF1);
    FlagListed(0xb5, d, near, CplF1);
  }

  /** Banks. */
  lemma Banks(d: byte, near: nat)
    ensures Lists(0xc5, d, near, SEL, [Sym(RB0)]) && Lists(0xd5, d, near, SEL, [Sym(RB1)])
    ensures Lists(0xe5, d, near, SEL, [Sym(MB0)]) && Lists(0xf5, d, near, SEL, [Sym(MB1)])
  {
    hide Decode, Syntax;
    FlagListed(0xc5, d, near, SelRb0);
    FlagListed(0xd5, d, near, SelRb1);
    FlagListed(0xe5, d, near, SelMb0);
    FlagListed(0xf5, d, near, SelMb1);
  }

  /** The PSW as a whole. */
  lemma WholePsw(d: byte, near: nat)
    ensures Lists(0xc7, d, near, Mnemonic.MOV, [Sym(ACC), Sym(PSW)]) && Lists(0xd7, d, near, Mnemonic.MOV, [Sym(PSW), Sym(ACC)])
  {
    hide Decode, Syntax;
    UnaryListed(0xc7, d, near, MovAPsw);
    FlagListed(0xd7, d, near, MovPswA);
  }

  /** Timer and interrupts. */
  lemma Controls(d: byte, near: nat)
    ensures Lists(0x05, d, near, EN, [Sym(INT)]) && Lists(0x15, d, near, DIS, [Sym(INT)])
    ensures Lists(0x25, d, near, EN, [Sym(TCNTI)]) && Lists(0x35, d, near, DIS, [Sym(TCNTI)])
    ensures Lists(0x45, d, near, STRT, [Sym(CNT)]) && Lists(0x55, d, near, STRT, [Sym(TIMER)])
    ensures Lists(0x65, d, near, STOP, [Sym(TCNT)])
  {
    hide Decode, Syntax;
    ControlListed(0x05, d, near, EnI);
    ControlListed(0x15, d, near, DisI);
    ControlListed(0x25, d, near, EnTcnti);
    ControlListed(0x35, d, near, DisTcnti);
    ControlListed(0x45, d, near, StrtCnt);
    ControlListed(0x55, d, near, StrtT);
    ControlListed(0x65, d, near, StopTcnt);
  }

  /** Jumps on the timer flag and the pins. */
  lemma PinJumps(d: byte, near: nat)
    ensures Lists(0x16, d, near, JTF, [Addr(near)]) && Lists(0x26, d, near, JNT0, [Addr(near)])
    ensures Lists(0x36, d, near, JT0, [Addr(near)]) && Lists(0x46, d, near, JNT1, [Addr(near)])
    ensures Lists(0x56, d, near, JT1, [Addr(near)]) && Lists(0x86, d, near, JNI, [Addr(near)])
  {
    hide Decode, Syntax;
    JumpListed(0x16, d, near, IfTF);
    JumpListed(0x26, d, near, IfNT0);
    JumpListed(0x36, d, near, IfT0);
    JumpListed(0x46, d, near, IfNT1);
    JumpListed(0x56, d, near, IfT1);
    JumpListed(0x86, d, near, IfNI);
  }

  /** Jumps on A and the carry. */
  lemma CarryJumps(d: byte, near: nat)
    ensures Lists(0x96, d, near, JNZ, [Addr(near)]) && Lists(0xc6, d, near, JZ, [Addr(near)])
    ensures Lists(0xe6, d, near, JNC, [Addr(near)]) && Lists(0xf6, d, near, JC, [Addr(near)])
  {
    hide Decode, Syntax;
    JumpListed(0x96, d, near, IfNZ);
    JumpListed(0xc6, d, near, IfZ);
    JumpListed(0xe6, d, near, IfNC);
    JumpListed(0xf6, d, near, IfC);
  }

  /** Jumps on the flags. */
  lemma FlagJumps(d: byte, near: nat)
    ensures Lists(0x76, d, near, JF1, [Addr(near)]) && Lists(0xb6, d, near, JF0, [Addr(near)])
  {
    hide Decode, Syntax;
    JumpListed(0x76, d, near, IfF1);
    JumpListed(0xb6, d, near, IfF0);
  }

  /** Returns and tables. */
  lemma Tables(op: byte, d: byte, near: nat)
    ensures op == 0x83 ==> Lists(op, d, near, RET, [])
    ensures op == 0x93 ==> Lists(op, d, near, RETR, [])
    ensures op == 0xb3 ==> Lists(op, d, near, JMPP, [Sym(ATACC)])
    ensures op == 0xa3 ==> Lists(op, d, near, MOVP, [Sym(ACC), Sym(ATACC)])
    ensures op == 0xe3 ==> Lists(op, d, near, MOVP3, [Sym(ACC), Sym(ATACC)])
  {
    if op % 16 == 3 { InstructionSet.Column3(op); }
    hide Decode;
  }

  /** JMP, CALL and JBb carry three bits in the opcode. */
  lemma FarJumps(op: byte, d: byte, near: nat)
    ensures op % 32 == 4 ==> Lists(op, d, near, JMP, [Addr(256 * (op / 32) + d)])
    ensures op % 32 == 20 ==> Lists(op, d, near, CALL, [Addr(256 * (op / 32) + d)])
    ensures op % 32 == 18 ==> Lists(op, d, near, JB(op / 32), [Addr(near)])
  {
    InstructionSet.FarJumps(op);
    hide Decode;
  }

  /** Ports and the expander. */
  lemma Ports(op: byte, d: byte, near: nat)
    ensures op == 0x02 ==> Lists(op, d, near, OUTL, [Sym(BUS), Sym(ACC)])
    ensures op in {0x39, 0x3a} ==> Lists(op, d, near, OUTL, [P(op % 4), Sym(ACC)])
    ensures op == 0x08 ==> Lists(op, d, near, INS, [Sym(ACC), Sym(BUS)])
    ensures op in {0x09, 0x0a} ==> Lists(op, d, near, IN, [Sym(ACC), P(op % 4)])
    ensures op == 0x88 ==> Lists(op, d, near, Mnemonic.ORL, [Sym(BUS), Const(d)])
    ensures op in {0x89, 0x8a} ==> Lists(op, d, near, Mnemonic.ORL, [P(op % 4), Const(d)])
    ensures op == 0x98 ==> Lists(op, d, near, Mnemonic.ANL, [Sym(BUS), Const(d)])
    ensures op in {0x99, 0x9a} ==> Lists(op, d, near, Mnemonic.ANL, [P(op % 4), Const(d)])
  {
    InstructionSet.PortDecode(op);
    hide Decode;
  }

  lemma Expander(op: byte, d: byte, near: nat)
    ensures 0x0c <= op <= 0x0f ==> Lists(op, d, near, MOVD, [Sym(ACC), P(4 + op % 4)])
    ensures 0x3c <= op <= 0x3f ==> Lists(op, d, near, MOVD, [P(4 + op % 4), Sym(ACC)])
    ensures 0x8c <= op <= 0x8f ==> Lists(op, d, near, ORLD, [P(4 + op % 4), Sym(ACC)])
    ensures 0x9c <= op <= 0x9f ==> Lists(op, d, near, ANLD, [P(4 + op % 4), Sym(ACC)])
  {
    InstructionSet.PulseDecode(op);
    hide Decode;
  }

  /** The rest: NOP, ENT0 CLK, the moves between A and T, and DB for the undefined opcodes. */
  lemma Others(op: byte, d: byte, near: nat)
    ensures op == 0x00 ==> Lists(op, d, near, NOP, [])
    ensures op == 0x75 ==> Lists(op, d, near, ENT0, [Sym(CLK)])
    ensures op == 0x42 ==> Lists(op, d, near, Mnemonic.MOV, [Sym(ACC), Sym(TIMER)])
    ensures op == 0x62 ==> Lists(op, d, near, Mnemonic.MOV, [Sym(TIMER), Sym(ACC)])
    ensures InstructionSet.Undefined(op) ==> Lists(op, d, near, DB, [Const(op)])
  {
    InstructionFrames.SingleDecode(op);
    if op == 0x75 { InstructionSet.Column5(op); }
    if InstructionSet.Undefined(op) { UndefinedIllegal(op); }
    hide Decode, InstructionSet.Undefined;
  }

  lemma UndefinedIllegal(op: byte)
    requires InstructionSet.Undefined(op)
    ensures Decode(op) == Illegal
  {
    hide Decode;
    if op % 16 == 3 { InstructionSet.Column3(op); }
    else if op % 16 == 6 { InstructionSet.Column6(op); }
    else if op % 16 == 7 { InstructionSet.Column7(op); }
    else { InstructionFrames.NoneDecode(op); }
  }
}
