/** The disassembler of src/util/disassembler.cpp, proved against the CPU's own opcode table. */
module Disassembly {
  import opened Bits
  import opened Cpu
  import CpuFrames

  datatype Symbol =
    | ACC | ATACC | BUS | TIMER | PSW | CY | F0 | F1 | INT | TCNTI | CNT | TCNT | CLK | RB0 | RB1 | MB0 | MB1

  datatype Arg = Sym(s: Symbol) | R(r: nat) | AtR(r: nat) | P(p: nat) | Const(v: byte) | Addr(a: nat)

  datatype Mnemonic =
    | DB
    | NOP | OUTL | ADD | JMP | EN | DEC | INS | IN | MOVD | INC | JB(b: nat) | ADDC
    | CALL | DIS | JTF | XCH | MOV | JNT0 | CLR | XCHD | JT0 | CPL | ORL | STRT
    | JNT1 | SWAP | ANL | JT1 | DA | STOP | RRC | ENT0 | JF1 | RR | MOVX | RET
    | JNI | ORLD | RETR | JNZ | ANLD | MOVP | JMPP | JF0 | SEL | JZ | XRL | MOVP3
    | JNC | RL | DJNZ | JC | RLC

  /** One listed instruction; the text form of mnemonics and arguments is left to the caller. */
  datatype Line = Line(addr: nat, bytes: seq<byte>, name: Mnemonic, args: seq<Arg>)

  // ----- what the CPU makes of the same opcode -----

  /** Bytes the CPU fetches for an instruction. */
  function Length(i: Instr): (n: nat)
    ensures 1 <= n <= 2
  {
    if HasOperand(i) then 2 else 1
  }

  function SourceArg(src: Source, d: byte): Arg {
    match src
    case Reg(r) => R(r)
    case At(r, _) => AtR(r)
    case Immediate => Const(d)
  }

  function AluName(op: AluOp): Mnemonic {
    match op
    case ADD => Mnemonic.ADD
    case ADDC => Mnemonic.ADDC
    case ORL => Mnemonic.ORL
    case ANL => Mnemonic.ANL
    case XRL => Mnemonic.XRL
    case MOV => Mnemonic.MOV
  }

  function UnaryName(u: UnaryOp): Mnemonic {
    match u
    case INC => Mnemonic.INC
    case DEC => Mnemonic.DEC
    case CLR => Mnemonic.CLR
    case CPL => Mnemonic.CPL
    case SWAP => Mnemonic.SWAP
    case DA => Mnemonic.DA
    case RL => Mnemonic.RL
    case RLC => Mnemonic.RLC
    case RR => Mnemonic.RR
    case RRC => Mnemonic.RRC
    case _ => Mnemonic.MOV
  }

  function UnaryArgs(u: UnaryOp): seq<Arg> {
    match u
    case MovAT => [Sym(ACC), Sym(TIMER)]
    case MovAPsw => [Sym(ACC), Sym(PSW)]
    case _ => [Sym(ACC)]
  }

  function FlagSyntax(f: FlagOp): (Mnemonic, seq<Arg>) {
    match f
    case ClrF0 => (Mnemonic.CLR, [Sym(Symbol.F0)])
    case CplF0 => (Mnemonic.CPL, [Sym(Symbol.F0)])
    case ClrC => (Mnemonic.CLR, [Sym(CY)])
    case CplC => (Mnemonic.CPL, [Sym(CY)])
    case SelRb0 => (SEL, [Sym(RB0)])
    case SelRb1 => (SEL, [Sym(RB1)])
    case ClrF1 => (Mnemonic.CLR, [Sym(F1)])
    case CplF1 => (Mnemonic.CPL, [Sym(F1)])
    case SelMb0 => (SEL, [Sym(MB0)])
    case SelMb1 => (SEL, [Sym(MB1)])
    case MovPswA => (Mnemonic.MOV, [Sym(PSW), Sym(ACC)])
  }

  function DataSyntax(x: DataInstr, d: byte): (Mnemonic, seq<Arg>) {
    match x
    case Alu(op, src) => (AluName(op), [Sym(ACC), SourceArg(src, d)])
    case Unary(u) => (UnaryName(u), UnaryArgs(u))
    case Flag(f) => FlagSyntax(f)
    case IncReg(r) => (Mnemonic.INC, [R(r)])
    case DecReg(r) => (Mnemonic.DEC, [R(r)])
    case MovRegA(r) => (Mnemonic.MOV, [R(r), Sym(ACC)])
    case MovRegData(r) => (Mnemonic.MOV, [R(r), Const(d)])
    case XchReg(r) => (XCH, [Sym(ACC), R(r)])
    case IncAt(r) => (Mnemonic.INC, [AtR(r)])
    case MovAtA(r) => (Mnemonic.MOV, [AtR(r), Sym(ACC)])
    case MovAtData(r) => (Mnemonic.MOV, [AtR(r), Const(d)])
    case XchAt(r) => (XCH, [Sym(ACC), AtR(r)])
    case XchdAt(r) => (XCHD, [Sym(ACC), AtR(r)])
    case Movp => (MOVP, [Sym(ACC), Sym(ATACC)])
    case Movp3 => (MOVP3, [Sym(ACC), Sym(ATACC)])
  }

  function CondName(c: Cond): Mnemonic {
    match c
    case IfBit(b) => JB(b)
    case IfTF => JTF
    case IfNT0 => JNT0
    case IfT0 => JT0
    case IfNT1 => JNT1
    case IfT1 => JT1
    case IfF0 => JF0
    case IfF1 => JF1
    case IfNI => JNI
    case IfNZ => JNZ
    case IfZ => JZ
    case IfNC => JNC
    case IfC => JC
  }

  /** near is the jump target the listing shows: the page of the opcode, the offset of the operand. */
  function FlowSyntax(w: FlowInstr, d: byte, near: nat): (Mnemonic, seq<Arg>) {
    match w
    case Jmp(page) => (JMP, [Addr(page * 256 + d)])
    case Call(page) => (CALL, [Addr(page * 256 + d)])
    case Ret => (RET, [])
    case Retr => (RETR, [])
    case Jump(c) => (CondName(c), [Addr(near)])
    case Djnz(r) => (DJNZ, [R(r), Addr(near)])
    case Jmpp => (JMPP, [Sym(ATACC)])
  }

  function ControlSyntax(k: ControlInstr): (Mnemonic, seq<Arg>) {
    match k
    case EnI => (EN, [Sym(INT)])
    case DisI => (DIS, [Sym(INT)])
    case EnTcnti => (EN, [Sym(TCNTI)])
    case DisTcnti => (DIS, [Sym(TCNTI)])
    case StrtCnt => (STRT, [Sym(CNT)])
    case StrtT => (STRT, [Sym(TIMER)])
    case StopTcnt => (STOP, [Sym(TCNT)])
    case MovTA => (Mnemonic.MOV, [Sym(TIMER), Sym(ACC)])
  }

  /** The port operand of a listing: BUS for the opcodes in column 8 or 2, else the low two opcode bits. */
  function PortArg(op: byte): Arg {
    if op % 16 in {2, 8} then Sym(BUS) else P(op % 4)
  }

  function PortSyntax(q: PortInstr, op: byte, d: byte): (Mnemonic, seq<Arg>) {
    match q
    case Outl(_) => (OUTL, [PortArg(op), Sym(ACC)])
    case In(_) => (if op % 16 == 8 then INS else IN, [Sym(ACC), PortArg(op)])
    case OrlPort(_) => (Mnemonic.ORL, [PortArg(op), Const(d)])
    case AnlPort(_) => (Mnemonic.ANL, [PortArg(op), Const(d)])
    case MovdIn(p) => (MOVD, [Sym(ACC), P(4 + p)])
    case ExpanderOut(code, p) => (if code == 4 then MOVD else if code == 8 then ORLD else ANLD, [P(4 + p), Sym(ACC)])
    case MovxIn(r) => (MOVX, [Sym(ACC), AtR(r)])
    case MovxOut(r) => (MOVX, [AtR(r), Sym(ACC)])
  }

  function Syntax(op: byte, d: byte, near: nat): (Mnemonic, seq<Arg>) {
    match Decode(op)
    case Nop => (NOP, [])
    case Ent0Clk => (ENT0, [Sym(CLK)])
    case Illegal => (DB, [Const(op)])
    case Data(x) => DataSyntax(x, d)
    case Flow(w) => FlowSyntax(w, d, near)
    case Control(k) => ControlSyntax(k)
    case Port(q) => PortSyntax(q, op, d)
  }

  /** The page of an opcode's address with the operand as offset. */
  function ListedNear(addr: nat, d: byte): nat {
    addr % 4096 / 256 * 256 + d
  }

  /** The listing of the instruction at addr, as the CPU would fetch it. */
  function LineAt(rom: seq<byte>, addr: nat): Line
    requires addr < |rom| && addr + Length(Decode(rom[addr])) <= |rom|
  {
    var op := rom[addr];
    var d := if addr + 1 < |rom| then rom[addr + 1] else 0;
    var (name, args) := Syntax(op, d, ListedNear(addr, d));
    Line(addr, rom[addr..addr + Length(Decode(op))], name, args)
  }

  // ----- the sweep -----

  function Ahead(pos: nat, to: nat): nat {
    if pos < to then to - pos else 0
  }

  /** The sweep from pos stays inside the ROM and inside the range of its 16-bit position. */
  predicate Sweeps(rom: seq<byte>, pos: nat, to: nat)
    decreases Ahead(pos, to)
  {
    pos < to ==>
      && pos < |rom| && pos + Length(Decode(rom[pos])) <= |rom| && pos + Length(Decode(rom[pos])) <= 65535
      && Sweeps(rom, pos + Length(Decode(rom[pos])), to)
  }

  function SweepLines(rom: seq<byte>, pos: nat, to: nat): seq<Line>
    requires Sweeps(rom, pos, to)
    decreases Ahead(pos, to)
  {
    if pos >= to then [] else [LineAt(rom, pos)] + SweepLines(rom, pos + Length(Decode(rom[pos])), to)
  }

  class Disassembler {
    const rom: seq<byte>

    constructor (content: seq<byte>)
      ensures rom == content
    {
      rom := content;
    }

    /** Opcodes 0x00 to 0x0f of the switch: instruction length, mnemonic and arguments. */
    method Row0(op: byte, d: byte, near: nat) returns (len: nat, name: Mnemonic, args: seq<Arg>)
      requires 0 <= op < 16
      ensures len == Length(Decode(op)) && (name, args) == Syntax(op, d, near)
    {
      match op {
        case 0x00 => len, name, args := 1, Mnemonic.NOP, [];
        case 0x02 => len, name, args := 1, Mnemonic.OUTL, [Sym(BUS), Sym(ACC)];
        case 0x03 => len, name, args := 2, Mnemonic.ADD, [Sym(ACC), Const(d)];
        case 0x04 => len, name, args := 2, Mnemonic.JMP, [Addr(op / 32 * 256 + d)];
        case 0x05 => len, name, args := 1, Mnemonic.EN, [Sym(INT)];
        case 0x07 => len, name, args := 1, Mnemonic.DEC, [Sym(ACC)];
        case 0x08 => len, name, args := 1, Mnemonic.INS, [Sym(ACC), Sym(BUS)];
        case 0x09 | 0x0a => len, name, args := 1, Mnemonic.IN, [Sym(ACC), P(op % 4)];
        case 0x0c | 0x0d | 0x0e | 0x0f => len, name, args := 1, Mnemonic.MOVD, [Sym(ACC), P(4 + op % 4)];
        case _ => len, name, args := 1, DB, [Const(op)];
      }
    }

    /** Opcodes 0x10 to 0x1f of the switch. */
    method Row1(op: byte, d: byte, near: nat) returns (len: nat, name: Mnemonic, args: seq<Arg>)
      requires 16 <= op < 32
      ensures len == Length(Decode(op)) && (name, args) == Syntax(op, d, near)
    {
      match op {
        case 0x10 | 0x11 => len, name, args := 1, Mnemonic.INC, [AtR(op % 2)];
        case 0x12 => len, name, args := 2, JB(op / 32), [Addr(near)];
        case 0x13 => len, name, args := 2, Mnemonic.ADDC, [Sym(ACC), Const(d)];
        case 0x14 => len, name, args := 2, Mnemonic.CALL, [Addr(op / 32 * 256 + d)];
        case 0x15 => len, name, args := 1, Mnemonic.DIS, [Sym(INT)];
        case 0x16 => len, name, args := 2, Mnemonic.JTF, [Addr(near)];
        case 0x17 => len, name, args := 1, Mnemonic.INC, [Sym(ACC)];
        case _ => len, name, args := 1, Mnemonic.INC, [R(op % 8)];
      }
    }

    /** Opcodes 0x20 to 0x2f of the switch. */
    method Row2(op: byte, d: byte, near: nat) returns (len: nat, name: Mnemonic, args: seq<Arg>)
      requires 32 <= op < 48
      ensures len == Length(Decode(op)) && (name, args) == Syntax(op, d, near)
    {
      match op {
        case 0x24 => len, name, args := 2, Mnemonic.JMP, [Addr(op / 32 * 256 + d)];
        case 0x20 | 0x21 => len, name, args := 1, Mnemonic.XCH, [Sym(ACC), AtR(op % 2)];
        case 0x23 => len, name, args := 2, Mnemonic.MOV, [Sym(ACC), Const(d)];
        case 0x25 => len, name, args := 1, Mnemonic.EN, [Sym(TCNTI)];
        case 0x26 => len, name, args := 2, Mnemonic.JNT0, [Addr(near)];
        case 0x27 => len, name, args := 1, Mnemonic.CLR, [Sym(ACC)];
        case 0x28 | 0x29 | 0x2a | 0x2b | 0x2c | 0x2d | 0x2e | 0x2f => len, name, args := 1, Mnemonic.XCH, [Sym(ACC), R(op % 8)];
        case _ => len, name, args := 1, DB, [Const(op)];
      }
    }

    /** Opcodes 0x30 to 0x3f of the switch. */
    method Row3(op: byte, d: byte, near: nat) returns (len: nat, name: Mnemonic, args: seq<Arg>)
      requires 48 <= op < 64
      ensures len == Length(Decode(op)) && (name, args) == Syntax(op, d, near)
    {
      hide Decode, Syntax;
      if op < 0x38 {
        len, name, args := Row30(op, d, near);
      } else {
        len, name, args := Row38(op, d, near);
      }
    }

    /** Opcodes 0x30 to 0x37 of the switch. */
    method Row30(op: byte, d: byte, near: nat) returns (len: nat, name: Mnemonic, args: seq<Arg>)
      requires 48 <= op < 56
      ensures len == Length(Decode(op)) && (name, args) == Syntax(op, d, near)
    {
      match op {
        case 0x32 => len, name, args := 2, JB(op / 32), [Addr(near)];
        case 0x34 => len, name, args := 2, Mnemonic.CALL, [Addr(op / 32 * 256 + d)];
        case 0x30 | 0x31 => len, name, args := 1, Mnemonic.XCHD, [Sym(ACC), AtR(op % 2)];
        case 0x35 => len, name, args := 1, Mnemonic.DIS, [Sym(TCNTI)];
        case 0x36 => len, name, args := 2, Mnemonic.JT0, [Addr(near)];
        case 0x37 => len, name, args := 1, Mnemonic.CPL, [Sym(ACC)];
        case _ => len, name, args := 1, DB, [Const(op)];
      }
    }

    /** Opcodes 0x38 to 0x3f of the switch. */
    method Row38(op: byte, d: byte, near: nat) returns (len: nat, name: Mnemonic, args: seq<Arg>)
      requires 56 <= op < 64
      ensures len == Length(Decode(op)) && (name, args) == Syntax(op, d, near)
    {
      match op {
        case 0x39 | 0x3a => len, name, args := 1, Mnemonic.OUTL, [P(op % 4), Sym(ACC)];
        case 0x3c | 0x3d | 0x3e | 0x3f => len, name, args := 1, Mnemonic.MOVD, [P(4 + op % 4), Sym(ACC)];
        case _ => len, name, args := 1, DB, [Const(op)];
      }
    }

    /** Opcodes 0x40 to 0x4f of the switch. */
    method Row4(op: byte, d: byte, near: nat) returns (len: nat, name: Mnemonic, args: seq<Arg>)
      requires 64 <= op < 80
      ensures len == Length(Decode(op)) && (name, args) == Syntax(op, d, near)
    {
      match op {
        case 0x44 => len, name, args := 2, Mnemonic.JMP, [Addr(op / 32 * 256 + d)];
        case 0x40 | 0x41 => len, name, args := 1, Mnemonic.ORL, [Sym(ACC), AtR(op % 2)];
        case 0x42 => len, name, args := 1, Mnemonic.MOV, [Sym(ACC), Sym(TIMER)];
        case 0x43 => len, name, args := 2, Mnemonic.ORL, [Sym(ACC), Const(d)];
        case 0x45 => len, name, args := 1, Mnemonic.STRT, [Sym(CNT)];
        case 0x46 => len, name, args := 2, Mnemonic.JNT1, [Addr(near)];
        case 0x47 => len, name, args := 1, Mnemonic.SWAP, [Sym(ACC)];
        case _ => len, name, args := 1, Mnemonic.ORL, [Sym(ACC), R(op % 8)];
      }
    }

    /** Opcodes 0x50 to 0x5f of the switch. */
    method Row5(op: byte, d: byte, near: nat) returns (len: nat, name: Mnemonic, args: seq<Arg>)
      requires 80 <= op < 96
      ensures len == Length(Decode(op)) && (name, args) == Syntax(op, d, near)
    {
      match op {
        case 0x52 => len, name, args := 2, JB(op / 32), [Addr(near)];
        case 0x54 => len, name, args := 2, Mnemonic.CALL, [Addr(op / 32 * 256 + d)];
        case 0x50 | 0x51 => len, name, args := 1, Mnemonic.ANL, [Sym(ACC), AtR(op % 2)];
        case 0x53 => len, name, args := 2, Mnemonic.ANL, [Sym(ACC), Const(d)];
        case 0x55 => len, name, args := 1, Mnemonic.STRT, [Sym(TIMER)];
        case 0x56 => len, name, args := 2, Mnemonic.JT1, [Addr(near)];
        case 0x57 => len, name, args := 1, Mnemonic.DA, [Sym(ACC)];
        case _ => len, name, args := 1, Mnemonic.ANL, [Sym(ACC), R(op % 8)];
      }
    }

    /** Opcodes 0x60 to 0x6f of the switch. */
    method Row6(op: byte, d: byte, near: nat) returns (len: nat, name: Mnemonic, args: seq<Arg>)
      requires 96 <= op < 112
      ensures len == Length(Decode(op)) && (name, args) == Syntax(op, d, near)
    {
      match op {
        case 0x64 => len, name, args := 2, Mnemonic.JMP, [Addr(op / 32 * 256 + d)];
        case 0x60 | 0x61 => len, name, args := 1, Mnemonic.ADD, [Sym(ACC), AtR(op % 2)];
        case 0x62 => len, name, args := 1, Mnemonic.MOV, [Sym(TIMER), Sym(ACC)];
        case 0x65 => len, name, args := 1, Mnemonic.STOP, [Sym(TCNT)];
        case 0x67 => len, name, args := 1, Mnemonic.RRC, [Sym(ACC)];
        case 0x68 | 0x69 | 0x6a | 0x6b | 0x6c | 0x6d | 0x6e | 0x6f => len, name, args := 1, Mnemonic.ADD, [Sym(ACC), R(op % 8)];
        case _ => len, name, args := 1, DB, [Const(op)];
      }
    }

    /** Opcodes 0x70 to 0x7f of the switch. */
    method Row7(op: byte, d: byte, near: nat) returns (len: nat, name: Mnemonic, args: seq<Arg>)
      requires 112 <= op < 128
      ensures len == Length(Decode(op)) && (name, args) == Syntax(op, d, near)
    {
      match op {
        case 0x72 => len, name, args := 2, JB(op / 32), [Addr(near)];
        case 0x74 => len, name, args := 2, Mnemonic.CALL, [Addr(op / 32 * 256 + d)];
        case 0x70 | 0x71 => len, name, args := 1, Mnemonic.ADDC, [Sym(ACC), AtR(op % 2)];
        case 0x75 => len, name, args := 1, Mnemonic.ENT0, [Sym(CLK)];
        case 0x76 => len, name, args := 2, Mnemonic.JF1, [Addr(near)];
        case 0x77 => len, name, args := 1, Mnemonic.RR, [Sym(ACC)];
        case 0x78 | 0x79 | 0x7a | 0x7b | 0x7c | 0x7d | 0x7e | 0x7f => len, name, args := 1, Mnemonic.ADDC, [Sym(ACC), R(op % 8)];
        case _ => len, name, args := 1, DB, [Const(op)];
      }
    }

    /** Opcodes 0x80 to 0x8f of the switch. */
    method Row8(op: byte, d: byte, near: nat) returns (len: nat, name: Mnemonic, args: seq<Arg>)
      requires 128 <= op < 144
      ensures len == Length(Decode(op)) && (name, args) == Syntax(op, d, near)
    {
      match op {
        case 0x84 => len, name, args := 2, Mnemonic.JMP, [Addr(op / 32 * 256 + d)];
        case 0x80 | 0x81 => len, name, args := 1, Mnemonic.MOVX, [Sym(ACC), AtR(op % 2)];
        case 0x83 => len, name, args := 1, Mnemonic.RET, [];
        case 0x85 => len, name, args := 1, Mnemonic.CLR, [Sym(Symbol.F0)];
        case 0x86 => len, name, args := 2, Mnemonic.JNI, [Addr(near)];
        case 0x88 => len, name, args := 2, Mnemonic.ORL, [Sym(BUS), Const(d)];
        case 0x89 | 0x8a => len, name, args := 2, Mnemonic.ORL, [P(op % 4), Const(d)];
        case 0x8c | 0x8d | 0x8e | 0x8f => len, name, args := 1, Mnemonic.ORLD, [P(4 + op % 4), Sym(ACC)];
        case _ => len, name, args := 1, DB, [Const(op)];
      }
    }

    /** Opcodes 0x90 to 0x9f of the switch. */
    method Row9(op: byte, d: byte, near: nat) returns (len: nat, name: Mnemonic, args: seq<Arg>)
      requires 144 <= op < 160
      ensures len == Length(Decode(op)) && (name, args) == Syntax(op, d, near)
    {
      match op {
        case 0x92 => len, name, args := 2, JB(op / 32), [Addr(near)];
        case 0x94 => len, name, args := 2, Mnemonic.CALL, [Addr(op / 32 * 256 + d)];
        case 0x90 | 0x91 => len, name, args := 1, Mnemonic.MOVX, [AtR(op % 2), Sym(ACC)];
        case 0x93 => len, name, args := 1, Mnemonic.RETR, [];
        case 0x95 => len, name, args := 1, Mnemonic.CPL, [Sym(Symbol.F0)];
        case 0x96 => len, name, args := 2, Mnemonic.JNZ, [Addr(near)];
        case 0x97 => len, name, args := 1, Mnemonic.CLR, [Sym(CY)];
        case 0x98 => len, name, args := 2, Mnemonic.ANL, [Sym(BUS), Const(d)];
        case 0x99 | 0x9a => len, name, args := 2, Mnemonic.ANL, [P(op % 4), Const(d)];
        case 0x9c | 0x9d | 0x9e | 0x9f => len, name, args := 1, Mnemonic.ANLD, [P(4 + op % 4), Sym(ACC)];
        case _ => len, name, args := 1, DB, [Const(op)];
      }
    }

    /** Opcodes 0xa0 to 0xaf of the switch. */
    method RowA(op: byte, d: byte, near: nat) returns (len: nat, name: Mnemonic, args: seq<Arg>)
      requires 160 <= op < 176
      ensures len == Length(Decode(op)) && (name, args) == Syntax(op, d, near)
    {
      match op {
        case 0xa4 => len, name, args := 2, Mnemonic.JMP, [Addr(op / 32 * 256 + d)];
        case 0xa0 | 0xa1 => len, name, args := 1, Mnemonic.MOV, [AtR(op % 2), Sym(ACC)];
        case 0xa3 => len, name, args := 1, Mnemonic.MOVP, [Sym(ACC), Sym(ATACC)];
        case 0xa5 => len, name, args := 1, Mnemonic.CLR, [Sym(F1)];
        case 0xa7 => len, name, args := 1, Mnemonic.CPL, [Sym(CY)];
        case 0xa8 | 0xa9 | 0xaa | 0xab | 0xac | 0xad | 0xae | 0xaf => len, name, args := 1, Mnemonic.MOV, [R(op % 8), Sym(ACC)];
        case _ => len, name, args := 1, DB, [Const(op)];
      }
    }

    /** Opcodes 0xb0 to 0xbf of the switch. */
    method RowB(op: byte, d: byte, near: nat) returns (len: nat, name: Mnemonic, args: seq<Arg>)
      requires 176 <= op < 192
      ensures len == Length(Decode(op)) && (name, args) == Syntax(op, d, near)
    {
      match op {
        case 0xb2 => len, name, args := 2, JB(op / 32), [Addr(near)];
        case 0xb4 => len, name, args := 2, Mnemonic.CALL, [Addr(op / 32 * 256 + d)];
        case 0xb0 | 0xb1 => len, name, args := 2, Mnemonic.MOV, [AtR(op % 2), Const(d)];
        case 0xb3 => len, name, args := 1, Mnemonic.JMPP, [Sym(ATACC)];
        case 0xb5 => len, name, args := 1, Mnemonic.CPL, [Sym(F1)];
        case 0xb6 => len, name, args := 2, Mnemonic.JF0, [Addr(near)];
        case 0xb8 | 0xb9 | 0xba | 0xbb | 0xbc | 0xbd | 0xbe | 0xbf => len, name, args := 2, Mnemonic.MOV, [R(op % 8), Const(d)];
        case _ => len, name, args := 1, DB, [Const(op)];
      }
    }

    /** Opcodes 0xc0 to 0xcf of the switch. */
    method RowC(op: byte, d: byte, near: nat) returns (len: nat, name: Mnemonic, args: seq<Arg>)
      requires 192 <= op < 208
      ensures len == Length(Decode(op)) && (name, args) == Syntax(op, d, near)
    {
      match op {
        case 0xc4 => len, name, args := 2, Mnemonic.JMP, [Addr(op / 32 * 256 + d)];
        case 0xc5 => len, name, args := 1, Mnemonic.SEL, [Sym(RB0)];
        case 0xc6 => len, name, args := 2, Mnemonic.JZ, [Addr(near)];
        case 0xc7 => len, name, args := 1, Mnemonic.MOV, [Sym(ACC), Sym(PSW)];
        case 0xc8 | 0xc9 | 0xca | 0xcb | 0xcc | 0xcd | 0xce | 0xcf => len, name, args := 1, Mnemonic.DEC, [R(op % 8)];
        case _ => len, name, args := 1, DB, [Const(op)];
      }
    }

    /** Opcodes 0xd0 to 0xdf of the switch. */
    method RowD(op: byte, d: byte, near: nat) returns (len: nat, name: Mnemonic, args: seq<Arg>)
      requires 208 <= op < 224
      ensures len == Length(Decode(op)) && (name, args) == Syntax(op, d, near)
    {
      match op {
        case 0xd2 => len, name, args := 2, JB(op / 32), [Addr(near)];
        case 0xd4 => len, name, args := 2, Mnemonic.CALL, [Addr(op / 32 * 256 + d)];
        case 0xd0 | 0xd1 => len, name, args := 1, Mnemonic.XRL, [Sym(ACC), AtR(op % 2)];
        case 0xd3 => len, name, args := 2, Mnemonic.XRL, [Sym(ACC), Const(d)];
        case 0xd5 => len, name, args := 1, Mnemonic.SEL, [Sym(RB1)];
        case 0xd7 => len, name, args := 1, Mnemonic.MOV, [Sym(PSW), Sym(ACC)];
        case 0xd8 | 0xd9 | 0xda | 0xdb | 0xdc | 0xdd | 0xde | 0xdf => len, name, args := 1, Mnemonic.XRL, [Sym(ACC), R(op % 8)];
        case _ => len, name, args := 1, DB, [Const(op)];
      }
    }

    /** Opcodes 0xe0 to 0xef of the switch. */
    method RowE(op: byte, d: byte, near: nat) returns (len: nat, name: Mnemonic, args: seq<Arg>)
      requires 224 <= op < 240
      ensures len == Length(Decode(op)) && (name, args) == Syntax(op, d, near)
    {
      hide PortSyntax, ControlSyntax;
      match op {
        case 0xe4 => len, name, args := 2, Mnemonic.JMP, [Addr(op / 32 * 256 + d)];
        case 0xe3 => len, name, args := 1, Mnemonic.MOVP3, [Sym(ACC), Sym(ATACC)];
        case 0xe5 => len, name, args := 1, Mnemonic.SEL, [Sym(MB0)];
        case 0xe6 => len, name, args := 2, Mnemonic.JNC, [Addr(near)];
        case 0xe7 => len, name, args := 1, Mnemonic.RL, [Sym(ACC)];
        case 0xe8 | 0xe9 | 0xea | 0xeb | 0xec | 0xed | 0xee | 0xef =>
          len, name, args := 2, Mnemonic.DJNZ, [R(op % 8), Addr(near)];
        case _ => len, name, args := 1, DB, [Const(op)];
      }
    }

    /** Opcodes 0xf0 to 0xff of the switch. */
    method RowF(op: byte, d: byte, near: nat) returns (len: nat, name: Mnemonic, args: seq<Arg>)
      requires 240 <= op < 256
      ensures len == Length(Decode(op)) && (name, args) == Syntax(op, d, near)
    {
      hide PortSyntax, ControlSyntax;
      match op {
        case 0xf2 => len, name, args := 2, JB(op / 32), [Addr(near)];
        case 0xf4 => len, name, args := 2, Mnemonic.CALL, [Addr(op / 32 * 256 + d)];
        case 0xf0 | 0xf1 => len, name, args := 1, Mnemonic.MOV, [Sym(ACC), AtR(op % 2)];
        case 0xf5 => len, name, args := 1, Mnemonic.SEL, [Sym(MB1)];
        case 0xf6 => len, name, args := 2, Mnemonic.JC, [Addr(near)];
        case 0xf7 => len, name, args := 1, Mnemonic.RLC, [Sym(ACC)];
        case 0xf8 | 0xf9 | 0xfa | 0xfb | 0xfc | 0xfd | 0xfe | 0xff => len, name, args := 1, Mnemonic.MOV, [Sym(ACC), R(op % 8)];
        case _ => len, name, args := 1, DB, [Const(op)];
      }
    }

    /** Lists the instructions from address from up to to; false where the source would read past the end of the
        ROM, or start all over because its position wraps to 0. */
    method Disassemble(from: word, to: word) returns (ok: bool, lines: seq<Line>)
      ensures ok == Sweeps(rom, from, to)
      ensures ok ==> lines == SweepLines(rom, from, to)
    {
      hide Decode, Syntax;
      ok, lines := true, [];
      var pos: nat := from;
      while pos < to
        invariant ok && Sweeps(rom, pos, to) == Sweeps(rom, from, to)
        invariant Sweeps(rom, from, to) ==> lines + SweepLines(rom, pos, to) == SweepLines(rom, from, to)
        decreases Ahead(pos, to)
      {
        var curPos := pos;
        if pos >= |rom| { return false, []; }
        var op := rom[pos];
        var d := if pos + 1 < |rom| then rom[pos + 1] else 0;
        var len, name, args := Switch(op, d, ListedNear(curPos, d));
        pos := pos + len;
        if pos > |rom| || pos > 65535 { return false, []; }
        var l := Line(curPos, rom[curPos..pos], name, args);
        ghost var sofar := lines;
        lines := lines + [l];
        if Sweeps(rom, curPos, to) {
          assert sofar + ([l] + SweepLines(rom, pos, to)) == lines + SweepLines(rom, pos, to);
        }
      }
      if Sweeps(rom, from, to) {
        assert lines + [] == lines;
      }
    }

    /** The whole ROM; its size is cut to 16 bits, so that one of 65536 bytes gives an empty listing
        and one of n more bytes that of its first n. */
    method DisassembleAll() returns (ok: bool, lines: seq<Line>)
      ensures ok == Sweeps(rom, 0, |rom| % 65536) && (ok ==> lines == SweepLines(rom, 0, |rom| % 65536))
      ensures |rom| < 65536 && ok ==> Bytes(lines) == rom && Contiguous(lines, 0, |rom|)
      ensures |rom| == 65536 ==> ok && lines == []
    {
      hide Sweeps, SweepLines, Bytes, Contiguous, Decode;
      var size := |rom| % 65536;
      ok, lines := Disassemble(0, size);
      if |rom| < 65536 && ok { ListedWhole(rom, lines); }
      if |rom| == 65536 { EmptySweep(rom); }
    }

    method Switch(op: byte, d: byte, near: nat) returns (len: nat, name: Mnemonic, args: seq<Arg>)
      ensures len == Length(Decode(op)) && (name, args) == Syntax(op, d, near)
    {
      hide Decode, Syntax;
      match op / 16 {
        case 0 => len, name, args := Row0(op, d, near);
        case 1 => len, name, args := Row1(op, d, near);
        case 2 => len, name, args := Row2(op, d, near);
        case 3 => len, name, args := Row3(op, d, near);
        case 4 => len, name, args := Row4(op, d, near);
        case 5 => len, name, args := Row5(op, d, near);
        case 6 => len, name, args := Row6(op, d, near);
        case 7 => len, name, args := Row7(op, d, near);
        case 8 => len, name, args := Row8(op, d, near);
        case 9 => len, name, args := Row9(op, d, near);
        case 10 => len, name, args := RowA(op, d, near);
        case 11 => len, name, args := RowB(op, d, near);
        case 12 => len, name, args := RowC(op, d, near);
        case 13 => len, name, args := RowD(op, d, near);
        case 14 => len, name, args := RowE(op, d, near);
        case _ => len, name, args := RowF(op, d, near);
      }
    }
  }

  // ----- what the listing promises -----

  lemma ListedWhole(rom: seq<byte>, lines: seq<Line>)
    requires Sweeps(rom, 0, |rom|) && lines == SweepLines(rom, 0, |rom|)
    ensures Bytes(lines) == rom && Contiguous(lines, 0, |rom|)
  {
    hide Sweeps, SweepLines, Bytes, Contiguous;
    WholeRomListed(rom);
  }

  lemma {:induction false} EmptySweep(rom: seq<byte>)
    ensures Sweeps(rom, 0, 0) && SweepLines(rom, 0, 0) == []
  {
  }

  function Bytes(lines: seq<Line>): seq<byte> {
    if lines == [] then [] else lines[0].bytes + Bytes(lines[1..])
  }

  /** Every line starts where the previous one ends. */
  ghost predicate Contiguous(lines: seq<Line>, from: nat, end: nat) {
    if lines == [] then from == end
    else lines[0].addr == from && Contiguous(lines[1..], from + |lines[0].bytes|, end)
  }

  /** Where the sweep stops: the first instruction boundary at or after to. */
  function SweepEnd(rom: seq<byte>, pos: nat, to: nat): nat
    requires Sweeps(rom, pos, to)
    decreases Ahead(pos, to)
  {
    if pos >= to then pos else SweepEnd(rom, pos + Length(Decode(rom[pos])), to)
  }

  /** The sweep partitions the ROM: its lines are contiguous and their bytes are the ROM's bytes from
      start to end, with nothing skipped or repeated. */
  lemma {:induction false} SweepPartitions(rom: seq<byte>, pos: nat, to: nat)
    requires Sweeps(rom, pos, to) && pos <= |rom|
    ensures pos <= SweepEnd(rom, pos, to) <= |rom|
    ensures pos <= to ==> to <= SweepEnd(rom, pos, to) <= to + 1
    ensures Contiguous(SweepLines(rom, pos, to), pos, SweepEnd(rom, pos, to))
    ensures Bytes(SweepLines(rom, pos, to)) == rom[pos..SweepEnd(rom, pos, to)]
    decreases Ahead(pos, to)
  {
    hide Decode, Syntax;
    if pos < to {
      var next := pos + Length(Decode(rom[pos]));
      SweepPartitions(rom, next, to);
      var end := SweepEnd(rom, pos, to);
      assert rom[pos..next] + rom[next..end] == rom[pos..end];
      assert ([LineAt(rom, pos)] + SweepLines(rom, next, to))[1..] == SweepLines(rom, next, to);
    }
  }

  /** A ROM whose sweep ends on its last byte is listed completely. */
  lemma {:induction false} WholeRomListed(rom: seq<byte>)
    requires Sweeps(rom, 0, |rom|)
    ensures Bytes(SweepLines(rom, 0, |rom|)) == rom && Contiguous(SweepLines(rom, 0, |rom|), 0, |rom|)
  {
    hide Decode, Sweeps, SweepLines, SweepEnd;
    SweepPartitions(rom, 0, |rom|);
    assert rom[0..|rom|] == rom;
  }

  /** A line has as many bytes as the CPU's program counter advances when it fetches the instruction. */
  lemma LengthIsFetchCount(m: Machine)
    requires Prepared(m).Some? && m.cpu.regs.pc + 2 < 65536
    ensures var pc := m.cpu.regs.pc;
            && pc + Length(Decode(m.cpu.rom[pc])) <= |m.cpu.rom|
            && |LineAt(m.cpu.rom, pc).bytes| == Prepared(m).value.2.cpu.regs.pc - pc
  {
    hide Decode, Syntax, Tick;
    CpuFrames.PreparedFrame(m);
    CpuFrames.TickFrame(Advance(m));
  }

  /** The listed target of a conditional jump is the address the CPU jumps to exactly when the opcode is
      not the last byte of its page: the CPU uses the page of the operand byte. */
  lemma NearTargetAgrees(addr: nat, d: byte)
    requires addr + 2 < 65536
    ensures ListedNear(addr, d) == NearTarget(addr + 2, d) <==> addr % 256 != 255
  {
    PageOfNext(addr);
    assert (addr + 2 + 65535) % 65536 == addr + 1;
  }

  lemma PageOfNext(addr: nat)
    ensures addr % 4096 / 256 == (addr + 1) % 4096 / 256 <==> addr % 256 != 255
  {
    var page, off := addr / 256, addr % 256;
    PageIs(addr, page, off);
    if off != 255 {
      PageIs(addr + 1, page, off + 1);
    } else {
      PageIs(addr + 1, page + 1, 0);
      PagesDiffer(page);
    }
  }

  lemma PageIs(addr: nat, page: nat, off: nat)
    requires addr == 256 * page + off && off < 256
    ensures addr % 4096 / 256 == page % 16
  {
    LowOf(addr, page / 16, 256 * (page % 16) + off);
    QuotientOf(page % 16, off);
  }

  lemma LowOf(addr: nat, k: nat, r: nat)
    requires addr == 4096 * k + r && r < 4096
    ensures addr % 4096 == r
  {
  }

  lemma QuotientOf(page: nat, off: nat)
    requires off < 256
    ensures (256 * page + off) / 256 == page
  {
  }

  lemma PagesDiffer(page: nat)
    ensures page % 16 != (page + 1) % 16
  {
  }

  /** The listed target of JMP and CALL is the CPU's exactly when the memory bank flip-flop adds nothing. */
  lemma FarTargetAgrees(dbf: byte, page: nat, d: byte)
    requires page < 8
    ensures page * 256 + d == FarTarget(dbf, page, d) <==> dbf % 32 == 0
  {
  }

  /** The port a listing names for a port instruction, as an index into the CPU's ports. */
  function ListedPort(op: byte): nat {
    if PortArg(op) == Sym(BUS) then 0 else op % 4
  }

  function CpuPort(q: PortInstr): nat {
    match q
    case Outl(p) => p
    case In(p) => p
    case OrlPort(p) => p
    case AnlPort(p) => p
    case _ => 0
  }

  predicate UsesPort(i: Instr) {
    i.Port? && (i.q.Outl? || i.q.In? || i.q.OrlPort? || i.q.AnlPort?)
  }

  /** The two decoders name the same port for every opcode but IN A,P2 and OUTL P2,A, where the CPU
      masks the port number to one bit and reaches BUS instead. */
  lemma PortsAgree(op: byte)
    requires UsesPort(Decode(op))
    ensures ListedPort(op) == CpuPort(Decode(op).q) <==> op != 0x0a && op != 0x3a
  {
  }
}
