/** The Intel 8049 of src/emulation/intel8049.cpp as a step function over machine values. */
module Cpu {
  import opened Bits
  import opened Board
  import opened Panel
  import opened Wrappers

  type Ram128 = s: seq<byte> | |s| == 128 witness Zeros(128)

  datatype Regs = Regs(t: byte, a: byte, pc: word, psw: byte, dbf: byte, f1: byte)

  datatype CpuState = CpuState(
    tf: bool, notInt: bool, timerRequest: bool, t0: bool, t1: bool,
    regs: Regs,
    extEnabled: bool, tcntEnabled: bool, counterRunning: bool, timerRunning: bool,
    countdown: byte, inInterrupt: bool,
    rom: seq<byte>, ram: Ram128)

  /** Observations kept for the statements only; nothing in the machine reads them. An overflow is
      merged when a timer request is already pending, a request is dropped when DIS TCNTI clears it. */
  datatype Log = Log(ticks: nat, overflows: nat, merged: nat, dropped: nat, timerEntries: nat, extEntries: nat, bus: seq<BusOp>)

  /** The inputs are those the user of the panel has still to make, one for each instruction and reset; nothing looks
      ahead, so a statement about all machines is one about all users. */
  datatype Machine = Machine(cpu: CpuState, board: BoardState, log: Log, inputs: seq<Input>)

  /** A step fails where the source aborts (PC beyond the ROM) or indexes outside a vector. */
  datatype Outcome = Next(m: Machine, cycles: nat) | Stuck

  // ----- PSW fields -----

  function Carry(psw: byte): nat { psw / 128 }
  function Aux(psw: byte): nat { psw / 64 % 2 }
  function F0(psw: byte): nat { psw / 32 % 2 }
  function Bank(psw: byte): nat { psw / 16 % 2 }
  function Sp(psw: byte): nat { psw % 8 }

  function SetCarry(psw: byte, c: bool): byte { (if c then 128 else 0) + psw % 128 }
  function SetAux(psw: byte, c: bool): byte { psw / 128 * 128 + (if c then 64 else 0) + psw % 64 }
  function SetF0(psw: byte, c: bool): byte { psw / 64 * 64 + (if c then 32 else 0) + psw % 32 }
  function SetBank(psw: byte, c: bool): byte { psw / 32 * 32 + (if c then 16 else 0) + psw % 16 }

  /** uint8_t arithmetic wraps. */
  function Inc(x: byte): byte { if x == 255 then 0 else x + 1 }
  function Dec(x: byte): byte { if x == 0 then 255 else x - 1 }

  /** One place to the left or right, with a bit moving in. */
  function ShiftedLeft(x: byte, low: bool): byte { x % 128 * 2 + if low then 1 else 0 }
  function ShiftedRight(x: byte, high: bool): byte { x / 2 + if high then 128 else 0 }
  function Swapped(x: byte): byte { x % 16 * 16 + x / 16 }

  // ----- instructions -----

  datatype Source = Reg(r: nat) | At(r: nat, masked: bool) | Immediate
  datatype AluOp = ADD | ADDC | ORL | ANL | XRL | MOV
  datatype UnaryOp = INC | DEC | CLR | CPL | SWAP | DA | RL | RLC | RR | RRC | MovAT | MovAPsw
  datatype FlagOp = ClrF0 | CplF0 | ClrC | CplC | SelRb0 | SelRb1 | ClrF1 | CplF1 | SelMb0 | SelMb1 | MovPswA

  datatype DataInstr =
    | Alu(op: AluOp, src: Source)
    | Unary(u: UnaryOp)
    | Flag(f: FlagOp)
    | IncReg(r: nat) | DecReg(r: nat) | MovRegA(r: nat) | MovRegData(r: nat) | XchReg(r: nat)
    | IncAt(r: nat) | MovAtA(r: nat) | MovAtData(r: nat) | XchAt(r: nat) | XchdAt(r: nat)
    | Movp | Movp3

  datatype Cond = IfBit(b: nat) | IfTF | IfNT0 | IfT0 | IfNT1 | IfT1 | IfF0 | IfF1 | IfNI | IfNZ | IfZ | IfNC | IfC

  datatype FlowInstr = Jmp(page: nat) | Call(page: nat) | Ret | Retr | Jump(c: Cond) | Djnz(r: nat) | Jmpp

  datatype ControlInstr = EnI | DisI | EnTcnti | DisTcnti | StrtCnt | StrtT | StopTcnt | MovTA

  datatype PortInstr =
    | Outl(p: nat) | In(p: nat) | OrlPort(p: nat) | AnlPort(p: nat)
    | MovdIn(p: nat) | ExpanderOut(code: nat, p: nat)
    | MovxIn(r: nat) | MovxOut(r: nat)

  datatype Instr =
    | Nop | Ent0Clk | Illegal
    | Data(d: DataInstr) | Flow(w: FlowInstr) | Control(k: ControlInstr) | Port(q: PortInstr)

  /** Registers named by an instruction exist. */
  predicate ValidData(d: DataInstr) {
    match d
    case Alu(_, src) => src.Immediate? || src.r < 8
    case Unary(_) => true
    case Flag(_) => true
    case Movp => true
    case Movp3 => true
    case _ => d.r < 8
  }

  predicate ValidFlow(w: FlowInstr) {
    match w
    case Jmp(page) => page < 8
    case Call(page) => page < 8
    case Jump(cond) => cond.IfBit? ==> cond.b < 8
    case Djnz(r) => r < 8
    case _ => true
  }

  predicate ValidPort(q: PortInstr) {
    match q
    case Outl(p) => p < 3
    case In(p) => p < 3
    case OrlPort(p) => p < 3
    case AnlPort(p) => p < 3
    case MovdIn(p) => p < 4
    case ExpanderOut(code, p) => code <= 12 && p < 4
    case MovxIn(r) => r < 8
    case MovxOut(r) => r < 8
  }

  predicate ValidInstr(i: Instr) {
    match i
    case Data(d) => ValidData(d)
    case Flow(w) => ValidFlow(w)
    case Port(q) => ValidPort(q)
    case _ => true
  }

  /** The opcode table. IN and OUTL take the port from bit 0 alone, as the source does. */
  function Decode(op: byte): (i: Instr)
    ensures ValidInstr(i)
  {
    var hi, low := op / 16, op % 16;
    if op % 32 == 4 then Flow(Jmp(op / 32))
    else if op % 32 == 20 then Flow(Call(op / 32))
    else if op % 32 == 18 then Flow(Jump(IfBit(op / 32)))
    else if low >= 8 && hi in {1, 2, 4, 5, 6, 7, 10, 11, 12, 13, 14, 15} then RegisterForm(hi, low - 8)
    else if low < 2 && hi in {1, 2, 3, 4, 5, 6, 7, 8, 9, 10, 11, 13, 15} then IndirectForm(hi, low)
    else if low == 3 then ImmediateColumn(hi)
    else if low == 5 then ControlColumn(hi)
    else if low == 6 then JumpColumn(hi)
    else if low == 7 then AccumulatorColumn(hi)
    else match op
      case 0x00 => Nop
      case 0x02 => Port(Outl(0))
      case 0x42 => Data(Unary(MovAT))
      case 0x62 => Control(MovTA)
      case 0x08 => Port(In(0))
      case 0x88 => Port(OrlPort(0))
      case 0x98 => Port(AnlPort(0))
      case _ =>
        if hi == 0 && (low == 9 || low == 10) then Port(In(op % 2))
        else if hi == 3 && (low == 9 || low == 10) then Port(Outl(op % 2))
        else if hi == 8 && (low == 9 || low == 10) then Port(OrlPort(op % 4))
        else if hi == 9 && (low == 9 || low == 10) then Port(AnlPort(op % 4))
        else if low < 12 then Illegal
        else match hi
          case 0 => Port(MovdIn(op % 4))
          case 3 => Port(ExpanderOut(4, op % 4))
          case 8 => Port(ExpanderOut(8, op % 4))
          case 9 => Port(ExpanderOut(12, op % 4))
          case _ => Illegal
  }

  function RegisterForm(hi: nat, r: nat): (i: Instr)
    requires r < 8
    ensures ValidInstr(i)
  {
    match hi
    case 1 => Data(IncReg(r))
    case 2 => Data(XchReg(r))
    case 4 => Data(Alu(ORL, Reg(r)))
    case 5 => Data(Alu(ANL, Reg(r)))
    case 6 => Data(Alu(ADD, Reg(r)))
    case 7 => Data(Alu(ADDC, Reg(r)))
    case 10 => Data(MovRegA(r))
    case 11 => Data(MovRegData(r))
    case 12 => Data(DecReg(r))
    case 13 => Data(Alu(XRL, Reg(r)))
    case 14 => Flow(Djnz(r))
    case _ => Data(Alu(MOV, Reg(r)))
  }

  function IndirectForm(hi: nat, r: nat): (i: Instr)
    requires r < 2
    ensures ValidInstr(i)
  {
    match hi
    case 1 => Data(IncAt(r))
    case 2 => Data(XchAt(r))
    case 3 => Data(XchdAt(r))
    case 4 => Data(Alu(ORL, At(r, true)))
    case 5 => Data(Alu(ANL, At(r, true)))
    case 6 => Data(Alu(ADD, At(r, false)))
    case 7 => Data(Alu(ADDC, At(r, true)))
    case 8 => Port(MovxIn(r))
    case 9 => Port(MovxOut(r))
    case 10 => Data(MovAtA(r))
    case 11 => Data(MovAtData(r))
    case 13 => Data(Alu(XRL, At(r, true)))
    case _ => Data(Alu(MOV, At(r, true)))
  }

  function ImmediateColumn(hi: nat): (i: Instr)
    ensures ValidInstr(i)
  {
    match hi
    case 0 => Data(Alu(ADD, Immediate))
    case 1 => Data(Alu(ADDC, Immediate))
    case 2 => Data(Alu(MOV, Immediate))
    case 4 => Data(Alu(ORL, Immediate))
    case 5 => Data(Alu(ANL, Immediate))
    case 8 => Flow(Ret)
    case 9 => Flow(Retr)
    case 10 => Data(Movp)
    case 11 => Flow(Jmpp)
    case 13 => Data(Alu(XRL, Immediate))
    case 14 => Data(Movp3)
    case _ => Illegal
  }

  function ControlColumn(hi: nat): (i: Instr)
    ensures ValidInstr(i)
  {
    match hi
    case 0 => Control(EnI)
    case 1 => Control(DisI)
    case 2 => Control(EnTcnti)
    case 3 => Control(DisTcnti)
    case 4 => Control(StrtCnt)
    case 5 => Control(StrtT)
    case 6 => Control(StopTcnt)
    case 7 => Ent0Clk
    case 8 => Data(Flag(ClrF0))
    case 9 => Data(Flag(CplF0))
    case 10 => Data(Flag(ClrF1))
    case 11 => Data(Flag(CplF1))
    case 12 => Data(Flag(SelRb0))
    case 13 => Data(Flag(SelRb1))
    case 14 => Data(Flag(SelMb0))
    case _ => Data(Flag(SelMb1))
  }

  function JumpColumn(hi: nat): (i: Instr)
    ensures ValidInstr(i)
  {
    match hi
    case 1 => Flow(Jump(IfTF))
    case 2 => Flow(Jump(IfNT0))
    case 3 => Flow(Jump(IfT0))
    case 4 => Flow(Jump(IfNT1))
    case 5 => Flow(Jump(IfT1))
    case 7 => Flow(Jump(IfF1))
    case 8 => Flow(Jump(IfNI))
    case 9 => Flow(Jump(IfNZ))
    case 11 => Flow(Jump(IfF0))
    case 12 => Flow(Jump(IfZ))
    case 14 => Flow(Jump(IfNC))
    case 15 => Flow(Jump(IfC))
    case _ => Illegal
  }

  function AccumulatorColumn(hi: nat): (i: Instr)
    ensures ValidInstr(i)
  {
    match hi
    case 0 => Data(Unary(DEC))
    case 1 => Data(Unary(INC))
    case 2 => Data(Unary(CLR))
    case 3 => Data(Unary(CPL))
    case 4 => Data(Unary(SWAP))
    case 5 => Data(Unary(DA))
    case 6 => Data(Unary(RRC))
    case 7 => Data(Unary(RR))
    case 9 => Data(Flag(ClrC))
    case 10 => Data(Flag(CplC))
    case 12 => Data(Unary(MovAPsw))
    case 13 => Data(Flag(MovPswA))
    case 14 => Data(Unary(RL))
    case 15 => Data(Unary(RLC))
    case _ => Illegal
  }

  /** The second byte an instruction fetches. */
  predicate HasOperand(i: Instr) {
    match i
    case Data(Alu(_, Immediate)) => true
    case Data(MovRegData(_)) => true
    case Data(MovAtData(_)) => true
    case Flow(Ret) => false
    case Flow(Retr) => false
    case Flow(Jmpp) => false
    case Flow(_) => true
    case Port(OrlPort(_)) => true
    case Port(AnlPort(_)) => true
    case _ => false
  }

  function Cycles(i: Instr): (c: nat)
    ensures 1 <= c <= 2
  {
    match i
    case Data(d) => if d.Movp? || d.Movp3? || HasOperand(i) then 2 else 1
    case Flow(_) => 2
    case Port(_) => 2
    case _ => 1
  }

  // ----- data instructions -----

  function RegAddr(psw: byte, r: nat): (a: nat)
    requires r < 8
    ensures a < 8 || 24 <= a < 32
  {
    (if Bank(psw) == 0 then 0 else 24) + r
  }

  function ReadReg(c: CpuState, r: nat): byte
    requires r < 8
  {
    c.ram[RegAddr(c.regs.psw, r)]
  }

  /** A + value + carry, with CY and AC as addToAcc sets them. */
  function AddToAcc(g: Regs, value: byte, carryIn: nat): Regs
    requires carryIn <= 1
  {
    var res := g.a + value + carryIn;
    var half := g.a % 16 + value % 16 + carryIn;
    g.(a := res % 256, psw := SetAux(SetCarry(g.psw, res > 255), half > 15))
  }

  /** The part of the state a data instruction can change. */
  datatype Update = Update(a: byte, psw: byte, dbf: byte, f1: byte, ram: Ram128)

  function Same(c: CpuState): Update {
    Update(c.regs.a, c.regs.psw, c.regs.dbf, c.regs.f1, c.ram)
  }

  function WithUpdate(c: CpuState, u: Update): CpuState {
    c.(regs := c.regs.(a := u.a, psw := u.psw, dbf := u.dbf, f1 := u.f1), ram := u.ram)
  }

  function OperandOf(c: CpuState, src: Source, d: byte): Option<byte>
    requires src.Immediate? || src.r < 8
  {
    match src
    case Immediate => Some(d)
    case Reg(r) => Some(ReadReg(c, r))
    case At(r, masked) =>
      var pos := if masked then ReadReg(c, r) % 128 else ReadReg(c, r);
      if pos < 128 then Some(c.ram[pos]) else None
  }

  function ExecAlu(c: CpuState, op: AluOp, v: byte): Update {
    var g := c.regs;
    match op
    case ADD => var g' := AddToAcc(g, v, 0); Same(c).(a := g'.a, psw := g'.psw)
    case ADDC => var g' := AddToAcc(g, v, Carry(g.psw)); Same(c).(a := g'.a, psw := g'.psw)
    case ORL => Same(c).(a := Or(g.a, v))
    case ANL => Same(c).(a := And(g.a, v))
    case XRL => Same(c).(a := Xor(g.a, v))
    case MOV => Same(c).(a := v)
  }

  /** DA A as written: the high nibble is adjusted after the low one, without its carry. */
  function DecimalAdjust(g: Regs): Regs {
    var a1 := if g.a % 16 > 9 || Aux(g.psw) > 0 then (g.a + 6) % 256 else g.a;
    var hi := a1 / 16 + if a1 / 16 > 9 || Carry(g.psw) > 0 then 6 else 0;
    g.(a := hi % 16 * 16 + a1 % 16, psw := SetCarry(g.psw, hi > 15))
  }

  function ExecUnary(c: CpuState, u: UnaryOp): Update {
    var g := c.regs;
    match u
    case INC => Same(c).(a := Inc(g.a))
    case DEC => Same(c).(a := Dec(g.a))
    case CLR => Same(c).(a := 0)
    case CPL => Same(c).(a := Not(g.a))
    case SWAP => Same(c).(a := Swapped(g.a))
    case DA => var g' := DecimalAdjust(g); Same(c).(a := g'.a, psw := g'.psw)
    case RL => Same(c).(a := ShiftedLeft(g.a, g.a >= 128))
    case RLC => Same(c).(a := ShiftedLeft(g.a, Carry(g.psw) > 0), psw := SetCarry(g.psw, g.a >= 128))
    case RR => Same(c).(a := ShiftedRight(g.a, g.a % 2 == 1))
    case RRC => Same(c).(a := ShiftedRight(g.a, Carry(g.psw) > 0), psw := SetCarry(g.psw, g.a % 2 == 1))
    case MovAT => Same(c).(a := g.t)
    case MovAPsw => Same(c).(a := g.psw)
  }

  function ExecFlag(c: CpuState, f: FlagOp): Update {
    var psw := c.regs.psw;
    match f
    case ClrF0 => Same(c).(psw := SetF0(psw, false))
    case CplF0 => Same(c).(psw := SetF0(psw, F0(psw) == 0))
    case ClrC => Same(c).(psw := SetCarry(psw, false))
    case CplC => Same(c).(psw := SetCarry(psw, Carry(psw) == 0))
    case SelRb0 => Same(c).(psw := SetBank(psw, false))
    case SelRb1 => Same(c).(psw := SetBank(psw, true))
    case ClrF1 => Same(c).(f1 := 0)
    case CplF1 => Same(c).(f1 := if c.regs.f1 <= 1 then 1 - c.regs.f1 else 257 - c.regs.f1)
    case SelMb0 => Same(c).(dbf := 0)
    case SelMb1 => Same(c).(dbf := 1)
    case MovPswA => Same(c).(psw := c.regs.a)
  }

  function ExecData(c: CpuState, i: DataInstr, d: byte): Option<Update>
    requires ValidData(i)
  {
    var g, s := c.regs, Same(c);
    match i
    case Alu(op, src) =>
      var v := OperandOf(c, src, d);
      if v.None? then None else Some(ExecAlu(c, op, v.value))
    case Unary(u) => Some(ExecUnary(c, u))
    case Flag(f) => Some(ExecFlag(c, f))
    case IncReg(r) => Some(s.(ram := c.ram[RegAddr(g.psw, r) := Inc(ReadReg(c, r))]))
    case DecReg(r) => Some(s.(ram := c.ram[RegAddr(g.psw, r) := Dec(ReadReg(c, r))]))
    case MovRegA(r) => Some(s.(ram := c.ram[RegAddr(g.psw, r) := g.a]))
    case MovRegData(r) => Some(s.(ram := c.ram[RegAddr(g.psw, r) := d]))
    case XchReg(r) => Some(s.(a := ReadReg(c, r), ram := c.ram[RegAddr(g.psw, r) := g.a]))
    case IncAt(r) =>
      var pos := ReadReg(c, r) % 128;
      Some(s.(ram := c.ram[pos := Inc(c.ram[pos])]))
    case MovAtA(r) => Some(s.(ram := c.ram[ReadReg(c, r) % 128 := g.a]))
    case MovAtData(r) =>
      var pos := ReadReg(c, r);
      if pos < 128 then Some(s.(ram := c.ram[pos := d])) else None
    case XchAt(r) =>
      var pos := ReadReg(c, r);
      if pos < 128 then Some(s.(a := c.ram[pos], ram := c.ram[pos := g.a])) else None
    case XchdAt(r) =>
      var pos := ReadReg(c, r) % 128;
      Some(s.(a := g.a / 16 * 16 + c.ram[pos] % 16,
              ram := c.ram[pos := c.ram[pos] / 16 * 16 + g.a % 16]))
    case Movp =>
      var pos := g.pc % 4096 / 256 * 256 + g.a;
      if pos < |c.rom| then Some(s.(a := c.rom[pos])) else None
    case Movp3 =>
      var pos := 0x300 + g.a;
      if pos < |c.rom| then Some(s.(a := c.rom[pos])) else None
  }

  // ----- control flow and the call stack in RAM cells 8..23 -----

  /** The part of the state a control-flow instruction can change. */
  datatype Flowed = Flowed(pc: word, psw: byte, tf: bool, inInterrupt: bool, ram: Ram128)

  function Still(c: CpuState): Flowed {
    Flowed(c.regs.pc, c.regs.psw, c.tf, c.inInterrupt, c.ram)
  }

  function WithFlow(c: CpuState, f: Flowed): CpuState {
    c.(regs := c.regs.(pc := f.pc, psw := f.psw), tf := f.tf, inInterrupt := f.inInterrupt, ram := f.ram)
  }

  function Push(f: Flowed): Flowed {
    var sp := Sp(f.psw);
    f.(ram := f.ram[8 + 2 * sp := f.pc % 256][9 + 2 * sp := Or(f.psw / 16 * 16, f.pc / 256)],
       psw := f.psw / 8 * 8 + (sp + 1) % 8)
  }

  function Pop(f: Flowed, restore: bool): Flowed {
    var sp := (f.psw + 7) % 8;
    var low, high := f.ram[8 + 2 * sp], f.ram[9 + 2 * sp];
    var upper := if restore then high / 16 * 16 else f.psw / 16 * 16;
    f.(pc := high % 16 * 256 + low, psw := upper + 8 + sp, inInterrupt := f.inInterrupt && !restore)
  }

  /** The target of JMP and CALL: the memory bank flip-flop is address bit 11. */
  function FarTarget(dbf: byte, page: nat, d: byte): word
    requires page < 8
  {
    dbf % 32 * 2048 + page * 256 + d
  }

  /** The target of a conditional jump: same page as the operand byte, which the PC has just passed. */
  function NearTarget(pc: word, d: byte): word {
    (pc + 65535) % 65536 % 4096 / 256 * 256 + d
  }

  predicate Holds(c: CpuState, cond: Cond)
    requires cond.IfBit? ==> cond.b < 8
  {
    match cond
    case IfBit(b) => Bit(c.regs.a, b) == 1
    case IfTF => c.tf
    case IfNT0 => !c.t0
    case IfT0 => c.t0
    case IfNT1 => !c.t1
    case IfT1 => c.t1
    case IfF0 => F0(c.regs.psw) > 0
    case IfF1 => c.regs.f1 != 0
    case IfNI => c.notInt
    case IfNZ => c.regs.a != 0
    case IfZ => c.regs.a == 0
    case IfNC => Carry(c.regs.psw) == 0
    case IfC => Carry(c.regs.psw) != 0
  }

  function ExecFlow(c: CpuState, w: FlowInstr, d: byte): Option<Flowed>
    requires ValidFlow(w)
  {
    var g, s := c.regs, Still(c);
    match w
    case Jmp(page) => Some(s.(pc := FarTarget(g.dbf, page, d)))
    case Call(page) => Some(Push(s).(pc := FarTarget(g.dbf, page, d)))
    case Ret => Some(Pop(s, false))
    case Retr => Some(Pop(s, true))
    case Jump(cond) =>
      if !Holds(c, cond) then Some(s)
      else Some(s.(pc := NearTarget(g.pc, d), tf := c.tf && cond != IfTF))
    case Djnz(r) =>
      var val := Dec(ReadReg(c, r));
      var s' := s.(ram := c.ram[RegAddr(g.psw, r) := val]);
      Some(if val != 0 then s'.(pc := NearTarget(g.pc, d)) else s')
    case Jmpp =>
      var pos := g.pc / 256 * 256 + g.a;
      if pos < |c.rom| then Some(s.(pc := g.pc / 256 * 256 + c.rom[pos])) else None
  }

  // ----- timer and interrupt control -----

  function ExecControl(c: CpuState, k: ControlInstr): CpuState {
    match k
    case EnI => c.(extEnabled := true)
    case DisI => c.(extEnabled := false)
    case EnTcnti => c.(tcntEnabled := true)
    case DisTcnti => c.(tcntEnabled := false, timerRequest := false)
    case StrtCnt => c.(counterRunning := true, timerRunning := false)
    case StrtT => c.(counterRunning := false, timerRunning := true, countdown := 32)
    case StopTcnt => c.(timerRunning := false, counterRunning := false)
    case MovTA => c.(regs := c.regs.(t := c.regs.a))
  }

  // ----- ports -----

  function PortValue(b: BoardState, p: nat): byte
    requires p < 3
  {
    if p == 0 then b.bus else if p == 1 then b.p1 else b.p2
  }

  /** A full write of a port; the panel answers one of P1. */
  function PortWrite(p: nat, v: byte, now: Option<Input>): BusOp
    requires p < 3
  {
    if p == 0 then OutBus(v) else if p == 1 then OutP1(AnsweredP1(now, v)) else P2Full(v)
  }

  /** The instruction pulses PROG. */
  predicate Strobes(q: PortInstr) {
    q.MovdIn? || q.ExpanderOut?
  }

  /** The address on the low half of P2 and, behind the falling edge of PROG, the panel's keys. */
  function StrobeOps(b: BoardState, address: nibble, now: Option<Input>): seq<BusOp> {
    if now.None? then [P2Low(address)] else [P2Low(address), P2Low(KeysOf(now, b.pid.pc))]
  }

  /** The board operations of a port instruction, in order. */
  function PortOps(c: CpuState, b: BoardState, q: PortInstr, d: byte, now: Option<Input>): seq<BusOp>
    requires ValidPort(q)
  {
    match q
    case Outl(p) => [PortWrite(p, c.regs.a, now)]
    case In(p) => []
    case OrlPort(p) => [PortWrite(p, Or(PortValue(b, p), d), now)]
    case AnlPort(p) => [PortWrite(p, And(PortValue(b, p), d), now)]
    case MovdIn(p) => StrobeOps(b, p, now)
    case ExpanderOut(code, p) => StrobeOps(b, code + p, now) + [P2Low(c.regs.a % 16)]
    case MovxIn(r) => [BusOp.Read(ReadReg(c, r))]
    case MovxOut(r) => [Store(ReadReg(c, r), c.regs.a)]
  }

  /** What a port instruction leaves in A, given the board afterwards. */
  function PortResult(a: byte, b: BoardState, q: PortInstr): byte
    requires ValidPort(q)
  {
    match q
    case In(p) => PortValue(b, p)
    case MovdIn(p) => b.p2 % 16
    case MovxIn(r) => b.bus
    case _ => a
  }

  /** PROG with a row selected that the key matrix does not have. */
  predicate NoSuchRow(m: Machine, q: PortInstr) {
    Strobes(q) && m.inputs != [] && Row(m.board.pid.pc) >= 6
  }

  function ExecPort(m: Machine, q: PortInstr, d: byte): Machine
    requires ValidPort(q)
  {
    var ops := PortOps(m.cpu, m.board, q, d, Current(m.inputs));
    var b := RunBus(m.board, ops);
    m.(board := b, log := m.log.(bus := m.log.bus + ops),
       cpu := m.cpu.(regs := m.cpu.regs.(a := PortResult(m.cpu.regs.a, b, q))))
  }

  // ----- one instruction -----

  function IncCounter(m: Machine): Machine {
    var c, over := m.cpu, m.cpu.regs.t == 255;
    m.(cpu := c.(tf := c.tf || over, timerRequest := c.timerRequest || over,
                 regs := c.regs.(t := Inc(c.regs.t))),
       log := m.log.(overflows := m.log.overflows + if over then 1 else 0,
                     merged := m.log.merged + if over && c.timerRequest then 1 else 0))
  }

  function Tick(m: Machine): Machine {
    var m1 := m.(log := m.log.(ticks := m.log.ticks + 1));
    if !m.cpu.timerRunning then m1
    else
      var left := Dec(m.cpu.countdown);
      if left == 0 then IncCounter(m1.(cpu := m1.cpu.(countdown := 32)))
      else m1.(cpu := m1.cpu.(countdown := left))
  }

  /** External interrupts are served before a pending timer request; none nests. */
  function HandleInterrupts(m: Machine): Machine {
    var c := m.cpu;
    if c.inInterrupt then m
    else if !c.notInt && c.extEnabled then
      m.(cpu := WithFlow(c, Push(Still(c)).(pc := 3, inInterrupt := true)), log := m.log.(extEntries := m.log.extEntries + 1))
    else if c.timerRequest && c.tcntEnabled then
      m.(cpu := WithFlow(c, Push(Still(c)).(pc := 7, inInterrupt := true)).(timerRequest := false),
         log := m.log.(timerEntries := m.log.timerEntries + 1))
    else m
  }

  /** The effect of an instruction after its bytes are fetched and its cycles ticked. */
  function Exec(m: Machine, i: Instr, d: byte): Option<Machine>
    requires ValidInstr(i)
  {
    match i
    case Data(x) =>
      var u := ExecData(m.cpu, x, d);
      if u.None? then None else Some(m.(cpu := WithUpdate(m.cpu, u.value)))
    case Flow(w) =>
      var f := ExecFlow(m.cpu, w, d);
      if f.None? then None else Some(m.(cpu := WithFlow(m.cpu, f.value)))
    case Control(k) =>
      var drop := if k == DisTcnti && m.cpu.timerRequest then 1 else 0;
      Some(m.(cpu := ExecControl(m.cpu, k), log := m.log.(dropped := m.log.dropped + drop)))
    case Port(q) => if NoSuchRow(m, q) then None else Some(ExecPort(m, q, d))
    case _ => Some(m)
  }

  predicate CanFetch(m: Machine) {
    m.cpu.regs.pc < |m.cpu.rom|
  }

  function FetchByte(m: Machine): byte
    requires CanFetch(m)
  {
    m.cpu.rom[m.cpu.regs.pc]
  }

  function Advance(m: Machine): Machine {
    m.(cpu := m.cpu.(regs := m.cpu.regs.(pc := (m.cpu.regs.pc + 1) % 65536)))
  }

  /** The rest of an instruction once its opcode is fetched and its first cycle ticked: the operand
      byte and the second tick, giving the machine the effect starts from. */
  function Operand(m: Machine, i: Instr): Option<(byte, Machine)> {
    if !HasOperand(i) then Some((0, if Cycles(i) == 2 then Tick(m) else m))
    else if !CanFetch(m) then None
    else Some((FetchByte(m), Tick(Advance(m))))
  }

  /** The machine just before the effect of the instruction: bytes fetched, cycles ticked. */
  function Prepared(m: Machine): (p: Option<(Instr, byte, Machine)>)
    ensures p.Some? ==> ValidInstr(p.value.0)
  {
    if !CanFetch(m) then None
    else
      var i := Decode(FetchByte(m));
      var p := Operand(Tick(Advance(m)), i);
      if p.None? then None else Some((i, p.value.0, p.value.1))
  }

  /** The machine after the instruction's effect and before interrupts are looked at. */
  function Body(m: Machine): Option<Machine>
  {
    var p := Prepared(m);
    if p.None? then None
    else
      var (i, d, m1) := p.value;
      Exec(m1, i, d)
  }

  /** Behind an instruction the user may operate the switches, which writes P1. */
  function UserActs(m: Machine): Machine {
    var turned := Turned(m.inputs);
    var m1 := m.(inputs := Coming(m.inputs));
    if turned.None? then m1
    else m1.(board := m.board.(p1 := turned.value), log := m.log.(bus := m.log.bus + [OutP1(turned.value)]))
  }

  function Step(m: Machine): Outcome
  {
    var b := Body(m);
    if b.None? then Stuck
    else Next(UserActs(HandleInterrupts(b.value)), Cycles(Decode(FetchByte(m))))
  }

  /** Intel8049::reset: T and the ROM survive, the ports are driven. */
  function CpuReset(m: Machine): Machine {
    var c := m.cpu;
    var ops := [OutBus(0), PortWrite(1, 255, Current(m.inputs)), P2Full(255)];
    UserActs(m.(cpu := CpuState(false, true, false, false, false,
                       Regs(c.regs.t, 0, 0, 8, 0, 0),
                       false, false, false, false, 0, false, c.rom, Zeros(128)),
       board := RunBus(m.board, ops),
       log := m.log.(bus := m.log.bus + ops)))
  }

  /** ms is a run: every machine steps to the next one. */
  ghost predicate IsRun(ms: seq<Machine>) {
    |ms| > 0 && forall i :: 0 <= i < |ms| - 1 ==> Step(ms[i]).Next? && Step(ms[i]).m == ms[i + 1]
  }
}
