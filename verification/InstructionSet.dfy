/** What every opcode byte does, stated on the registers, flags and cells before and after the instruction. */
module InstructionSet {
  import opened Bits
  import opened Board
  import opened Cpu
  import opened CpuFrames
  import opened MultiByte
  import opened Panel
  import opened Wrappers

  // ----- what the statements are about -----

  function Opcode(m: Machine): byte {
    if m.cpu.regs.pc < |m.cpu.rom| then m.cpu.rom[m.cpu.regs.pc] else 0
  }

  function Ahead(m: Machine, n: nat): word {
    (m.cpu.regs.pc + n) % 65536
  }

  /** The byte behind the opcode. */
  function Second(m: Machine): byte {
    if Ahead(m, 1) < |m.cpu.rom| then m.cpu.rom[Ahead(m, 1)] else 0
  }

  /** Registers are the cells from 0 or, in bank 1, from 24 up. */
  function Cell(m: Machine, r: nat): (k: nat)
    requires r < 8
    ensures k < 32
  {
    if m.cpu.regs.psw / 16 % 2 == 1 then 24 + r else r
  }

  function R(m: Machine, r: nat): byte
    requires r < 8
  {
    m.cpu.ram[Cell(m, r)]
  }

  /** n is the machine after the instruction in m, before an interrupt or the user is looked at. */
  predicate Executes(m: Machine, n: Machine) {
    Body(m) == Some(n)
  }

  function Sum(x: byte, y: byte): byte {
    (x + y) % 256
  }

  /** The opcodes with a second byte. */
  predicate TwoBytes(op: byte) {
    || op in {0x03, 0x13, 0x23, 0x43, 0x53, 0xd3, 0x88, 0x89, 0x8a, 0x98, 0x99, 0x9a, 0xb0, 0xb1}
    || op in {0x16, 0x26, 0x36, 0x46, 0x56, 0x76, 0x86, 0x96, 0xb6, 0xc6, 0xe6, 0xf6}
    || op % 32 in {4, 18, 20} || 0xb8 <= op <= 0xbf || 0xe8 <= op <= 0xef
  }

  /** The opcodes of two cycles: those with two bytes, returns, table and port instructions. */
  predicate TwoCycles(op: byte) {
    || TwoBytes(op) || op in {0x83, 0x93, 0xa3, 0xb3, 0xe3}
    || op in {0x02, 0x08, 0x09, 0x0a, 0x0c, 0x0d, 0x0e, 0x0f, 0x39, 0x3a, 0x3c, 0x3d, 0x3e, 0x3f}
    || op in {0x80, 0x81, 0x90, 0x91} || 0x8c <= op <= 0x8f || 0x9c <= op <= 0x9f
  }

  /** Jumps, calls and returns. */
  predicate Branches(op: byte) {
    || op % 32 in {4, 18, 20} || 0xe8 <= op <= 0xef || op in {0x83, 0x93, 0xb3}
    || op in {0x16, 0x26, 0x36, 0x46, 0x56, 0x76, 0x86, 0x96, 0xb6, 0xc6, 0xe6, 0xf6}
  }

  predicate Undefined(op: byte) {
    op in {0x01, 0x06, 0x0b, 0x22, 0x33, 0x38, 0x3b, 0x63, 0x66, 0x73, 0x82, 0x87, 0x8b, 0x9b, 0xa2, 0xa6, 0xb7,
           0xc0, 0xc1, 0xc2, 0xc3, 0xd6, 0xe0, 0xe1, 0xe2, 0xf3}
  }

  /** A, PSW and the RAM are left like this; the memory bank and F1 stay. */
  predicate Leaves(m: Machine, n: Machine, a: byte, psw: byte, ram: Ram128) {
    && n.cpu.regs.a == a && n.cpu.regs.psw == psw && n.cpu.ram == ram
    && n.cpu.regs.dbf == m.cpu.regs.dbf && n.cpu.regs.f1 == m.cpu.regs.f1
  }

  /** Only A changes. */
  predicate LeavesA(m: Machine, n: Machine, a: byte) {
    Leaves(m, n, a, m.cpu.regs.psw, m.cpu.ram)
  }

  /** Only one cell changes. */
  predicate LeavesCell(m: Machine, n: Machine, k: nat, v: byte)
    requires k < 128
  {
    Leaves(m, n, m.cpu.regs.a, m.cpu.regs.psw, m.cpu.ram[k := v])
  }

  // ----- decoding -----

  function SourceOf(op: byte): (s: Source)
    ensures s.Immediate? || s.r < 8
  {
    if op % 16 >= 8 then Reg(op % 16 - 8) else if op % 16 < 2 then At(op % 16, op / 16 != 6) else Immediate
  }

  lemma DecodeAdd(op: byte)
    requires op in {0x03, 0x60, 0x61} || 0x68 <= op <= 0x6f
    ensures Decode(op) == Data(Alu(ADD, SourceOf(op)))
  {
  }

  lemma DecodeAddc(op: byte)
    requires op in {0x13, 0x70, 0x71} || 0x78 <= op <= 0x7f
    ensures Decode(op) == Data(Alu(ADDC, SourceOf(op)))
  {
  }

  lemma DecodeOrl(op: byte)
    requires op in {0x40, 0x41, 0x43} || 0x48 <= op <= 0x4f
    ensures Decode(op) == Data(Alu(ORL, SourceOf(op)))
  {
  }

  lemma DecodeAnl(op: byte)
    requires op in {0x50, 0x51, 0x53} || 0x58 <= op <= 0x5f
    ensures Decode(op) == Data(Alu(ANL, SourceOf(op)))
  {
  }

  lemma DecodeXrl(op: byte)
    requires op in {0xd0, 0xd1, 0xd3} || 0xd8 <= op <= 0xdf
    ensures Decode(op) == Data(Alu(XRL, SourceOf(op)))
  {
  }

  lemma DecodeMov(op: byte)
    requires op in {0x23, 0xf0, 0xf1} || 0xf8 <= op <= 0xff
    ensures Decode(op) == Data(Alu(MOV, SourceOf(op)))
  {
  }

  // ----- from the step to its effect -----

  /** The processor the effect starts from, its bytes fetched and its cycles ticked. */
  predicate Fetched(m: Machine, c: CpuState, length: nat) {
    && c.regs == m.cpu.regs.(t := c.regs.t, pc := c.regs.pc) && c.regs.pc == Ahead(m, length)
    && c.ram == m.cpu.ram && c.rom == m.cpu.rom && c.inInterrupt == m.cpu.inInterrupt && c.notInt == m.cpu.notInt
    && c.t0 == m.cpu.t0 && c.t1 == m.cpu.t1
    && c.extEnabled == m.cpu.extEnabled && c.tcntEnabled == m.cpu.tcntEnabled
    && c.timerRunning == m.cpu.timerRunning && c.counterRunning == m.cpu.counterRunning
  }

  lemma CountPins(m: Machine)
    ensures var c, m' := m.cpu, IncCounter(m);
            && m'.cpu.t0 == c.t0 && m'.cpu.t1 == c.t1
            && m'.cpu.tf == (c.tf || m'.log.overflows > m.log.overflows) && m'.log.overflows >= m.log.overflows
  {
    hide Inc;
  }

  lemma TickPins(m: Machine)
    ensures var c, m' := m.cpu, Tick(m);
            && m'.cpu.t0 == c.t0 && m'.cpu.t1 == c.t1
            && m'.cpu.tf == (c.tf || m'.log.overflows > m.log.overflows) && m'.log.overflows >= m.log.overflows
  {
    hide Dec, IncCounter;
    CountPins(m.(log := m.log.(ticks := m.log.ticks + 1), cpu := m.cpu.(countdown := 32)));
  }

  lemma Ready(m: Machine) returns (p: Machine, d: byte)
    requires Cpu.Prepared(m).Some?
    ensures CanFetch(m) && FetchByte(m) == Opcode(m) && ValidInstr(Decode(Opcode(m)))
    ensures Fetched(m, p.cpu, Length(Decode(Opcode(m)))) && p.board == m.board && p.inputs == m.inputs
    ensures p.log.bus == m.log.bus
    ensures HasOperand(Decode(Opcode(m))) ==> d == Second(m)
    ensures Body(m) == Exec(p, Decode(Opcode(m)), d)
    ensures p.cpu.tf == (m.cpu.tf || p.log.overflows > m.log.overflows)
  {
    hide Tick, Decode, Exec, ValidInstr, HandleInterrupts, UserActs;
    PreparedFrame(m);
    var i := Decode(FetchByte(m));
    TickPins(Advance(m));
    TickFrame(Advance(m));
    var m1 := Tick(Advance(m));
    TickPins(m1);
    TickPins(Advance(m1));
    p, d := Prepared(m).value.2, Prepared(m).value.1;
  }

  lemma Begin(m: Machine, n: Machine) returns (p: Machine, d: byte)
    requires Executes(m, n)
    ensures CanFetch(m) && FetchByte(m) == Opcode(m) && ValidInstr(Decode(Opcode(m)))
    ensures Fetched(m, p.cpu, Length(Decode(Opcode(m)))) && p.board == m.board && p.inputs == m.inputs
    ensures p.log.bus == m.log.bus
    ensures HasOperand(Decode(Opcode(m))) ==> d == Second(m)
    ensures Exec(p, Decode(Opcode(m)), d) == Some(n)
    ensures p.cpu.tf == (m.cpu.tf || p.log.overflows > m.log.overflows)
  {
    hide Tick, Decode, Exec, ValidInstr, Prepared, Fetched, Length, Opcode, Second, HasOperand;
    p, d := Ready(m);
  }

  function Length(i: Instr): (n: nat) {
    if HasOperand(i) then 2 else 1
  }

  /** The byte that ADD, ADDC, ORL, ANL, XRL and MOV combine with A: a register, the cell a register points at, or the
      second byte. */
  function SourceByte(m: Machine): byte {
    var low := Opcode(m) % 16;
    if low >= 8 then R(m, low - 8) else if low < 2 then m.cpu.ram[R(m, low) % 128] else Second(m)
  }

  lemma CellIs(m: Machine, c: CpuState, r: nat, length: nat)
    requires Fetched(m, c, length) && r < 8
    ensures RegAddr(c.regs.psw, r) == Cell(m, r) && ReadReg(c, r) == R(m, r)
  {
  }

  lemma SourceIs(m: Machine, c: CpuState, d: byte, length: nat)
    requires Fetched(m, c, length) && (SourceOf(Opcode(m)).Immediate? ==> d == Second(m))
    requires OperandOf(c, SourceOf(Opcode(m)), d).Some?
    ensures OperandOf(c, SourceOf(Opcode(m)), d).value == SourceByte(m)
  {
    hide Opcode, Second, Fetched, Cell, RegAddr;
    var low := Opcode(m) % 16;
    if low >= 8 {
      CellIs(m, c, low - 8, length);
    } else if low < 2 {
      CellIs(m, c, low, length);
      FetchedRam(m, c, length);
    }
  }

  lemma FetchedRam(m: Machine, c: CpuState, length: nat)
    requires Fetched(m, c, length)
    ensures c.ram == m.cpu.ram && c.rom == m.cpu.rom && c.regs.pc == Ahead(m, length)
    ensures c.regs.a == m.cpu.regs.a && c.regs.psw == m.cpu.regs.psw && c.regs.dbf == m.cpu.regs.dbf && c.regs.f1 == m.cpu.regs.f1
  {
  }

  lemma DataRuns(m: Machine, n: Machine, x: DataInstr) returns (c: CpuState, d: byte)
    requires Executes(m, n) && Decode(Opcode(m)) == Data(x)
    ensures ValidData(x) && Fetched(m, c, Length(Data(x))) && (HasOperand(Data(x)) ==> d == Second(m))
    ensures ExecData(c, x, d).Some? && n.cpu == WithUpdate(c, ExecData(c, x, d).value)
    ensures n.board == m.board && n.inputs == m.inputs && n.log.bus == m.log.bus
  {
    hide Executes, Opcode, Second, Decode, ExecData, WithUpdate, Fetched, HasOperand;
    var p;
    p, d := Begin(m, n);
    ExecDataIs(p, x, d);
    c := p.cpu;
  }

  lemma AluRuns(m: Machine, n: Machine, op: AluOp) returns (c: CpuState)
    requires Executes(m, n) && Decode(Opcode(m)) == Data(Alu(op, SourceOf(Opcode(m))))
    ensures Fetched(m, c, Length(Data(Alu(op, SourceOf(Opcode(m)))))) && n.cpu == WithUpdate(c, ExecAlu(c, op, SourceByte(m)))
  {
    hide Executes, Opcode, Second, Decode, WithUpdate, Fetched, ExecAlu, SourceByte, OperandOf;
    var src := SourceOf(Opcode(m));
    var d;
    c, d := DataRuns(m, n, Alu(op, src));
    SourceIs(m, c, d, Length(Data(Alu(op, src))));
  }

  // ----- arithmetic and logic -----

  /** MOV A,source. */
  lemma MovSource(m: Machine, n: Machine)
    requires Executes(m, n) && (Opcode(m) in {0x23, 0xf0, 0xf1} || 0xf8 <= Opcode(m) <= 0xff)
    ensures LeavesA(m, n, SourceByte(m))
  {
    hide Executes, Opcode, SourceByte;
    DecodeMov(Opcode(m));
    hide Decode, SourceOf;
    var c := AluRuns(m, n, MOV);
  }

  /** ORL A,source: a bit is 1 when it is 1 in A or in the source. */
  lemma OrSource(m: Machine, n: Machine)
    requires Executes(m, n) && (Opcode(m) in {0x40, 0x41, 0x43} || 0x48 <= Opcode(m) <= 0x4f)
    ensures LeavesA(m, n, n.cpu.regs.a)
    ensures forall k :: 0 <= k < 8 ==>
              (Bit(n.cpu.regs.a, k) == 1 <==> Bit(m.cpu.regs.a, k) == 1 || Bit(SourceByte(m), k) == 1)
  {
    hide Executes, Opcode, SourceByte;
    DecodeOrl(Opcode(m));
    hide Decode, SourceOf, Or, Bit;
    var c := AluRuns(m, n, ORL);
    OrBits(m.cpu.regs.a, SourceByte(m));
  }

  /** ANL A,source: a bit is 1 when it is 1 in A and in the source. */
  lemma AndSource(m: Machine, n: Machine)
    requires Executes(m, n) && (Opcode(m) in {0x50, 0x51, 0x53} || 0x58 <= Opcode(m) <= 0x5f)
    ensures LeavesA(m, n, n.cpu.regs.a)
    ensures forall k :: 0 <= k < 8 ==>
              (Bit(n.cpu.regs.a, k) == 1 <==> Bit(m.cpu.regs.a, k) == 1 && Bit(SourceByte(m), k) == 1)
  {
    hide Executes, Opcode, SourceByte;
    DecodeAnl(Opcode(m));
    hide Decode, SourceOf, And, Bit;
    var c := AluRuns(m, n, ANL);
    AndBits(m.cpu.regs.a, SourceByte(m));
  }

  /** XRL A,source: a bit is 1 when A and the source differ in it. */
  lemma XorSource(m: Machine, n: Machine)
    requires Executes(m, n) && (Opcode(m) in {0xd0, 0xd1, 0xd3} || 0xd8 <= Opcode(m) <= 0xdf)
    ensures LeavesA(m, n, n.cpu.regs.a)
    ensures forall k :: 0 <= k < 8 ==>
              (Bit(n.cpu.regs.a, k) == 1 <==> Bit(m.cpu.regs.a, k) != Bit(SourceByte(m), k))
  {
    hide Executes, Opcode, SourceByte;
    DecodeXrl(Opcode(m));
    hide Decode, SourceOf, Xor, Bit;
    var c := AluRuns(m, n, XRL);
    XorBits(m.cpu.regs.a, SourceByte(m));
  }

  /** The carry that ADDC adds. */
  function CarryIn(m: Machine): nat {
    if Opcode(m) in {0x13, 0x70, 0x71} || 0x78 <= Opcode(m) <= 0x7f then m.cpu.regs.psw / 128 else 0
  }

  /** ADD and ADDC: A and CY hold the sum, AC is the carry out of bit 3, the rest of the PSW stays. */
  lemma AddSource(m: Machine, n: Machine)
    requires Executes(m, n)
    requires Opcode(m) in {0x03, 0x60, 0x61, 0x13, 0x70, 0x71} || 0x68 <= Opcode(m) <= 0x6f || 0x78 <= Opcode(m) <= 0x7f
    ensures Leaves(m, n, n.cpu.regs.a, n.cpu.regs.psw, m.cpu.ram)
    ensures n.cpu.regs.a + 256 * (n.cpu.regs.psw / 128) == m.cpu.regs.a + SourceByte(m) + CarryIn(m)
    ensures n.cpu.regs.psw / 64 % 2 == 1 <==> m.cpu.regs.a % 16 + SourceByte(m) % 16 + CarryIn(m) >= 16
    ensures n.cpu.regs.psw % 64 == m.cpu.regs.psw % 64
  {
    hide Executes, SourceByte;
    var op, c := Opcode(m), CarryIn(m);
    if op in {0x03, 0x60, 0x61} || 0x68 <= op <= 0x6f {
      DecodeAdd(op);
      hide Decode, SourceOf, AddToAcc, Opcode, CarryIn;
      var s := AluRuns(m, n, ADD);
      Added(m, s, n, SourceByte(m), 0);
    } else {
      DecodeAddc(op);
      hide Decode, SourceOf, AddToAcc, Opcode, CarryIn;
      var s := AluRuns(m, n, ADDC);
      Added(m, s, n, SourceByte(m), m.cpu.regs.psw / 128);
    }
  }

  lemma Added(m: Machine, c: CpuState, n: Machine, v: byte, carry: nat)
    requires carry <= 1 && c.regs.a == m.cpu.regs.a && c.regs.psw == m.cpu.regs.psw
    requires n.cpu.regs.a == AddToAcc(c.regs, v, carry).a && n.cpu.regs.psw == AddToAcc(c.regs, v, carry).psw
    ensures n.cpu.regs.a + 256 * (n.cpu.regs.psw / 128) == m.cpu.regs.a + v + carry
    ensures n.cpu.regs.psw / 64 % 2 == 1 <==> m.cpu.regs.a % 16 + v % 16 + carry >= 16
    ensures n.cpu.regs.psw % 64 == m.cpu.regs.psw % 64
  {
    hide AddToAcc;
    AddToAccExact(c.regs, v, carry);
  }

  lemma OrBits(x: byte, y: byte)
    ensures forall k :: 0 <= k < 8 ==> (Bit(Or(x, y), k) == 1 <==> Bit(x, k) == 1 || Bit(y, k) == 1)
  {
    forall k | 0 <= k < 8 ensures Bit(Or(x, y), k) == 1 <==> Bit(x, k) == 1 || Bit(y, k) == 1 {
      BitOfBitwise(OrOp, x, y, 8, k);
    }
  }

  lemma AndBits(x: byte, y: byte)
    ensures forall k :: 0 <= k < 8 ==> (Bit(And(x, y), k) == 1 <==> Bit(x, k) == 1 && Bit(y, k) == 1)
  {
    forall k | 0 <= k < 8 ensures Bit(And(x, y), k) == 1 <==> Bit(x, k) == 1 && Bit(y, k) == 1 {
      BitOfBitwise(AndOp, x, y, 8, k);
    }
  }

  lemma XorBits(x: byte, y: byte)
    ensures forall k :: 0 <= k < 8 ==> (Bit(Xor(x, y), k) == 1 <==> Bit(x, k) != Bit(y, k))
  {
    forall k | 0 <= k < 8 ensures Bit(Xor(x, y), k) == 1 <==> Bit(x, k) != Bit(y, k) {
      BitOfBitwise(XorOp, x, y, 8, k);
    }
  }

  // ----- A and the flags -----

  lemma Column7(op: byte)
    requires op % 16 == 7
    ensures Decode(op) == AccumulatorColumn(op / 16)
  {
    hide AccumulatorColumn;
  }

  lemma UnaryRuns(m: Machine, n: Machine, u: UnaryOp) returns (c: CpuState)
    requires Executes(m, n) && Decode(Opcode(m)) == Data(Unary(u))
    ensures c.regs.a == m.cpu.regs.a && c.regs.psw == m.cpu.regs.psw && c.regs.t == n.cpu.regs.t
    ensures Leaves(m, n, ExecUnary(c, u).a, ExecUnary(c, u).psw, m.cpu.ram)
  {
    hide Executes, Opcode, Second, Decode, ExecUnary;
    var d;
    c, d := DataRuns(m, n, Unary(u));
    FetchedRam(m, c, 1);
    UnaryKeeps(c, u);
    hide Fetched;
  }

  lemma UnaryKeeps(c: CpuState, u: UnaryOp)
    ensures var r := ExecUnary(c, u); r.ram == c.ram && r.dbf == c.regs.dbf && r.f1 == c.regs.f1
  {
    hide DecimalAdjust, Inc, Dec, Not, Swapped, ShiftedLeft, ShiftedRight, SetCarry, Carry;
  }

  /** DEC A, INC A, CLR A and CPL A. */
  lemma Counting(m: Machine, n: Machine)
    requires Executes(m, n)
    ensures Opcode(m) == 0x07 ==> LeavesA(m, n, (m.cpu.regs.a + 255) % 256)
    ensures Opcode(m) == 0x17 ==> LeavesA(m, n, (m.cpu.regs.a + 1) % 256)
    ensures Opcode(m) == 0x27 ==> LeavesA(m, n, 0)
    ensures Opcode(m) == 0x37 ==> LeavesA(m, n, 255 - m.cpu.regs.a)
  {
    hide Executes, Opcode, Decode, Leaves;
    if Opcode(m) in {0x07, 0x17, 0x27, 0x37} {
      Column7(Opcode(m));
      var c := UnaryRuns(m, n, AccumulatorColumn(Opcode(m) / 16).d.u);
    }
  }

  /** SWAP A exchanges the nibbles; MOV A,T and MOV A,PSW. */
  lemma Moving(m: Machine, n: Machine)
    requires Executes(m, n)
    ensures Opcode(m) == 0x47 ==> LeavesA(m, n, n.cpu.regs.a)
                                  && n.cpu.regs.a % 16 == m.cpu.regs.a / 16 && n.cpu.regs.a / 16 == m.cpu.regs.a % 16
    ensures Opcode(m) == 0x42 ==> LeavesA(m, n, n.cpu.regs.t)
    ensures Opcode(m) == 0xc7 ==> LeavesA(m, n, m.cpu.regs.psw)
  {
    hide Executes, Opcode, Swapped;
    if Opcode(m) == 0x47 {
      Column7(0x47);
      hide Decode;
      var c := UnaryRuns(m, n, SWAP);
      NibblesSwap(m.cpu.regs.a);
    } else if Opcode(m) == 0x42 {
      assert Decode(0x42) == Data(Unary(MovAT));
      hide Decode;
      var c := UnaryRuns(m, n, MovAT);
    } else if Opcode(m) == 0xc7 {
      Column7(0xc7);
      hide Decode;
      var c := UnaryRuns(m, n, MovAPsw);
    }
  }

  lemma NibblesSwap(a: byte)
    ensures Swapped(a) % 16 == a / 16 && Swapped(a) / 16 == a % 16
  {
  }

  /** RL A and RR A turn the eight bits of A in a circle. */
  lemma Turning(m: Machine, n: Machine)
    requires Executes(m, n)
    ensures Opcode(m) == 0xe7 ==> LeavesA(m, n, n.cpu.regs.a) && n.cpu.regs.a == 2 * m.cpu.regs.a % 256 + m.cpu.regs.a / 128
    ensures Opcode(m) == 0x77 ==> LeavesA(m, n, n.cpu.regs.a) && m.cpu.regs.a == 2 * n.cpu.regs.a % 256 + n.cpu.regs.a / 128
  {
    hide Executes, Opcode, Decode, ShiftedLeft, ShiftedRight;
    if Opcode(m) == 0xe7 {
      Column7(0xe7);
      var c := UnaryRuns(m, n, RL);
      TurnedLeft(m.cpu.regs.a);
    } else if Opcode(m) == 0x77 {
      Column7(0x77);
      var c := UnaryRuns(m, n, RR);
      TurnedRight(m.cpu.regs.a);
    }
  }

  /** RLC A and RRC A turn the nine bits of CY and A. */
  lemma TurningThroughCarry(m: Machine, n: Machine)
    requires Executes(m, n) && Opcode(m) in {0xf7, 0x67}
    ensures Leaves(m, n, n.cpu.regs.a, n.cpu.regs.psw, m.cpu.ram) && n.cpu.regs.psw % 128 == m.cpu.regs.psw % 128
    ensures Opcode(m) == 0xf7 ==>
              256 * (n.cpu.regs.psw / 128) + n.cpu.regs.a == 2 * m.cpu.regs.a + m.cpu.regs.psw / 128
    ensures Opcode(m) == 0x67 ==>
              2 * n.cpu.regs.a + n.cpu.regs.psw / 128 == m.cpu.regs.a + 256 * (m.cpu.regs.psw / 128)
  {
    hide Executes, Opcode, Decode, ShiftedLeft, ShiftedRight, SetCarry, Carry;
    if Opcode(m) == 0xf7 {
      Column7(0xf7);
      var c := UnaryRuns(m, n, RLC);
      LeftThroughCarry(m.cpu.regs.a, m.cpu.regs.psw);
    } else {
      Column7(0x67);
      var c := UnaryRuns(m, n, RRC);
      RightThroughCarry(m.cpu.regs.a, m.cpu.regs.psw);
    }
  }

  lemma TurnedLeft(a: byte)
    ensures ShiftedLeft(a, a >= 128) == 2 * a % 256 + a / 128
  {
  }

  lemma TurnedRight(a: byte)
    ensures var b := ShiftedRight(a, a % 2 == 1); a == 2 * b % 256 + b / 128
  {
  }

  lemma LeftThroughCarry(a: byte, psw: byte)
    ensures 256 * (SetCarry(psw, a >= 128) / 128) + ShiftedLeft(a, Carry(psw) > 0) == 2 * a + psw / 128
    ensures SetCarry(psw, a >= 128) % 128 == psw % 128
  {
  }

  lemma RightThroughCarry(a: byte, psw: byte)
    ensures 2 * ShiftedRight(a, Carry(psw) > 0) + SetCarry(psw, a % 2 == 1) / 128 == a + 256 * (psw / 128)
    ensures SetCarry(psw, a % 2 == 1) % 128 == psw % 128
  {
  }

  /** DA A: 6 is added to the low digit when it exceeds 9 or AC is set, with its carry into the high digit; then 6 to the
      high digit when that exceeds 9 or CY is set. CY is the carry of the second addition alone. */
  lemma Adjusting(m: Machine, n: Machine)
    requires Executes(m, n) && Opcode(m) == 0x57
    ensures var a, psw := m.cpu.regs.a, m.cpu.regs.psw;
            var first := (a + if a % 16 >= 10 || psw / 64 % 2 == 1 then 6 else 0) % 256;
            var second := first + if first / 16 >= 10 || psw / 128 == 1 then 96 else 0;
            && Leaves(m, n, second % 256, n.cpu.regs.psw, m.cpu.ram)
            && n.cpu.regs.psw / 128 == second / 256 && n.cpu.regs.psw % 128 == psw % 128
  {
    hide Executes, Opcode, Decode, DecimalAdjust;
    Column7(0x57);
    var c := UnaryRuns(m, n, DA);
    AdjustedIs(c.regs);
  }

  lemma AdjustedIs(g: Regs)
    ensures var first := (g.a + if g.a % 16 >= 10 || g.psw / 64 % 2 == 1 then 6 else 0) % 256;
            var second := first + if first / 16 >= 10 || g.psw / 128 == 1 then 96 else 0;
            var r := DecimalAdjust(g);
            r.a == second % 256 && r.psw / 128 == second / 256 && r.psw % 128 == g.psw % 128
  {
    var first := (g.a + if g.a % 16 >= 10 || g.psw / 64 % 2 == 1 then 6 else 0) % 256;
    var up := if first / 16 >= 10 || g.psw / 128 == 1 then 6 else 0;
    HighDigit(first / 16, first % 16, up);
    CarrySet(g.psw, first / 16 + up > 15);
    hide SetCarry;
  }

  lemma HighDigit(h: nat, l: nat, up: nat)
    requires h < 16 && l < 16 && up <= 6
    ensures (16 * h + l + 16 * up) % 256 == (h + up) % 16 * 16 + l
    ensures (16 * h + l + 16 * up) / 256 == if h + up > 15 then 1 else 0
  {
  }

  lemma CarrySet(psw: byte, c: bool)
    ensures SetCarry(psw, c) / 128 == (if c then 1 else 0) && SetCarry(psw, c) % 128 == psw % 128
  {
  }

  lemma Column5(op: byte)
    requires op % 16 == 5
    ensures Decode(op) == ControlColumn(op / 16)
  {
    hide ControlColumn;
  }

  lemma FlagRuns(m: Machine, n: Machine, f: FlagOp) returns (c: CpuState)
    requires Executes(m, n) && Decode(Opcode(m)) == Data(Flag(f))
    ensures c.regs.a == m.cpu.regs.a && c.regs.psw == m.cpu.regs.psw && c.regs.f1 == m.cpu.regs.f1 && c.regs.dbf == m.cpu.regs.dbf
    ensures var u := ExecFlag(c, f);
            && n.cpu.regs.a == u.a && n.cpu.regs.psw == u.psw && n.cpu.ram == m.cpu.ram
            && n.cpu.regs.dbf == u.dbf && n.cpu.regs.f1 == u.f1
  {
    hide Executes, Opcode, Second, Decode, ExecFlag;
    var d;
    c, d := DataRuns(m, n, Flag(f));
    FetchedRam(m, c, 1);
    FlagKeepsRam(c, f);
    hide Fetched;
  }

  lemma FlagKeepsRam(c: CpuState, f: FlagOp)
    ensures ExecFlag(c, f).ram == c.ram
  {
    hide SetF0, SetCarry, SetBank, F0, Carry;
  }

  /** Only the PSW changes. */
  predicate LeavesPsw(m: Machine, n: Machine, psw: byte) {
    Leaves(m, n, m.cpu.regs.a, psw, m.cpu.ram)
  }

  /** CLR C, CPL C: bit 7 of the PSW. CLR F0, CPL F0: bit 5. SEL RB0, SEL RB1: bit 4. The other bits stay. */
  lemma SettingPsw(m: Machine, n: Machine)
    requires Executes(m, n) && Opcode(m) in {0x97, 0xa7, 0x85, 0x95, 0xc5, 0xd5}
    ensures var op, psw, psw' := Opcode(m), m.cpu.regs.psw, n.cpu.regs.psw;
            && LeavesPsw(m, n, psw')
            && (op == 0x97 ==> psw' % 128 == psw % 128 && psw' / 128 == 0)
            && (op == 0xa7 ==> psw' % 128 == psw % 128 && psw' / 128 == 1 - psw / 128)
            && (op == 0x85 ==> psw' / 64 == psw / 64 && psw' % 32 == psw % 32 && psw' / 32 % 2 == 0)
            && (op == 0x95 ==> psw' / 64 == psw / 64 && psw' % 32 == psw % 32 && psw' / 32 % 2 == 1 - psw / 32 % 2)
            && (op == 0xc5 ==> psw' / 32 == psw / 32 && psw' % 16 == psw % 16 && psw' / 16 % 2 == 0)
            && (op == 0xd5 ==> psw' / 32 == psw / 32 && psw' % 16 == psw % 16 && psw' / 16 % 2 == 1)
  {
    hide Executes, Opcode, Decode, SetF0, SetCarry, SetBank;
    var op, psw := Opcode(m), m.cpu.regs.psw;
    if op in {0x97, 0xa7} {
      Column7(op);
      var c := FlagRuns(m, n, AccumulatorColumn(op / 16).d.f);
      CarrySet(psw, op == 0xa7 && psw / 128 == 0);
    } else if op in {0x85, 0x95} {
      Column5(op);
      var c := FlagRuns(m, n, ControlColumn(op / 16).d.f);
      F0Set(psw, op == 0x95 && psw / 32 % 2 == 0);
    } else {
      Column5(op);
      var c := FlagRuns(m, n, ControlColumn(op / 16).d.f);
      BankSet(psw, op == 0xd5);
    }
  }

  lemma F0Set(psw: byte, c: bool)
    ensures var q := SetF0(psw, c);
            q / 64 == psw / 64 && q % 32 == psw % 32 && q / 32 % 2 == if c then 1 else 0
  {
  }

  lemma BankSet(psw: byte, c: bool)
    ensures var q := SetBank(psw, c);
            q / 32 == psw / 32 && q % 16 == psw % 16 && q / 16 % 2 == if c then 1 else 0
  {
  }

  /** CLR F1, CPL F1, SEL MB0, SEL MB1 and MOV PSW,A. */
  lemma SettingOthers(m: Machine, n: Machine)
    requires Executes(m, n) && Opcode(m) in {0xa5, 0xb5, 0xe5, 0xf5, 0xd7}
    ensures var op, g, g' := Opcode(m), m.cpu.regs, n.cpu.regs;
            && g'.a == g.a && n.cpu.ram == m.cpu.ram
            && g'.psw == (if op == 0xd7 then g.a else g.psw)
            && g'.f1 == (if op == 0xa5 then 0 else if op == 0xb5 then (257 - g.f1) % 256 else g.f1)
            && g'.dbf == (if op == 0xe5 then 0 else if op == 0xf5 then 1 else g.dbf)
  {
    hide Executes, Opcode, Decode;
    var op := Opcode(m);
    if op == 0xd7 {
      Column7(op);
      var c := FlagRuns(m, n, MovPswA);
    } else {
      Column5(op);
      var c := FlagRuns(m, n, ControlColumn(op / 16).d.f);
    }
  }

  // ----- registers and cells -----

  lemma RegisterRow(op: byte)
    requires op % 16 >= 8 && op / 16 in {1, 2, 10, 11, 12, 14}
    ensures Decode(op) == RegisterForm(op / 16, op % 16 - 8)
  {
    hide RegisterForm, IndirectForm, ImmediateColumn, ControlColumn, JumpColumn, AccumulatorColumn;
  }

  lemma IndirectRow(op: byte)
    requires op % 16 < 2 && op / 16 in {1, 2, 3, 8, 9, 10, 11}
    ensures Decode(op) == IndirectForm(op / 16, op % 16)
  {
    hide RegisterForm, IndirectForm, ImmediateColumn, ControlColumn, JumpColumn, AccumulatorColumn;
  }

  lemma CellRuns(m: Machine, n: Machine, x: DataInstr, r: nat) returns (c: CpuState, d: byte, u: Update)
    requires Executes(m, n) && Decode(Opcode(m)) == Data(x) && r < 8
    ensures c.regs.a == m.cpu.regs.a && c.regs.psw == m.cpu.regs.psw && c.ram == m.cpu.ram
    ensures c.regs.dbf == m.cpu.regs.dbf && c.regs.f1 == m.cpu.regs.f1
    ensures RegAddr(c.regs.psw, r) == Cell(m, r) && ReadReg(c, r) == R(m, r)
    ensures ValidData(x) && ExecData(c, x, d) == Some(u) && (HasOperand(Data(x)) ==> d == Second(m))
    ensures n.cpu.regs.a == u.a && n.cpu.regs.psw == u.psw && n.cpu.ram == u.ram
    ensures n.cpu.regs.dbf == u.dbf && n.cpu.regs.f1 == u.f1
  {
    hide Executes, Opcode, Second, Decode, ExecData, HasOperand, Cell, RegAddr;
    c, d := DataRuns(m, n, x);
    FetchedRam(m, c, Length(Data(x)));
    CellIs(m, c, r, Length(Data(x)));
    u := ExecData(c, x, d).value;
    hide Fetched;
  }

  /** INC Rr and DEC Rr: one cell of the selected bank changes. */
  lemma CountingRegister(m: Machine, n: Machine)
    requires Executes(m, n) && (0x18 <= Opcode(m) <= 0x1f || 0xc8 <= Opcode(m) <= 0xcf)
    ensures var r := Opcode(m) % 8;
            LeavesCell(m, n, Cell(m, r), Sum(R(m, r), if Opcode(m) < 0x20 then 1 else 255))
  {
    hide Executes, Opcode, Second, Decode, Cell, R, RegAddr, ReadReg;
    var op := Opcode(m);
    RegisterRow(op);
    var c, d, u := CellRuns(m, n, if op < 0x20 then IncReg(op % 8) else DecReg(op % 8), op % 8);
  }

  /** MOV Rr,A and MOV Rr,#data. */
  lemma LoadingRegister(m: Machine, n: Machine)
    requires Executes(m, n) && (0xa8 <= Opcode(m) <= 0xaf || 0xb8 <= Opcode(m) <= 0xbf)
    ensures LeavesCell(m, n, Cell(m, Opcode(m) % 8), if Opcode(m) < 0xb0 then m.cpu.regs.a else Second(m))
  {
    hide Executes, Opcode, Second, Decode, Cell, R, RegAddr, ReadReg;
    var op := Opcode(m);
    RegisterRow(op);
    var c, d, u := CellRuns(m, n, if op < 0xb0 then MovRegA(op % 8) else MovRegData(op % 8), op % 8);
  }

  /** XCH A,Rr exchanges A and a register. */
  lemma ExchangingRegister(m: Machine, n: Machine)
    requires Executes(m, n) && 0x28 <= Opcode(m) <= 0x2f
    ensures var r := Opcode(m) % 8; Leaves(m, n, R(m, r), m.cpu.regs.psw, m.cpu.ram[Cell(m, r) := m.cpu.regs.a])
  {
    hide Executes, Opcode, Second, Decode, Cell, R, RegAddr, ReadReg;
    var op := Opcode(m);
    RegisterRow(op);
    var c, d, u := CellRuns(m, n, XchReg(op % 8), op % 8);
  }

  /** The cell that register 0 or 1 points at. */
  function Target(m: Machine): (k: nat)
    ensures k < 128
  {
    R(m, Opcode(m) % 2) % 128
  }

  /** The high nibble of one byte with the low one of another. */
  function Joined(high: byte, low: byte): byte {
    high / 16 * 16 + low % 16
  }

  /** INC @Rr. */
  lemma CountingCell(m: Machine, n: Machine)
    requires Executes(m, n) && Opcode(m) in {0x10, 0x11}
    ensures LeavesCell(m, n, Target(m), Sum(m.cpu.ram[Target(m)], 1))
  {
    hide Executes, Opcode, Second, Decode, Cell, R, RegAddr, ReadReg;
    IndirectRow(Opcode(m));
    var c, d, u := CellRuns(m, n, IncAt(Opcode(m) % 2), Opcode(m) % 2);
  }

  /** MOV @Rr,A. */
  lemma StoringA(m: Machine, n: Machine)
    requires Executes(m, n) && Opcode(m) in {0xa0, 0xa1}
    ensures LeavesCell(m, n, Target(m), m.cpu.regs.a)
  {
    hide Executes, Opcode, Second, Decode, Cell, R, RegAddr, ReadReg;
    IndirectRow(Opcode(m));
    var c, d, u := CellRuns(m, n, MovAtA(Opcode(m) % 2), Opcode(m) % 2);
  }

  /** MOV @Rr,#data, which does not mask the register. */
  lemma StoringData(m: Machine, n: Machine)
    requires Executes(m, n) && Opcode(m) in {0xb0, 0xb1}
    ensures R(m, Opcode(m) % 2) < 128 && LeavesCell(m, n, Target(m), Second(m))
  {
    hide Executes, Opcode, Second, Decode, Cell, R, RegAddr, ReadReg;
    IndirectRow(Opcode(m));
    var c, d, u := CellRuns(m, n, MovAtData(Opcode(m) % 2), Opcode(m) % 2);
  }

  /** XCH A,@Rr exchanges A and the cell, and does not mask the register either. */
  lemma ExchangingCell(m: Machine, n: Machine)
    requires Executes(m, n) && Opcode(m) in {0x20, 0x21}
    ensures R(m, Opcode(m) % 2) < 128
    ensures Leaves(m, n, m.cpu.ram[Target(m)], m.cpu.regs.psw, m.cpu.ram[Target(m) := m.cpu.regs.a])
  {
    hide Executes, Opcode, Second, Decode, Cell, R, RegAddr, ReadReg;
    IndirectRow(Opcode(m));
    var c, d, u := CellRuns(m, n, XchAt(Opcode(m) % 2), Opcode(m) % 2);
  }

  /** XCHD A,@Rr exchanges the low nibbles. */
  lemma ExchangingNibble(m: Machine, n: Machine)
    requires Executes(m, n) && Opcode(m) in {0x30, 0x31}
    ensures var a, v := m.cpu.regs.a, m.cpu.ram[Target(m)];
            Leaves(m, n, Joined(a, v), m.cpu.regs.psw, m.cpu.ram[Target(m) := Joined(v, a)])
  {
    hide Executes, Opcode, Second, Decode, Cell, R, RegAddr, ReadReg, ExecData;
    IndirectRow(Opcode(m));
    var c, d, u := CellRuns(m, n, XchdAt(Opcode(m) % 2), Opcode(m) % 2);
    XchdIs(c, Opcode(m) % 2, d);
    hide Joined;
  }

  lemma XchdIs(c: CpuState, r: nat, d: byte)
    requires r < 8
    ensures var k, a := ReadReg(c, r) % 128, c.regs.a;
            ExecData(c, XchdAt(r), d)
              == Some(Same(c).(a := Joined(a, c.ram[k]), ram := c.ram[k := Joined(c.ram[k], a)]))
  {
    hide ReadReg;
  }

  /** Where MOVP A,@A reads: the page of the next instruction; and MOVP3 A,@A: page 3. */
  function TableAddress(m: Machine): nat {
    var page: int := if Opcode(m) == 0xa3 then Ahead(m, 1) % 4096 / 256 else 3;
    256 * page + m.cpu.regs.a
  }

  lemma Column3(op: byte)
    requires op % 16 == 3
    ensures Decode(op) == ImmediateColumn(op / 16)
  {
    hide ImmediateColumn;
  }

  lemma ReadingRom(m: Machine, n: Machine)
    requires Executes(m, n) && Opcode(m) in {0xa3, 0xe3}
    ensures TableAddress(m) < |m.cpu.rom| && LeavesA(m, n, m.cpu.rom[TableAddress(m)])
  {
    hide Executes, Opcode, Second, Decode, Ahead;
    Column3(Opcode(m));
    var x := if Opcode(m) == 0xa3 then Movp else Movp3;
    var c, d := DataRuns(m, n, x);
    FetchedRam(m, c, 1);
    hide Fetched;
  }

  // ----- jumps, calls and returns -----

  lemma FlowRuns(m: Machine, n: Machine, w: FlowInstr) returns (c: CpuState, d: byte, f: Flowed)
    requires Executes(m, n) && Decode(Opcode(m)) == Flow(w)
    ensures c.regs.a == m.cpu.regs.a && c.regs.psw == m.cpu.regs.psw && c.regs.dbf == m.cpu.regs.dbf && c.regs.f1 == m.cpu.regs.f1
    ensures c.regs.pc == Ahead(m, Length(Flow(w))) && c.ram == m.cpu.ram && c.rom == m.cpu.rom
    ensures c.t0 == m.cpu.t0 && c.t1 == m.cpu.t1 && c.notInt == m.cpu.notInt && c.inInterrupt == m.cpu.inInterrupt
    ensures c.tf == (m.cpu.tf || n.log.overflows > m.log.overflows)
    ensures ValidFlow(w) && ExecFlow(c, w, d) == Some(f) && (HasOperand(Flow(w)) ==> d == Second(m))
    ensures Leaves(m, n, m.cpu.regs.a, f.psw, f.ram)
    ensures n.cpu.regs.pc == f.pc && n.cpu.tf == f.tf && n.cpu.inInterrupt == f.inInterrupt
  {
    hide Executes, Opcode, Second, Decode, ExecFlow, HasOperand;
    var p;
    p, d := Begin(m, n);
    ExecFlowIs(p, w, d);
    c, f := p.cpu, ExecFlow(p.cpu, w, d).value;
  }

  /** The processor goes on at pc; nothing else is changed. */
  predicate GoesTo(m: Machine, n: Machine, pc: nat) {
    LeavesA(m, n, m.cpu.regs.a) && n.cpu.regs.pc == pc && n.cpu.inInterrupt == m.cpu.inInterrupt
  }

  /** The target of JMP and CALL: three bits of the opcode, the second byte, and the memory bank above them. */
  function Far(m: Machine): nat {
    2048 * (m.cpu.regs.dbf % 32) + 256 * (Opcode(m) / 32) + Second(m)
  }

  /** The target of a conditional jump: the second byte on its own page. */
  function Near(m: Machine): nat {
    256 * (Ahead(m, 1) % 4096 / 256) + Second(m)
  }

  lemma NearIs(m: Machine, pc: word, d: byte)
    requires pc == Ahead(m, 2) && d == Second(m)
    ensures NearTarget(pc, d) == Near(m)
  {
    hide Second;
    assert (pc + 65535) % 65536 == Ahead(m, 1);
  }

  lemma FarJumps(op: byte)
    ensures op % 32 == 4 ==> Decode(op) == Flow(Jmp(op / 32))
    ensures op % 32 == 20 ==> Decode(op) == Flow(Call(op / 32))
    ensures op % 32 == 18 ==> Decode(op) == Flow(Jump(IfBit(op / 32)))
  {
    hide RegisterForm, IndirectForm, ImmediateColumn, ControlColumn, JumpColumn, AccumulatorColumn;
  }

  /** JMP address. */
  lemma Jumping(m: Machine, n: Machine)
    requires Executes(m, n) && Opcode(m) % 32 == 4
    ensures GoesTo(m, n, Far(m)) && (n.cpu.tf <==> m.cpu.tf || n.log.overflows > m.log.overflows)
  {
    hide Executes, Opcode, Second, Decode;
    FarJumps(Opcode(m));
    var c, d, f := FlowRuns(m, n, Jmp(Opcode(m) / 32));
  }

  /** Where the stack pointer points. */
  function StackCell(psw: byte): (k: nat)
    ensures k < 23
  {
    8 + 2 * (psw % 8)
  }

  /** The return address and the upper half of the PSW go to two cells, SP moves on; beyond 4095 the address runs into
      the bits of the PSW. */
  predicate Pushed(m: Machine, pc: word, psw: byte, ram: Ram128) {
    var k := StackCell(m.cpu.regs.psw);
    && psw / 8 == m.cpu.regs.psw / 8 && psw % 8 == (m.cpu.regs.psw % 8 + 1) % 8
    && (forall j :: 0 <= j < 128 && j != k && j != k + 1 ==> ram[j] == m.cpu.ram[j])
    && ram[k] == pc % 256
    && (pc < 4096 ==> ram[k + 1] == 16 * (m.cpu.regs.psw / 16) + pc / 256)
    && forall b :: 0 <= b < 8 ==> (Bit(ram[k + 1], b) == 1 <==> Bit(m.cpu.regs.psw / 16 * 16, b) == 1 || Bit(pc / 256, b) == 1)
  }

  lemma PushIs(m: Machine, f: Flowed)
    requires f.psw == m.cpu.regs.psw && f.ram == m.cpu.ram
    ensures Pushed(m, f.pc, Push(f).psw, Push(f).ram)
  {
    hide Or, Bit;
    OrBits(f.psw / 16 * 16, f.pc / 256);
    if f.pc < 4096 { PackedNibbles(f.psw, f.pc); }
    NextSlot(f.psw);
  }

  lemma PackedNibbles(psw: byte, pc: word)
    requires pc < 4096
    ensures Or(psw / 16 * 16, pc / 256) == 16 * (psw / 16) + pc / 256
  {
    hide Or;
    OrNibble(psw / 16, pc / 256);
    assert psw / 16 * 16 == 16 * (psw / 16);
  }

  lemma NextSlot(psw: byte)
    ensures (psw / 8 * 8 + (psw % 8 + 1) % 8) / 8 == psw / 8 && (psw / 8 * 8 + (psw % 8 + 1) % 8) % 8 == (psw % 8 + 1) % 8
  {
  }

  /** CALL address. */
  lemma Calling(m: Machine, n: Machine)
    requires Executes(m, n) && Opcode(m) % 32 == 20
    ensures n.cpu.regs.pc == Far(m) && n.cpu.inInterrupt == m.cpu.inInterrupt
    ensures Pushed(m, Ahead(m, 2), n.cpu.regs.psw, n.cpu.ram) && Leaves(m, n, m.cpu.regs.a, n.cpu.regs.psw, n.cpu.ram)
  {
    hide Executes, Opcode, Second, Decode, Push, Pushed;
    FarJumps(Opcode(m));
    var c, d, f := FlowRuns(m, n, Call(Opcode(m) / 32));
    PushIs(m, Still(c));
    PushedElsewhere(Still(c));
  }

  lemma PushedElsewhere(f: Flowed)
    ensures Push(f).inInterrupt == f.inInterrupt && Push(f).tf == f.tf
  {
    hide Or;
  }

  /** RET and RETR: back to the newest frame; only RETR takes the upper half of the PSW from it and ends the handler. */
  lemma Returning(m: Machine, n: Machine)
    requires Executes(m, n) && Opcode(m) in {0x83, 0x93}
    ensures var psw := m.cpu.regs.psw;
            var k := StackCell((psw + 7) % 8);
            var low: int, high: int := m.cpu.ram[k], m.cpu.ram[k + 1];
            && n.cpu.regs.pc == high % 16 * 256 + low
            && n.cpu.regs.psw / 16 == (if Opcode(m) == 0x93 then high else psw) / 16
            && n.cpu.regs.psw % 16 == 8 + (psw + 7) % 8
            && Leaves(m, n, m.cpu.regs.a, n.cpu.regs.psw, m.cpu.ram)
            && n.cpu.inInterrupt == (m.cpu.inInterrupt && Opcode(m) == 0x83)
  {
    hide Executes, Opcode, Second, Decode, Pop;
    Column3(Opcode(m));
    var back := Opcode(m) == 0x93;
    var c, d, f := FlowRuns(m, n, if back then Retr else Ret);
    PopIs(Still(c), back);
  }

  lemma PopIs(f: Flowed, back: bool)
    ensures var k := StackCell((f.psw + 7) % 8);
            var low: int, high: int := f.ram[k], f.ram[k + 1];
            var r := Pop(f, back);
            && r.pc == high % 16 * 256 + low && r.psw / 16 == (if back then high else f.psw) / 16
            && r.psw % 16 == 8 + (f.psw + 7) % 8
            && r.ram == f.ram && r.inInterrupt == (f.inInterrupt && !back)
  {
  }

  /** A conditional jump leaves everything but the PC alone. */
  predicate JumpsIf(m: Machine, n: Machine, taken: bool) {
    GoesTo(m, n, if taken then Near(m) else Ahead(m, 2)) && n.cpu.tf == (m.cpu.tf || n.log.overflows > m.log.overflows)
  }

  lemma JumpRuns(m: Machine, n: Machine, cond: Cond) returns (c: CpuState)
    requires Executes(m, n) && Decode(Opcode(m)) == Flow(Jump(cond))
    ensures c.regs.a == m.cpu.regs.a && c.regs.psw == m.cpu.regs.psw && c.regs.f1 == m.cpu.regs.f1
    ensures c.t0 == m.cpu.t0 && c.t1 == m.cpu.t1 && c.notInt == m.cpu.notInt
    ensures c.tf == (m.cpu.tf || n.log.overflows > m.log.overflows)
    ensures cond.IfBit? ==> cond.b < 8
    ensures GoesTo(m, n, if Holds(c, cond) then Near(m) else Ahead(m, 2))
    ensures n.cpu.tf == (c.tf && !(Holds(c, cond) && cond == IfTF))
  {
    hide Executes, Opcode, Second, Decode, Holds, NearTarget, Near, Ahead;
    var d, f;
    c, d, f := FlowRuns(m, n, Jump(cond));
    NearIs(m, c.regs.pc, d);
  }

  /** JBb address: when bit b of A is 1. */
  lemma JumpingOnBit(m: Machine, n: Machine)
    requires Executes(m, n) && Opcode(m) % 32 == 18
    ensures JumpsIf(m, n, Bit(m.cpu.regs.a, Opcode(m) / 32) == 1)
  {
    hide Executes, Opcode, Decode, GoesTo, Bit;
    FarJumps(Opcode(m));
    var c := JumpRuns(m, n, IfBit(Opcode(m) / 32));
  }

  lemma Column6(op: byte)
    requires op % 16 == 6
    ensures Decode(op) == JumpColumn(op / 16)
  {
    hide JumpColumn;
  }

  /** JNZ and JZ by A, JC and JNC by CY, JF0 and JF1 by the flags. */
  lemma JumpingOnFlags(m: Machine, n: Machine)
    requires Executes(m, n)
    ensures var op, g := Opcode(m), m.cpu.regs;
            && (op == 0xc6 ==> JumpsIf(m, n, g.a == 0))
            && (op == 0x96 ==> JumpsIf(m, n, g.a != 0))
            && (op == 0xf6 ==> JumpsIf(m, n, g.psw / 128 == 1))
            && (op == 0xe6 ==> JumpsIf(m, n, g.psw / 128 == 0))
            && (op == 0xb6 ==> JumpsIf(m, n, g.psw / 32 % 2 == 1))
            && (op == 0x76 ==> JumpsIf(m, n, g.f1 != 0))
  {
    hide Executes, Opcode, Decode, GoesTo;
    var op := Opcode(m);
    if op in {0xc6, 0x96, 0xf6, 0xe6, 0xb6, 0x76} {
      Column6(op);
      var c := JumpRuns(m, n, JumpColumn(op / 16).w.c);
    }
  }

  /** JT0, JNT0, JT1, JNT1 by the test pins; JNI jumps while the interrupt pin is high. */
  lemma JumpingOnPins(m: Machine, n: Machine)
    requires Executes(m, n)
    ensures var op, c := Opcode(m), m.cpu;
            && (op == 0x36 ==> JumpsIf(m, n, c.t0)) && (op == 0x26 ==> JumpsIf(m, n, !c.t0))
            && (op == 0x56 ==> JumpsIf(m, n, c.t1)) && (op == 0x46 ==> JumpsIf(m, n, !c.t1))
            && (op == 0x86 ==> JumpsIf(m, n, c.notInt))
  {
    hide Executes, Opcode, Decode, GoesTo;
    var op := Opcode(m);
    if op in {0x36, 0x26, 0x56, 0x46, 0x86} {
      Column6(op);
      var c := JumpRuns(m, n, JumpColumn(op / 16).w.c);
    }
  }

  /** JTF: when the timer flag is set, be it by this instruction's own ticks; it clears the flag. */
  lemma JumpingOnTimer(m: Machine, n: Machine)
    requires Executes(m, n) && Opcode(m) == 0x16
    ensures GoesTo(m, n, if m.cpu.tf || n.log.overflows > m.log.overflows then Near(m) else Ahead(m, 2)) && !n.cpu.tf
  {
    hide Executes, Opcode, Decode, GoesTo;
    Column6(0x16);
    var c := JumpRuns(m, n, IfTF);
  }

  /** DJNZ Rr,address: the register counts down, and the jump is taken unless it arrives at 0. */
  lemma CountingLoop(m: Machine, n: Machine)
    requires Executes(m, n) && 0xe8 <= Opcode(m) <= 0xef
    ensures var r := Opcode(m) % 8;
            && LeavesCell(m, n, Cell(m, r), Sum(R(m, r), 255))
            && n.cpu.regs.pc == (if R(m, r) == 1 then Ahead(m, 2) else Near(m)) && n.cpu.inInterrupt == m.cpu.inInterrupt
  {
    hide Executes, Opcode, Second, Decode, NearTarget, Near, Ahead;
    var r := Opcode(m) % 8;
    RegisterRow(Opcode(m));
    var c, d, f := FlowRuns(m, n, Djnz(r));
    NearIs(m, c.regs.pc, d);
  }

  /** JMPP @A: to the address that the cell of this page names. */
  lemma JumpingIndirect(m: Machine, n: Machine)
    requires Executes(m, n) && Opcode(m) == 0xb3
    ensures var page := Ahead(m, 1) / 256;
            256 * page + m.cpu.regs.a < |m.cpu.rom| && GoesTo(m, n, 256 * page + m.cpu.rom[256 * page + m.cpu.regs.a])
  {
    hide Executes, Opcode, Decode, Ahead;
    Column3(0xb3);
    var c, d, f := FlowRuns(m, n, Jmpp);
  }

  // ----- timer and interrupt switches -----

  lemma ControlRuns(m: Machine, n: Machine, k: ControlInstr) returns (c: CpuState)
    requires Executes(m, n) && Decode(Opcode(m)) == Control(k)
    ensures c.extEnabled == m.cpu.extEnabled && c.tcntEnabled == m.cpu.tcntEnabled
    ensures c.timerRunning == m.cpu.timerRunning && c.counterRunning == m.cpu.counterRunning
    ensures c.regs.a == m.cpu.regs.a && n.cpu == ExecControl(c, k) && LeavesA(m, n, m.cpu.regs.a)
  {
    hide Executes, Opcode, Second, Decode;
    var p, d := Begin(m, n);
    ExecControlIs(p, k, d);
    c := p.cpu;
  }

  /** The interrupt enables and what runs. */
  predicate Switches(n: Machine, ext: bool, tcnt: bool, counter: bool, timer: bool) {
    && n.cpu.extEnabled == ext && n.cpu.tcntEnabled == tcnt
    && n.cpu.counterRunning == counter && n.cpu.timerRunning == timer
  }

  /** EN I, DIS I, EN TCNTI and DIS TCNTI each turn their own switch; DIS TCNTI forgets a request. */
  lemma Enabling(m: Machine, n: Machine)
    requires Executes(m, n) && Opcode(m) in {0x05, 0x15, 0x25, 0x35}
    ensures LeavesA(m, n, m.cpu.regs.a)
    ensures var op, c := Opcode(m), m.cpu;
            && (op == 0x05 ==> Switches(n, true, c.tcntEnabled, c.counterRunning, c.timerRunning))
            && (op == 0x15 ==> Switches(n, false, c.tcntEnabled, c.counterRunning, c.timerRunning))
            && (op == 0x25 ==> Switches(n, c.extEnabled, true, c.counterRunning, c.timerRunning))
            && (op == 0x35 ==> Switches(n, c.extEnabled, false, c.counterRunning, c.timerRunning) && !n.cpu.timerRequest)
  {
    hide Executes, Opcode, Decode, LeavesA;
    Column5(Opcode(m));
    var c := ControlRuns(m, n, ControlColumn(Opcode(m) / 16).k);
  }

  /** STRT CNT stops the timer and STRT T the counter, starting a whole period of 32 cycles; STOP TCNT stops both. */
  lemma Starting(m: Machine, n: Machine)
    requires Executes(m, n) && Opcode(m) in {0x45, 0x55, 0x65}
    ensures LeavesA(m, n, m.cpu.regs.a)
    ensures var op, c := Opcode(m), m.cpu;
            && Switches(n, c.extEnabled, c.tcntEnabled, op == 0x45, op == 0x55) && (op == 0x55 ==> n.cpu.countdown == 32)
  {
    hide Executes, Opcode, Decode, LeavesA;
    Column5(Opcode(m));
    var c := ControlRuns(m, n, ControlColumn(Opcode(m) / 16).k);
  }

  /** MOV T,A. */
  lemma LoadingTimer(m: Machine, n: Machine)
    requires Executes(m, n) && Opcode(m) == 0x62
    ensures LeavesA(m, n, m.cpu.regs.a) && n.cpu.regs.t == m.cpu.regs.a
  {
    hide Executes, Opcode;
    assert Decode(0x62) == Control(MovTA);
    hide Decode;
    var c := ControlRuns(m, n, MovTA);
  }

  // ----- ports -----

  /** The instruction does these operations on the board, and nothing else. */
  predicate Performs(m: Machine, n: Machine, ops: seq<BusOp>) {
    n.log.bus == m.log.bus + ops && n.board == RunBus(m.board, ops)
  }

  /** What a write leaves on P1: the switches, once there is a panel. */
  function OnP1(m: Machine, v: byte): byte {
    if m.inputs == [] then v else m.inputs[0].switches
  }

  /** The keys the panel puts on P2 behind the falling edge of PROG. */
  function KeyOps(m: Machine): seq<BusOp> {
    if m.inputs == [] || Row(m.board.pid.pc) >= 6 then [] else [P2Low(m.inputs[0].keys[Row(m.board.pid.pc)])]
  }

  predicate Pulses(op: byte) {
    op in {0x0c, 0x0d, 0x0e, 0x0f, 0x3c, 0x3d, 0x3e, 0x3f, 0x8c, 0x8d, 0x8e, 0x8f, 0x9c, 0x9d, 0x9e, 0x9f}
  }

  /** v has a bit 1 where x or y has. */
  predicate IsOr(v: byte, x: byte, y: byte) {
    forall k :: 0 <= k < 8 ==> (Bit(v, k) == 1 <==> Bit(x, k) == 1 || Bit(y, k) == 1)
  }

  predicate IsAnd(v: byte, x: byte, y: byte) {
    forall k :: 0 <= k < 8 ==> (Bit(v, k) == 1 <==> Bit(x, k) == 1 && Bit(y, k) == 1)
  }

  lemma PortRuns(m: Machine, n: Machine, q: PortInstr) returns (c: CpuState, d: byte)
    requires Executes(m, n) && Decode(Opcode(m)) == Port(q)
    ensures c.regs.a == m.cpu.regs.a && ValidPort(q) && (HasOperand(Port(q)) ==> d == Second(m))
    ensures forall r :: 0 <= r < 8 ==> ReadReg(c, r) == R(m, r)
    ensures Performs(m, n, PortOps(c, m.board, q, d, Current(m.inputs)))
    ensures LeavesA(m, n, PortResult(m.cpu.regs.a, n.board, q))
    ensures !(Strobes(q) && m.inputs != [] && Row(m.board.pid.pc) >= 6)
  {
    hide Executes, Opcode, Second, Decode, HasOperand, RunBus, Fetched, ReadReg, R, PortOps, PortResult, Row;
    var p;
    p, d := Begin(m, n);
    c := p.cpu;
    FetchedRam(m, c, Length(Port(q)));
    ExecPortRuns(p, q, d, n);
    forall r | 0 <= r < 8 ensures ReadReg(c, r) == R(m, r) { CellIs(m, c, r, Length(Port(q))); }
  }

  lemma ExecPortRuns(p: Machine, q: PortInstr, d: byte, n: Machine)
    requires ValidPort(q) && Exec(p, Port(q), d) == Some(n)
    ensures !NoSuchRow(p, q) && Performs(p, n, PortOps(p.cpu, p.board, q, d, Current(p.inputs)))
    ensures n.cpu == p.cpu.(regs := p.cpu.regs.(a := PortResult(p.cpu.regs.a, n.board, q)))
  {
    hide PortOps, PortResult, RunBus, Row;
  }

  lemma PortDecode(op: byte)
    ensures op == 0x02 ==> Decode(op) == Port(Outl(0))
    ensures op in {0x39, 0x3a} ==> Decode(op) == Port(Outl(op % 2))
    ensures op == 0x08 ==> Decode(op) == Port(In(0))
    ensures op in {0x09, 0x0a} ==> Decode(op) == Port(In(op % 2))
    ensures op in {0x88, 0x89, 0x8a} ==> Decode(op) == Port(OrlPort(op % 4))
    ensures op in {0x98, 0x99, 0x9a} ==> Decode(op) == Port(AnlPort(op % 4))
  {
    hide RegisterForm, IndirectForm, ImmediateColumn, ControlColumn, JumpColumn, AccumulatorColumn;
  }

  lemma PulseDecode(op: byte)
    ensures 0x0c <= op <= 0x0f ==> Decode(op) == Port(MovdIn(op % 4))
    ensures 0x3c <= op <= 0x3f ==> Decode(op) == Port(ExpanderOut(4, op % 4))
    ensures 0x8c <= op <= 0x8f ==> Decode(op) == Port(ExpanderOut(8, op % 4))
    ensures 0x9c <= op <= 0x9f ==> Decode(op) == Port(ExpanderOut(12, op % 4))
  {
    hide RegisterForm, IndirectForm, ImmediateColumn, ControlColumn, JumpColumn, AccumulatorColumn;
  }

  /** OUTL BUS,A and OUTL Pp,A; the opcode meant for P2 writes BUS. */
  lemma Writing(m: Machine, n: Machine)
    requires Executes(m, n) && Opcode(m) in {0x02, 0x39, 0x3a}
    ensures LeavesA(m, n, m.cpu.regs.a)
    ensures Performs(m, n, if Opcode(m) == 0x39 then [OutP1(OnP1(m, m.cpu.regs.a))] else [OutBus(m.cpu.regs.a)])
  {
    hide Executes, Opcode, Decode, Performs;
    var op := Opcode(m);
    PortDecode(op);
    var c, d := PortRuns(m, n, Outl(if op == 0x39 then 1 else 0));
  }

  /** INS A,BUS and IN A,Pp; the opcode meant for P2 reads BUS. */
  lemma ReadingPort(m: Machine, n: Machine)
    requires Executes(m, n) && Opcode(m) in {0x08, 0x09, 0x0a}
    ensures LeavesA(m, n, if Opcode(m) == 0x09 then m.board.p1 else m.board.bus) && n.board == m.board && n.log.bus == m.log.bus
  {
    hide Executes, Opcode, Decode;
    var op := Opcode(m);
    PortDecode(op);
    var c, d := PortRuns(m, n, In(if op == 0x09 then 1 else 0));
  }

  /** ORL port,#data: the bits that are 1 on the port or in the data are written. */
  lemma OrPort(m: Machine, n: Machine)
    requires Executes(m, n) && Opcode(m) in {0x88, 0x89, 0x8a}
    ensures LeavesA(m, n, m.cpu.regs.a)
    ensures Opcode(m) == 0x88 ==> exists v: byte :: IsOr(v, m.board.bus, Second(m)) && Performs(m, n, [OutBus(v)])
    ensures Opcode(m) == 0x89 ==> exists v: byte :: IsOr(v, m.board.p1, Second(m)) && Performs(m, n, [OutP1(OnP1(m, v))])
    ensures Opcode(m) == 0x8a ==> exists v: byte :: IsOr(v, m.board.p2, Second(m)) && Performs(m, n, [P2Full(v)])
  {
    hide Executes, Opcode, Second, Decode, Performs, Or, Bit;
    var op := Opcode(m);
    PortDecode(op);
    var c, d := PortRuns(m, n, OrlPort(op % 4));
    var old_ := PortValue(m.board, op % 4);
    OrBits(old_, d);
    assert IsOr(Or(old_, d), old_, Second(m));
  }

  /** ANL port,#data. */
  lemma AndPort(m: Machine, n: Machine)
    requires Executes(m, n) && Opcode(m) in {0x98, 0x99, 0x9a}
    ensures LeavesA(m, n, m.cpu.regs.a)
    ensures Opcode(m) == 0x98 ==> exists v: byte :: IsAnd(v, m.board.bus, Second(m)) && Performs(m, n, [OutBus(v)])
    ensures Opcode(m) == 0x99 ==> exists v: byte :: IsAnd(v, m.board.p1, Second(m)) && Performs(m, n, [OutP1(OnP1(m, v))])
    ensures Opcode(m) == 0x9a ==> exists v: byte :: IsAnd(v, m.board.p2, Second(m)) && Performs(m, n, [P2Full(v)])
  {
    hide Executes, Opcode, Second, Decode, Performs, And, Bit;
    var op := Opcode(m);
    PortDecode(op);
    var c, d := PortRuns(m, n, AnlPort(op % 4));
    var old_ := PortValue(m.board, op % 4);
    AndBits(old_, d);
    assert IsAnd(And(old_, d), old_, Second(m));
  }

  lemma StrobeIs(m: Machine, address: nibble)
    requires m.inputs == [] || Row(m.board.pid.pc) < 6
    ensures StrobeOps(m.board, address, Current(m.inputs)) == [P2Low(address)] + KeyOps(m)
  {
    hide Row;
  }

  /** MOVD A,Pp: the port number goes out on the low half of P2 with a pulse on PROG, and A takes that half. */
  lemma ReadingExpander(m: Machine, n: Machine)
    requires Executes(m, n) && 0x0c <= Opcode(m) <= 0x0f
    ensures LeavesA(m, n, n.board.p2 % 16) && Performs(m, n, [P2Low(Opcode(m) % 4)] + KeyOps(m))
  {
    hide Executes, Opcode, Decode, Performs, Row, StrobeOps;
    PulseDecode(Opcode(m));
    var c, d := PortRuns(m, n, MovdIn(Opcode(m) % 4));
    StrobeIs(m, Opcode(m) % 4);
    hide KeyOps;
  }

  /** MOVD Pp,A, ORLD Pp,A and ANLD Pp,A: the code 1, 2 or 3 above the port number, then the low half of A. */
  lemma WritingExpander(m: Machine, n: Machine)
    requires Executes(m, n) && (0x3c <= Opcode(m) <= 0x3f || 0x8c <= Opcode(m) <= 0x8f || 0x9c <= Opcode(m) <= 0x9f)
    ensures var code := if Opcode(m) < 0x40 then 4 else if Opcode(m) < 0x90 then 8 else 12;
            && LeavesA(m, n, m.cpu.regs.a)
            && Performs(m, n, [P2Low(code + Opcode(m) % 4)] + KeyOps(m) + [P2Low(m.cpu.regs.a % 16)])
  {
    hide Executes, Opcode, Decode, Performs, Row;
    var op := Opcode(m);
    PulseDecode(op);
    var code := if op < 0x40 then 4 else if op < 0x90 then 8 else 12;
    var c, d := PortRuns(m, n, ExpanderOut(code, op % 4));
    StrobeIs(m, code + op % 4);
    hide KeyOps, StrobeOps;
  }

  /** MOVX A,@Rr and MOVX @Rr,A. */
  lemma MovingExternal(m: Machine, n: Machine)
    requires Executes(m, n) && Opcode(m) in {0x80, 0x81, 0x90, 0x91}
    ensures var r := R(m, Opcode(m) % 2);
            && (Opcode(m) < 0x90 ==> Performs(m, n, [BusOp.Read(r)]) && LeavesA(m, n, n.board.bus))
            && (Opcode(m) >= 0x90 ==> Performs(m, n, [Store(r, m.cpu.regs.a)]) && LeavesA(m, n, m.cpu.regs.a))
  {
    hide Executes, Opcode, Decode, Performs, R, ReadReg;
    var op := Opcode(m);
    IndirectRow(op);
    var c, d := PortRuns(m, n, IndirectForm(op / 16, op % 16).q);
  }
}
