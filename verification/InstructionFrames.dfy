/** How many bytes and cycles every opcode byte takes, what it leaves alone, and exactly when it fails. */
module InstructionFrames {
  import opened Bits
  import opened Board
  import opened Cpu
  import opened CpuFrames
  import opened InstructionSet
  import opened Panel
  import opened Wrappers

  // ----- the kinds of opcodes -----

  predicate ControlOp(op: byte) {
    op in {0x05, 0x15, 0x25, 0x35, 0x45, 0x55, 0x65, 0x62}
  }

  predicate PortOp(op: byte) {
    || op in {0x02, 0x08, 0x09, 0x0a, 0x39, 0x3a, 0x80, 0x81, 0x90, 0x91, 0x88, 0x89, 0x8a, 0x98, 0x99, 0x9a}
    || Pulses(op)
  }

  predicate Idle(op: byte) {
    op in {0x00, 0x75} || Undefined(op)
  }

  /** Decoding agrees with the lists of opcodes. */
  predicate Listed(op: byte, i: Instr) {
    && (HasOperand(i) <==> TwoBytes(op)) && (Cycles(i) == 2 <==> TwoCycles(op))
    && (i.Control? <==> ControlOp(op)) && (i.Port? <==> PortOp(op)) && (i.Flow? <==> Branches(op))
    && (i.Nop? || i.Ent0Clk? || i.Illegal? <==> Idle(op))
  }

  lemma Listed3(row: nat)
    requires 0 <= row < 8
    ensures Listed(16 * row + 3, ImmediateColumn(row))
  {
    match row {
      case 0 =>
      case 1 =>
      case 2 =>
      case 3 =>
      case 4 =>
      case 5 =>
      case 6 =>
      case _ =>
    }
  }

  lemma Listed3High(row: nat)
    requires 8 <= row < 16
    ensures Listed(16 * row + 3, ImmediateColumn(row))
  {
    match row {
      case 8 =>
      case 9 =>
      case 10 =>
      case 11 =>
      case 12 =>
      case 13 =>
      case 14 =>
      case _ =>
    }
  }

  lemma Listed5(row: nat)
    requires row < 16
    ensures Listed(16 * row + 5, ControlColumn(row))
  {
    match row {
      case 0 =>
      case 1 =>
      case 2 =>
      case 3 =>
      case 4 =>
      case 5 =>
      case 6 =>
      case 7 =>
      case 8 =>
      case 9 =>
      case 10 =>
      case 11 =>
      case 12 =>
      case 13 =>
      case 14 =>
      case _ =>
    }
  }

  lemma Listed6(row: nat)
    requires row < 16
    ensures Listed(16 * row + 6, JumpColumn(row))
  {
    match row {
      case 0 =>
      case 1 =>
      case 2 =>
      case 3 =>
      case 4 =>
      case 5 =>
      case 6 =>
      case 7 =>
      case 8 =>
      case 9 =>
      case 10 =>
      case 11 =>
      case 12 =>
      case 13 =>
      case 14 =>
      case _ =>
    }
  }

  lemma Listed7(row: nat)
    requires row < 16
    ensures Listed(16 * row + 7, AccumulatorColumn(row))
  {
    match row {
      case 0 =>
      case 1 =>
      case 2 =>
      case 3 =>
      case 4 =>
      case 5 =>
      case 6 =>
      case 7 =>
      case 8 =>
      case 9 =>
      case 10 =>
      case 11 =>
      case 12 =>
      case 13 =>
      case 14 =>
      case _ =>
    }
  }

  lemma ListedRows(row: nat, r: nat)
    requires row in {1, 2, 4, 5, 6, 7} && r < 8
    ensures Listed(16 * row + 8 + r, RegisterForm(row, r))
  {
    match row {
      case 1 =>
      case 2 =>
      case 4 =>
      case 5 =>
      case 6 =>
      case _ =>
    }
  }

  lemma ListedHighRows(row: nat, r: nat)
    requires row in {10, 11, 12} && r < 8
    ensures Listed(16 * row + 8 + r, RegisterForm(row, r))
  {
    match row {
      case 10 =>
      case 11 =>
      case _ =>
    }
  }

  lemma ListedLastRows(row: nat, r: nat)
    requires row in {13, 14, 15} && r < 8
    ensures Listed(16 * row + 8 + r, RegisterForm(row, r))
  {
    match row {
      case 13 =>
      case 14 =>
      case _ =>
    }
  }

  lemma ListedPointers(row: nat, r: nat)
    requires row in {1, 2, 3, 4, 5, 6, 7} && r < 2
    ensures Listed(16 * row + r, IndirectForm(row, r))
  {
    match row {
      case 1 =>
      case 2 =>
      case 3 =>
      case 4 =>
      case 5 =>
      case 6 =>
      case _ =>
    }
  }

  lemma ListedHighPointers(row: nat, r: nat)
    requires row in {8, 9, 10} && r < 2
    ensures Listed(16 * row + r, IndirectForm(row, r))
  {
    match row {
      case 8 =>
      case 9 =>
      case _ =>
    }
  }

  lemma ListedLastPointers(row: nat, r: nat)
    requires row in {11, 13, 15} && r < 2
    ensures Listed(16 * row + r, IndirectForm(row, r))
  {
    match row {
      case 11 =>
      case 13 =>
      case _ =>
    }
  }

  lemma ListedJumps(op: byte)
    requires op % 32 in {4, 18, 20}
    ensures Listed(op, Decode(op))
  {
    FarJumps(op);
    hide Decode;
    assert op % 16 in {2, 4};
  }

  /** What the remaining opcodes decode to. */
  lemma SingleDecode(op: byte)
    ensures op == 0x00 ==> Decode(op) == Nop
    ensures op == 0x42 ==> Decode(op) == Data(Unary(MovAT))
    ensures op == 0x62 ==> Decode(op) == Control(MovTA)
  {
    hide RegisterForm, IndirectForm, ImmediateColumn, ControlColumn, JumpColumn, AccumulatorColumn;
  }

  lemma NoneDecode(op: byte)
    requires op in {0x01, 0xc0, 0xc1, 0xe0, 0xe1, 0x22, 0x82, 0xa2, 0xc2, 0xe2, 0x0b, 0x38, 0x3b, 0x8b, 0x9b}
    ensures Decode(op) == Illegal
  {
    hide RegisterForm, IndirectForm, ImmediateColumn, ControlColumn, JumpColumn, AccumulatorColumn;
  }

  lemma ListedPorts0(op: byte)
    requires 0x08 <= op <= 0x0b
    ensures Listed(op, Decode(op))
  {
    if op == 0x0b { NoneDecode(op); } else { PortDecode(op); }
    hide Decode;
    match op {
      case 0x08 =>
      case 0x09 =>
      case 0x0a =>
      case _ =>
    }
  }

  lemma ListedPulses0(op: byte)
    requires 0x0c <= op <= 0x0f
    ensures Listed(op, Decode(op))
  {
    PulseDecode(op);
    hide Decode;
    match op {
      case 0x0c =>
      case 0x0d =>
      case 0x0e =>
      case _ =>
    }
  }

  lemma ListedPorts3(op: byte)
    requires 0x38 <= op <= 0x3b
    ensures Listed(op, Decode(op))
  {
    if op == 0x38 || op == 0x3b { NoneDecode(op); } else { PortDecode(op); }
    hide Decode;
    match op {
      case 0x38 =>
      case 0x39 =>
      case 0x3a =>
      case _ =>
    }
  }

  lemma ListedPulses3(op: byte)
    requires 0x3c <= op <= 0x3f
    ensures Listed(op, Decode(op))
  {
    PulseDecode(op);
    hide Decode;
    match op {
      case 0x3c =>
      case 0x3d =>
      case 0x3e =>
      case _ =>
    }
  }

  lemma ListedPorts8(op: byte)
    requires 0x88 <= op <= 0x8b
    ensures Listed(op, Decode(op))
  {
    if op == 0x8b { NoneDecode(op); } else { PortDecode(op); }
    hide Decode;
    match op {
      case 0x88 =>
      case 0x89 =>
      case 0x8a =>
      case _ =>
    }
  }

  lemma ListedPulses8(op: byte)
    requires 0x8c <= op <= 0x8f
    ensures Listed(op, Decode(op))
  {
    PulseDecode(op);
    hide Decode;
    match op {
      case 0x8c =>
      case 0x8d =>
      case 0x8e =>
      case _ =>
    }
  }

  lemma ListedPorts9(op: byte)
    requires 0x98 <= op <= 0x9b
    ensures Listed(op, Decode(op))
  {
    if op == 0x9b { NoneDecode(op); } else { PortDecode(op); }
    hide Decode;
    match op {
      case 0x98 =>
      case 0x99 =>
      case 0x9a =>
      case _ =>
    }
  }

  lemma ListedPulses9(op: byte)
    requires 0x9c <= op <= 0x9f
    ensures Listed(op, Decode(op))
  {
    PulseDecode(op);
    hide Decode;
    match op {
      case 0x9c =>
      case 0x9d =>
      case 0x9e =>
      case _ =>
    }
  }

  lemma ListedRest(op: byte)
    requires op in {0x00, 0x01, 0xc0, 0xc1, 0xe0, 0xe1}
    ensures Listed(op, Decode(op))
  {
    if op == 0x00 { SingleDecode(op); } else { NoneDecode(op); }
    hide Decode;
    match op {
      case 0x00 =>
      case 0x01 =>
      case 0xc0 =>
      case 0xc1 =>
      case 0xe0 =>
      case _ =>
    }
  }

  lemma ListedTwos(op: byte)
    requires op in {0x02, 0x42, 0x62}
    ensures Listed(op, Decode(op))
  {
    PortDecode(op);
    SingleDecode(op);
    hide Decode;
    match op {
      case 0x02 =>
      case 0x42 =>
      case _ =>
    }
  }

  lemma ListedNoTwos(op: byte)
    requires op in {0x22, 0x82, 0xa2, 0xc2, 0xe2}
    ensures Listed(op, Decode(op))
  {
    NoneDecode(op);
    hide Decode;
    match op {
      case 0x22 =>
      case 0x82 =>
      case 0xa2 =>
      case 0xc2 =>
      case _ =>
    }
  }

  lemma ListedLow(op: byte, row: nat, r: nat)
    requires op == 16 * row + r && row < 16 && r < 2
    ensures Listed(op, Decode(op))
  {
    hide Decode, Listed;
    if row in {0, 12, 14} {
      ListedRest(op);
    } else {
      PointerRow(op);
      if row < 8 { ListedPointers(row, r); }
      else if row < 11 { ListedHighPointers(row, r); }
      else { ListedLastPointers(row, r); }
    }
  }

  lemma PointerRow(op: byte)
    requires op % 16 < 2 && op / 16 !in {0, 12, 14}
    ensures Decode(op) == IndirectForm(op / 16, op % 16)
  {
    hide RegisterForm, IndirectForm, ImmediateColumn, ControlColumn, JumpColumn, AccumulatorColumn;
  }

  lemma RegisterRows(op: byte)
    requires op % 16 >= 8 && op / 16 !in {0, 3, 8, 9}
    ensures Decode(op) == RegisterForm(op / 16, op % 16 - 8)
  {
    hide RegisterForm, IndirectForm, ImmediateColumn, ControlColumn, JumpColumn, AccumulatorColumn;
  }

  lemma ListedHigh(op: byte)
    requires op % 16 >= 8
    ensures Listed(op, Decode(op))
  {
    hide Decode, Listed;
    var row := op / 16;
    if row == 0 { if op % 16 < 12 { ListedPorts0(op); } else { ListedPulses0(op); } }
    else if row == 3 { if op % 16 < 12 { ListedPorts3(op); } else { ListedPulses3(op); } }
    else if row == 8 { if op % 16 < 12 { ListedPorts8(op); } else { ListedPulses8(op); } }
    else if row == 9 { if op % 16 < 12 { ListedPorts9(op); } else { ListedPulses9(op); } }
    else {
      RegisterRows(op);
      assert op == 16 * row + 8 + (op % 16 - 8);
      if row < 8 { ListedRows(row, op % 16 - 8); }
      else if row < 13 { ListedHighRows(row, op % 16 - 8); }
      else { ListedLastRows(row, op % 16 - 8); }
    }
  }

  /** Every opcode is in the lists. */
  lemma AllListed(op: byte)
    ensures Listed(op, Decode(op))
  {
    hide Decode, Listed;
    var row, low := op / 16, op % 16;
    if op % 32 in {4, 18, 20} { ListedJumps(op); }
    else if low >= 8 { ListedHigh(op); }
    else if low < 2 { ListedLow(op, row, low); }
    else if low == 2 { if row in {0, 4, 6} { ListedTwos(op); } else { ListedNoTwos(op); } }
    else { ListedColumn(op, row, low); }
  }

  lemma ListedColumn(op: byte, row: nat, low: nat)
    requires op == 16 * row + low && row < 16 && low in {3, 5, 6, 7}
    ensures Listed(op, Decode(op))
  {
    hide Decode, Listed;
    if low == 3 {
      Column3(op);
      if row < 8 { Listed3(row); } else { Listed3High(row); }
    } else if low == 5 {
      Column5(op);
      Listed5(row);
    } else if low == 6 {
      Column6(op);
      Listed6(row);
    } else {
      Column7(op);
      Listed7(row);
    }
  }

  // ----- what an instruction leaves alone -----

  lemma ControlStays(c: CpuState, k: ControlInstr)
    ensures var r := ExecControl(c, k); r.regs.pc == c.regs.pc && r.tf == c.tf
  {
    match k {
      case EnI =>
      case DisI =>
      case EnTcnti =>
      case DisTcnti =>
      case StrtCnt =>
      case StrtT =>
      case StopTcnt =>
      case MovTA =>
    }
  }

  lemma PcStays(p: Machine, i: Instr, d: byte, n: Machine)
    requires ValidInstr(i) && !i.Flow? && Exec(p, i, d) == Some(n)
    ensures n.cpu.regs.pc == p.cpu.regs.pc && n.cpu.tf == p.cpu.tf
  {
    hide ExecData, ExecControl, ExecPort, ValidData, ValidPort;
    match i {
      case Data(x) => ExecDataIs(p, x, d);
      case Control(k) =>
        ExecControlIs(p, k, d);
        ControlStays(p.cpu, k);
      case Port(q) => PortStays(p, q, d);
      case _ =>
    }
  }

  lemma PortStays(p: Machine, q: PortInstr, d: byte)
    requires ValidPort(q)
    ensures ExecPort(p, q, d).cpu == p.cpu.(regs := p.cpu.regs.(a := ExecPort(p, q, d).cpu.regs.a))
  {
    hide PortOps, PortResult, RunBus;
  }

  lemma LengthIs(op: byte, i: Instr)
    requires Listed(op, i)
    ensures InstructionSet.Length(i) == (if TwoBytes(op) then 2 else 1) && (i.Flow? <==> Branches(op))
    ensures (i.Control? <==> ControlOp(op)) && (i.Port? <==> PortOp(op))
    ensures Idle(op) ==> !i.Data? && !i.Flow? && !i.Port? && !i.Control?
  {
    hide TwoBytes, Branches, TwoCycles, ControlOp, PortOp, Idle;
  }

  /** An instruction that is no jump goes on behind its bytes. */
  lemma GoingOn(m: Machine, n: Machine)
    requires Executes(m, n) && !Branches(Opcode(m))
    ensures n.cpu.regs.pc == Ahead(m, if TwoBytes(Opcode(m)) then 2 else 1)
    ensures n.cpu.inInterrupt == m.cpu.inInterrupt && n.cpu.tf == (m.cpu.tf || n.log.overflows > m.log.overflows)
  {
    hide Executes, Opcode, Second, Decode, Exec, TwoBytes, Branches, Listed, Ahead;
    var p, d := Begin(m, n);
    var i := Decode(Opcode(m));
    AllListed(Opcode(m));
    LengthIs(Opcode(m), i);
    PcStays(p, i, d, n);
    ExecFrame(p, i, d);
  }

  /** Only the instructions made for it touch the interrupt enables, T and the timer; only port instructions touch the
      board; no instruction touches the pins or the ROM. */
  lemma LeavingAlone(m: Machine, n: Machine)
    requires Executes(m, n)
    ensures n.cpu.t0 == m.cpu.t0 && n.cpu.t1 == m.cpu.t1 && n.cpu.notInt == m.cpu.notInt && n.cpu.rom == m.cpu.rom
    ensures !ControlOp(Opcode(m)) ==>
              Switches(n, m.cpu.extEnabled, m.cpu.tcntEnabled, m.cpu.counterRunning, m.cpu.timerRunning)
    ensures !PortOp(Opcode(m)) ==> n.board == m.board && n.log.bus == m.log.bus
    ensures n.inputs == m.inputs
  {
    hide Executes, Opcode, Second, Decode, Exec, TwoBytes, Branches, Listed, Ahead, ControlOp, PortOp, Idle;
    var p, d := Begin(m, n);
    var i := Decode(Opcode(m));
    AllListed(Opcode(m));
    LengthIs(Opcode(m), i);
    ExecFrame(p, i, d);
    if i.Control? {
      ExecControlIs(p, i.k, d);
      PinsStay(p.cpu, i.k);
    } else if i.Port? {
      PortStays(p, i.q, d);
    }
  }

  lemma PinsStay(c: CpuState, k: ControlInstr)
    ensures var r := ExecControl(c, k); r.t0 == c.t0 && r.t1 == c.t1
  {
    match k {
      case EnI =>
      case DisI =>
      case EnTcnti =>
      case DisTcnti =>
      case StrtCnt =>
      case StrtT =>
      case StopTcnt =>
      case MovTA =>
    }
  }

  /** NOP, ENT0 CLK and the undefined opcodes do nothing. */
  lemma Idling(m: Machine, n: Machine)
    requires Executes(m, n) && Idle(Opcode(m))
    ensures LeavesA(m, n, m.cpu.regs.a)
  {
    hide Executes, Opcode, Second, Decode, TwoBytes, Branches, Listed, Ahead, ControlOp, PortOp, Idle;
    var p, d := Begin(m, n);
    AllListed(Opcode(m));
    LengthIs(Opcode(m), Decode(Opcode(m)));
  }

  /** Two cycles are counted for the opcodes listed, one for the others. */
  lemma Timing(m: Machine)
    requires Step(m).Next?
    ensures Step(m).cycles == if TwoCycles(Opcode(m)) then 2 else 1
  {
    hide HandleInterrupts, UserActs, Exec, Decode, Listed, Opcode, TwoCycles;
    BodyUnfold(m);
    assert CanFetch(m) && FetchByte(m) == Opcode(m) by { Fetching(m); }
    AllListed(Opcode(m));
    CyclesListed(Opcode(m), Decode(Opcode(m)));
  }

  lemma Fetching(m: Machine)
    requires CanFetch(m)
    ensures FetchByte(m) == Opcode(m)
  {
  }

  lemma CyclesListed(op: byte, i: Instr)
    requires Listed(op, i)
    ensures Cycles(i) == if TwoCycles(op) then 2 else 1
  {
    hide TwoBytes, Branches, TwoCycles, ControlOp, PortOp, Idle;
  }

  // ----- where the source fails -----

  /** The instructions that do not mask the register they index the RAM with. */
  predicate Unmasked(op: byte) {
    op in {0x20, 0x21, 0x60, 0x61, 0xb0, 0xb1}
  }

  /** The effect of the instruction reads outside a vector. */
  predicate Oversteps(m: Machine) {
    var op := Opcode(m);
    || (Unmasked(op) && R(m, op % 2) >= 128)
    || (op in {0xa3, 0xe3} && TableAddress(m) >= |m.cpu.rom|)
    || (op == 0xb3 && 256 * (Ahead(m, 1) / 256) + m.cpu.regs.a >= |m.cpu.rom|)
    || (Pulses(op) && m.inputs != [] && Row(m.board.pid.pc) >= 6)
  }

  /** The source operand or the target of a data instruction lies outside its vector. */
  predicate DataOversteps(c: CpuState, x: DataInstr)
    requires ValidData(x)
  {
    match x
    case Alu(_, At(r, masked)) => !masked && ReadReg(c, r) >= 128
    case MovAtData(r) => ReadReg(c, r) >= 128
    case XchAt(r) => ReadReg(c, r) >= 128
    case Movp => c.regs.pc % 4096 / 256 * 256 + c.regs.a >= |c.rom|
    case Movp3 => 0x300 + c.regs.a >= |c.rom|
    case _ => false
  }

  lemma DataFails(c: CpuState, x: DataInstr, d: byte)
    requires ValidData(x)
    ensures ExecData(c, x, d).None? <==> DataOversteps(c, x)
  {
    hide ExecAlu, ExecUnary, ExecFlag, ReadReg, RegAddr, Inc, Dec;
  }

  lemma FlowFails(c: CpuState, w: FlowInstr, d: byte)
    requires ValidFlow(w)
    ensures ExecFlow(c, w, d).None? <==> w.Jmpp? && c.regs.pc / 256 * 256 + c.regs.a >= |c.rom|
  {
    hide Holds, Push, Pop, NearTarget, FarTarget, ReadReg, Dec;
  }

  /** What an instruction's failure depends on. */
  predicate Fails(p: Machine, i: Instr)
    requires ValidInstr(i)
  {
    match i
    case Data(x) => DataOversteps(p.cpu, x)
    case Flow(w) => w.Jmpp? && p.cpu.regs.pc / 256 * 256 + p.cpu.regs.a >= |p.cpu.rom|
    case Port(q) => NoSuchRow(p, q)
    case _ => false
  }

  lemma ExecFails(p: Machine, i: Instr, d: byte)
    requires ValidInstr(i)
    ensures Exec(p, i, d).None? <==> Fails(p, i)
  {
    hide ExecData, ExecFlow, ExecPort, ExecControl, DataOversteps, NoSuchRow, ValidData, ValidFlow, ValidPort;
    match i {
      case Data(x) => DataFails(p.cpu, x, d);
      case Flow(w) => FlowFails(p.cpu, w, d);
      case _ =>
    }
  }

  /** The instructions that can read outside a vector. */
  predicate Risky(i: Instr) {
    match i
    case Data(Alu(_, At(_, masked))) => !masked
    case Data(x) => x.MovAtData? || x.XchAt? || x.Movp? || x.Movp3?
    case Flow(w) => w.Jmpp?
    case Port(q) => Strobes(q)
    case _ => false
  }

  predicate RiskyOp(op: byte) {
    Unmasked(op) || op in {0xa3, 0xb3, 0xe3} || Pulses(op)
  }

  lemma SafeForms(row: nat, r: nat)
    requires row < 16 && r < 8
    ensures !Risky(RegisterForm(row, r)) && !Risky(ControlColumn(row))
    ensures !Risky(JumpColumn(row)) && !Risky(AccumulatorColumn(row))
  {
  }

  lemma RiskyForms(row: nat, r: nat)
    requires r < 2
    ensures Risky(IndirectForm(row, r)) <==> row in {2, 6, 11}
    ensures Risky(ImmediateColumn(row)) <==> row in {10, 11, 14}
  {
  }

  lemma RiskyLow(op: byte)
    requires op % 16 < 3 && op % 32 != 18
    ensures Risky(Decode(op)) <==> Unmasked(op)
  {
    var row, r := op / 16, op % 16;
    if r < 2 && row !in {0, 12, 14} {
      PointerRow(op);
      hide Decode;
      RiskyForms(row, r);
    } else {
      LowDecode(op);
      hide Decode;
    }
  }

  lemma LowDecode(op: byte)
    requires op % 16 < 3 && op % 32 != 18 && (op % 16 < 2 ==> op / 16 in {0, 12, 14})
    ensures Decode(op) in {Nop, Illegal, Port(Outl(0)), Data(Unary(MovAT)), Control(MovTA)}
  {
    hide RegisterForm, IndirectForm, ImmediateColumn, ControlColumn, JumpColumn, AccumulatorColumn;
  }

  lemma RiskyHigh(op: byte)
    requires op % 16 >= 8
    ensures Risky(Decode(op)) <==> Pulses(op)
  {
    var row := op / 16;
    if row !in {0, 3, 8, 9} {
      RegisterRows(op);
      hide Decode;
      SafeForms(row, op % 16 - 8);
    } else if op % 16 < 12 {
      if op in {0x0b, 0x38, 0x3b, 0x8b, 0x9b} { NoneDecode(op); } else { PortDecode(op); }
      hide Decode;
    } else {
      PulseDecode(op);
      hide Decode;
    }
  }

  lemma RiskyColumns(op: byte)
    requires op % 16 in {3, 5, 6, 7}
    ensures Risky(Decode(op)) <==> op in {0xa3, 0xb3, 0xe3}
  {
    hide Decode, Risky, RegisterForm, ImmediateColumn, ControlColumn, JumpColumn, AccumulatorColumn;
    var row := op / 16;
    SafeForms(row, 0);
    RiskyForms(row, 0);
    if op % 16 == 3 { Column3(op); }
    else if op % 16 == 5 { Column5(op); }
    else if op % 16 == 6 { Column6(op); }
    else { Column7(op); }
  }

  lemma RiskyOps(op: byte)
    ensures Risky(Decode(op)) <==> RiskyOp(op)
  {
    hide Decode;
    if op % 32 in {4, 18, 20} { FarJumps(op); }
    else if op % 16 < 3 { RiskyLow(op); }
    else if op % 16 >= 8 { RiskyHigh(op); }
    else { RiskyColumns(op); }
  }

  lemma OnlyRiskyFails(p: Machine, i: Instr)
    requires ValidInstr(i) && Fails(p, i)
    ensures Risky(i)
  {
  }

  lemma UnmaskedFails(m: Machine, p: Machine)
    requires Unmasked(Opcode(m)) && Fetched(m, p.cpu, InstructionSet.Length(Decode(Opcode(m))))
    ensures Fails(p, Decode(Opcode(m))) <==> R(m, Opcode(m) % 2) >= 128
  {
    hide Opcode, Decode, Fetched, ReadReg, R;
    var op := Opcode(m);
    PointerRow(op);
    CellIs(m, p.cpu, op % 2, InstructionSet.Length(Decode(op)));
  }

  lemma TableFails(m: Machine, p: Machine)
    requires Opcode(m) in {0xa3, 0xb3, 0xe3} && Fetched(m, p.cpu, InstructionSet.Length(Decode(Opcode(m))))
    ensures Fails(p, Decode(Opcode(m))) <==> if Opcode(m) == 0xb3 then 256 * (Ahead(m, 1) / 256) + m.cpu.regs.a >= |m.cpu.rom|
                                             else TableAddress(m) >= |m.cpu.rom|
  {
    hide Opcode, Decode, Ahead;
    Column3(Opcode(m));
  }

  lemma PulseFails(m: Machine, p: Machine)
    requires Pulses(Opcode(m)) && p.board == m.board && p.inputs == m.inputs
    ensures Fails(p, Decode(Opcode(m))) <==> m.inputs != [] && Row(m.board.pid.pc) >= 6
  {
    hide Opcode, Decode, Row;
    PulseDecode(Opcode(m));
  }

  lemma RiskyApart(op: byte)
    ensures Unmasked(op) ==> !Pulses(op) && op !in {0xa3, 0xb3, 0xe3}
    ensures Pulses(op) ==> op !in {0xa3, 0xb3, 0xe3}
  {
  }

  lemma FailsIs(m: Machine, p: Machine)
    requires ValidInstr(Decode(Opcode(m))) && Fetched(m, p.cpu, InstructionSet.Length(Decode(Opcode(m))))
    requires p.board == m.board && p.inputs == m.inputs
    ensures Fails(p, Decode(Opcode(m))) <==> Oversteps(m)
  {
    hide Opcode, Decode, Fails, Fetched, Unmasked, Pulses, Risky, Row, R, TableAddress, Ahead;
    var op := Opcode(m);
    RiskyOps(op);
    RiskyApart(op);
    if Unmasked(op) { UnmaskedFails(m, p); }
    else if op in {0xa3, 0xb3, 0xe3} { TableFails(m, p); }
    else if Pulses(op) { PulseFails(m, p); }
    else if Fails(p, Decode(op)) { OnlyRiskyFails(p, Decode(op)); }
  }

  lemma FetchFails(m: Machine)
    ensures Cpu.Prepared(m).None? <==> m.cpu.regs.pc >= |m.cpu.rom| || (TwoBytes(Opcode(m)) && Ahead(m, 1) >= |m.cpu.rom|)
  {
    hide Decode, Tick, TwoBytes;
    if CanFetch(m) {
      var i := Decode(FetchByte(m));
      Fetching(m);
      AllListed(Opcode(m));
      LengthIs(Opcode(m), i);
      TickFrame(Advance(m));
    }
  }

  /** The source aborts or reads outside a vector exactly when the program counter, with the second byte, leaves the ROM,
      an unmasked register points beyond the RAM, a table lies beyond the ROM, or a key scan selects row 6 or 7. */
  lemma StuckIff(m: Machine)
    ensures Step(m).Stuck? <==> || m.cpu.regs.pc >= |m.cpu.rom|
                                || (TwoBytes(Opcode(m)) && Ahead(m, 1) >= |m.cpu.rom|)
                                || Oversteps(m)
  {
    hide Oversteps, TwoBytes, Opcode, Ahead, Decode, Fails, Fetched, Exec, Prepared, HandleInterrupts, UserActs;
    FetchFails(m);
    if Cpu.Prepared(m).Some? {
      var p, d := Ready(m);
      ExecFails(p, Decode(Opcode(m)), d);
      FailsIs(m, p);
    }
  }

  // ----- from one instruction to the next -----

  predicate External(c: CpuState) { !c.notInt && c.extEnabled }

  /** The processor enters a vector. */
  predicate Interrupted(n: Machine, c: CpuState) {
    && c == n.cpu.(regs := n.cpu.regs.(pc := c.regs.pc, psw := c.regs.psw), ram := c.ram, inInterrupt := true,
                   timerRequest := c.timerRequest)
    && c.regs.pc == (if External(n.cpu) then 3 else 7) && c.timerRequest == (n.cpu.timerRequest && External(n.cpu))
    && Pushed(n, n.cpu.regs.pc, c.regs.psw, c.ram)
  }

  lemma VectorIs(n: Machine, f: Flowed, pc: word, request: bool)
    requires f == Push(Still(n.cpu)) && pc == (if External(n.cpu) then 3 else 7)
    requires request == (n.cpu.timerRequest && External(n.cpu))
    ensures Interrupted(n, WithFlow(n.cpu, f.(pc := pc, inInterrupt := true)).(timerRequest := request))
  {
    PushIs(n, Still(n.cpu));
    PushedElsewhere(Still(n.cpu));
    hide Push, Pushed;
  }

  lemma EntryIs(n: Machine)
    ensures var c, c' := n.cpu, HandleInterrupts(n).cpu;
            if !c.inInterrupt && (External(c) || (c.timerRequest && c.tcntEnabled)) then Interrupted(n, c') else c' == c
  {
    hide Push, Interrupted, WithFlow;
    var c, f := n.cpu, Push(Still(n.cpu));
    if External(c) {
      VectorIs(n, f, 3, c.timerRequest);
      SameRequest(c, f.(pc := 3, inInterrupt := true));
    } else if c.timerRequest {
      VectorIs(n, f, 7, false);
    }
  }

  /** Behind the instruction an interrupt is taken when one is enabled, requested and none is being served; then the user may
      operate the switches. */
  lemma StepIs(m: Machine, n: Machine)
    requires Executes(m, n)
    ensures Step(m).Next?
    ensures var c, s := n.cpu, Step(m).m;
            && (if !c.inInterrupt && (External(c) || (c.timerRequest && c.tcntEnabled)) then Interrupted(n, s.cpu)
                else s.cpu == c)
            && s.board == (if |m.inputs| > 1 && m.inputs[1].touched then n.board.(p1 := m.inputs[1].switches) else n.board)
            && s.inputs == if m.inputs == [] then [] else m.inputs[1..]
  {
    hide Interrupted, HandleInterrupts, Decode, Exec, Prepared;
    EntryIs(n);
    HandleFrame(n);
    hide Body;
    InputsKept(m, n);
  }

  lemma InputsKept(m: Machine, n: Machine)
    requires Executes(m, n)
    ensures n.inputs == m.inputs
  {
    LeavingAlone(m, n);
  }

  /** The reset: A, PC, F1, the memory bank, every flag and every switch cleared, bit 3 of the PSW set, the RAM cleared, the
      test pins low and the interrupt pin high; T and the ROM stay. */
  lemma ResetIs(m: Machine)
    ensures var c := CpuReset(m).cpu;
            && c.regs == Regs(m.cpu.regs.t, 0, 0, 8, 0, 0) && c.rom == m.cpu.rom && (forall k :: 0 <= k < 128 ==> c.ram[k] == 0)
            && !c.tf && c.notInt && !c.timerRequest && !c.t0 && !c.t1 && !c.inInterrupt
            && !c.extEnabled && !c.tcntEnabled && !c.counterRunning && !c.timerRunning && c.countdown == 0
  {
    hide RunBus;
  }
}
