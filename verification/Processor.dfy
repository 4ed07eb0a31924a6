/** The Intel 8049 as the object it is in src/emulation/intel8049.cpp: every method updates the
    fields in place and is proved against the step function of module Cpu. */
module Processor {
  import opened Bits
  import opened Board
  import opened Cpu
  import opened CpuFrames
  import opened Panel
  import MemoryMap
  import MultiByte
  import TimerRuns
  import opened Wrappers

  class Intel8049 {
    const board: Wiring
    var tf: bool
    var notInt: bool
    var timerInterruptRequested: bool
    var t0: bool
    var t1: bool
    var regs: Regs
    var externalInterruptsEnabled: bool
    var tcntInterruptsEnabled: bool
    var counterRunning: bool
    var timerRunning: bool
    var cyclesUntilCount: byte
    var inInterrupt: bool
    var rom: seq<byte>
    var ram: Ram128
    ghost var log: Log

    /** main() builds the chips, connects them and resets the CPU; the connected reset is the one kept. */
    constructor (romContent: seq<byte>, wiring: Wiring)
      requires wiring.Valid()
      modifies wiring.bus, wiring.p1, wiring.p2, wiring.pid, wiring.ext, wiring.panel
      ensures board == wiring && wiring.Valid() && rom == romContent
      ensures Core() == CpuState(false, true, false, false, false, Regs(0, 0, 0, 8, 0, 0),
                                 false, false, false, false, 0, false, romContent, Zeros(128))
      ensures var before := Machine(Core(), old(wiring.View()), Log(0, 0, 0, 0, 0, 0, []), old(wiring.panel.inputs));
              board.View() == CpuReset(before).board
    {
      hide RunBus, Zeros;
      board := wiring;
      rom := romContent;
      regs := Regs(0, 0, 0, 0, 0, 0);
      ram := Zeros(128);
      log := Log(0, 0, 0, 0, 0, 0, []);
      new;
      ResetCpu();
    }

    function Core(): CpuState
      reads this
    {
      CpuState(tf, notInt, timerInterruptRequested, t0, t1, regs,
               externalInterruptsEnabled, tcntInterruptsEnabled, counterRunning, timerRunning,
               cyclesUntilCount, inInterrupt, rom, ram)
    }

    ghost function View(): Machine
      reads this, board.bus, board.p1, board.p2, board.pid, board.ext, board.panel
    {
      Machine(Core(), board.View(), log, board.panel.inputs)
    }

    // ----- fetch and timer -----

    /** False where the source aborts because the PC is beyond the ROM. */
    method Fetch() returns (ok: bool, b: byte)
      modifies this`regs
      ensures ok == CanFetch(old(View()))
      ensures ok ==> b == FetchByte(old(View())) && View() == Advance(old(View()))
      ensures !ok ==> View() == old(View())
    {
      if regs.pc >= |rom| {
        return false, 0;
      }
      ok, b := true, rom[regs.pc];
      regs := regs.(pc := (regs.pc + 1) % 65536);
    }

    method CountUp()
      modifies this`tf, this`timerInterruptRequested, this`regs, this`log
      ensures View() == IncCounter(old(View()))
    {
      hide Inc, Wiring.View;
      if regs.t == 0xff {
        log := log.(overflows := log.overflows + 1, merged := log.merged + if timerInterruptRequested then 1 else 0);
        tf := true;
        timerInterruptRequested := true;
      }
      regs := regs.(t := Inc(regs.t));
    }

    method DoTick()
      modifies this`tf, this`timerInterruptRequested, this`regs, this`cyclesUntilCount, this`log
      ensures View() == Tick(old(View()))
    {
      hide IncCounter, Dec, Wiring.View;
      log := log.(ticks := log.ticks + 1);
      if timerRunning {
        cyclesUntilCount := Dec(cyclesUntilCount);
        if cyclesUntilCount == 0 {
          cyclesUntilCount := 32;
          CountUp();
        }
      }
    }

    // ----- the stack -----

    method PushPc()
      modifies this`ram, this`regs
      ensures Core() == WithFlow(old(Core()), Push(Still(old(Core()))))
    {
      hide Or;
      var sp := regs.psw % 8;
      ram := ram[8 + 2 * sp := regs.pc % 256];
      ram := ram[9 + 2 * sp := Or(regs.psw / 16 * 16, regs.pc / 256)];
      regs := regs.(psw := regs.psw / 8 * 8 + (sp + 1) % 8);
    }

    method PopPc(restoreState: bool)
      modifies this`regs, this`inInterrupt
      ensures Core() == WithFlow(old(Core()), Pop(Still(old(Core())), restoreState))
    {
      hide Pop;
      TakeFrame(restoreState);
    }

    method TakeFrame(restoreState: bool)
      modifies this`regs, this`inInterrupt
      ensures var f := Pop(Still(old(Core())), restoreState);
              && regs == old(regs).(pc := f.pc, psw := f.psw) && inInterrupt == f.inInterrupt
              && f.tf == tf && f.ram == ram
    {
      var sp := (regs.psw + 7) % 8;
      var low: int, high: int := ram[8 + 2 * sp], ram[9 + 2 * sp];
      var pc := high % 16 * 256 + low;
      if restoreState {
        regs := regs.(pc := pc, psw := high / 16 * 16 + 8 + sp);
        inInterrupt := false;
      } else {
        regs := regs.(pc := pc, psw := regs.psw / 16 * 16 + 8 + sp);
      }
    }

    /** Saves the PC and goes to an interrupt vector. */
    method EnterVector(vector: word, request: bool)
      modifies this`ram, this`regs, this`inInterrupt, this`timerInterruptRequested
      ensures var flow := Push(Still(old(Core()))).(pc := vector, inInterrupt := true);
              Core() == WithFlow(old(Core()), flow).(timerRequest := request)
    {
      hide Push;
      PushPc();
      regs := regs.(pc := vector);
      inInterrupt := true;
      timerInterruptRequested := request;
    }

    method ServeInterrupts()
      modifies this`ram, this`regs, this`inInterrupt, this`timerInterruptRequested, this`log
      ensures View() == HandleInterrupts(old(View()))
    {
      hide Push, WithFlow, Still, Wiring.View;
      if !inInterrupt {
        if !notInt && externalInterruptsEnabled {
          VectorKeepsRequest(Core());
          EnterVector(3, timerInterruptRequested);
          log := log.(extEntries := log.extEntries + 1);
        } else if timerInterruptRequested && tcntInterruptsEnabled {
          EnterVector(7, false);
          log := log.(timerEntries := log.timerEntries + 1);
        }
      }
    }

    // ----- registers and the accumulator -----

    method WriteReg(r: nat, v: byte)
      requires r < 8
      modifies this`ram
      ensures ram == old(ram)[RegAddr(regs.psw, r) := v]
    {
      var base := if regs.psw / 16 % 2 == 0 then 0 else 24;
      ram := ram[base + r := v];
    }

    method AccAdd(value: byte, carryIn: bool)
      modifies this`regs
      ensures regs == AddToAcc(old(regs), value, if carryIn then 1 else 0)
    {
      hide SetCarry, SetAux;
      var carry := if carryIn then 1 else 0;
      var res := regs.a + value + carry;
      var halfRes := regs.a % 16 + value % 16 + carry;
      regs := regs.(psw := SetCarry(regs.psw, res > 0xff));
      regs := regs.(psw := SetAux(regs.psw, halfRes > 0x0f));
      regs := regs.(a := res % 256);
    }

    // ----- data instructions -----

    method Accumulate(op: AluOp, v: byte)
      modifies this`regs
      ensures Core() == WithUpdate(old(Core()), ExecAlu(old(Core()), op, v))
    {
      hide Or, And, Xor, AddToAcc, Carry, Aux;
      match op {
        case ADD =>
          MultiByte.AddToAccExact(regs, v, 0);
          AccAdd(v, false);
        case ADDC =>
          MultiByte.CarryRange(regs.psw);
          MultiByte.AddToAccExact(regs, v, Carry(regs.psw));
          AccAdd(v, Carry(regs.psw) == 1);
        case ORL => regs := regs.(a := Or(regs.a, v));
        case ANL => regs := regs.(a := And(regs.a, v));
        case XRL => regs := regs.(a := Xor(regs.a, v));
        case MOV => regs := regs.(a := v);
      }
    }

    method DecimalAdjustAcc()
      modifies this`regs
      ensures regs == DecimalAdjust(old(regs))
    {
      hide SetCarry;
      if regs.a % 16 > 9 || Aux(regs.psw) > 0 {
        regs := regs.(a := (regs.a + 6) % 256);
      }
      var hiNibble := regs.a / 16;
      if hiNibble > 9 || Carry(regs.psw) > 0 {
        hiNibble := hiNibble + 6;
      }
      regs := regs.(a := hiNibble % 16 * 16 + regs.a % 16);
      regs := regs.(psw := SetCarry(regs.psw, hiNibble > 15));
    }

    method ModifyAcc(u: UnaryOp)
      modifies this`regs
      ensures Core() == WithUpdate(old(Core()), ExecUnary(old(Core()), u))
    {
      hide ExecUnary;
      UpdateAcc(u);
    }

    method UpdateAcc(u: UnaryOp)
      modifies this`regs
      ensures var r := ExecUnary(old(Core()), u); regs == old(regs).(a := r.a, psw := r.psw)
      ensures SameRest(old(Core()), ExecUnary(old(Core()), u))
    {
      hide ExecUnary;
      UnaryRest(Core(), u);
      if u.RL? || u.RLC? || u.RR? || u.RRC? {
        Rotate(u);
      } else {
        Calculate(u);
      }
    }

    /** The one-operand instructions other than the rotations. */
    method Calculate(u: UnaryOp)
      requires !u.RL? && !u.RLC? && !u.RR? && !u.RRC?
      modifies this`regs
      ensures var r := ExecUnary(old(Core()), u); regs == old(regs).(a := r.a, psw := r.psw)
    {
      hide SetCarry, Not, Inc, Dec, DecimalAdjust, Carry;
      var a := regs.a;
      match u {
        case INC => regs := regs.(a := Inc(a));
        case DEC => regs := regs.(a := Dec(a));
        case CLR => regs := regs.(a := 0);
        case CPL => regs := regs.(a := Not(a));
        case SWAP => regs := regs.(a := a % 16 * 16 + a / 16);
        case DA =>
          AdjustFrame(regs);
          DecimalAdjustAcc();
        case MovAT => regs := regs.(a := regs.t);
        case MovAPsw => regs := regs.(a := regs.psw);
      }
    }

    method Rotate(u: UnaryOp)
      requires u.RL? || u.RLC? || u.RR? || u.RRC?
      modifies this`regs
      ensures var r := ExecUnary(old(Core()), u); regs == old(regs).(a := r.a, psw := r.psw)
    {
      hide SetCarry;
      var a := regs.a;
      match u {
        case RL => regs := regs.(a := a % 128 * 2 + a / 128);
        case RLC => regs := regs.(a := a % 128 * 2 + Carry(regs.psw), psw := SetCarry(regs.psw, a >= 128));
        case RR => regs := regs.(a := a % 2 * 128 + a / 2);
        case RRC => regs := regs.(a := Carry(regs.psw) * 128 + a / 2, psw := SetCarry(regs.psw, a % 2 == 1));
      }
    }

    method ModifyFlags(f: FlagOp)
      modifies this`regs
      ensures Core() == WithUpdate(old(Core()), ExecFlag(old(Core()), f))
    {
      hide SetCarry, SetF0, SetBank;
      var psw := regs.psw;
      match f {
        case ClrF0 => regs := regs.(psw := SetF0(psw, false));
        case CplF0 => regs := regs.(psw := SetF0(psw, F0(psw) == 0));
        case ClrC => regs := regs.(psw := SetCarry(psw, false));
        case CplC => regs := regs.(psw := SetCarry(psw, Carry(psw) == 0));
        case SelRb0 => regs := regs.(psw := SetBank(psw, false));
        case SelRb1 => regs := regs.(psw := SetBank(psw, true));
        case ClrF1 => regs := regs.(f1 := 0);
        case CplF1 => regs := regs.(f1 := if regs.f1 <= 1 then 1 - regs.f1 else 257 - regs.f1);
        case SelMb0 => regs := regs.(dbf := 0);
        case SelMb1 => regs := regs.(dbf := 1);
        case MovPswA => regs := regs.(psw := regs.a);
      }
    }

    method ModifyRegister(x: DataInstr, d: byte)
      requires ValidData(x) && (x.IncReg? || x.DecReg? || x.MovRegA? || x.MovRegData? || x.XchReg?)
      modifies this`ram, this`regs
      ensures ExecData(old(Core()), x, d).Some?
      ensures Core() == WithUpdate(old(Core()), ExecData(old(Core()), x, d).value)
    {
      hide Inc, Dec, RegAddr, ExecData, WithUpdate;
      RegisterIs(Core(), x, d);
      var v := ReadReg(Core(), x.r);
      match x {
        case IncReg(r) => WriteReg(r, Inc(v));
        case DecReg(r) => WriteReg(r, Dec(v));
        case MovRegA(r) => WriteReg(r, regs.a);
        case MovRegData(r) => WriteReg(r, d);
        case XchReg(r) =>
          WriteReg(r, regs.a);
          regs := regs.(a := v);
      }
    }

    /** MOVP and MOVP3; false where the source would index the ROM out of range. */
    method LookUp(x: DataInstr, d: byte) returns (ok: bool)
      requires x.Movp? || x.Movp3?
      modifies this`regs
      ensures ok == ExecData(old(Core()), x, d).Some?
      ensures ok ==> Core() == WithUpdate(old(Core()), ExecData(old(Core()), x, d).value)
    {
      hide ExecData;
      LookUpIs(Core(), x, d);
      var pos := if x.Movp? then regs.pc % 4096 / 256 * 256 + regs.a else 0x300 + regs.a;
      if pos >= |rom| { return false; }
      ok := true;
      regs := regs.(a := rom[pos]);
    }

    /** Instructions that reach RAM through R0 or R1; d is the operand byte. False where the source
        would index RAM out of range. */
    method ModifyMemory(x: DataInstr, d: byte) returns (ok: bool)
      requires ValidData(x)
      requires x.IncAt? || x.MovAtA? || x.MovAtData? || x.XchAt? || x.XchdAt?
      modifies this`ram, this`regs
      ensures ok == ExecData(old(Core()), x, d).Some?
      ensures ok ==> Core() == WithUpdate(old(Core()), ExecData(old(Core()), x, d).value)
    {
      hide ExecData, WithUpdate;
      if x.XchAt? || x.XchdAt? {
        ok := ExchangeMemory(x, d);
      } else {
        ok := StoreMemory(x, d);
      }
    }

    method StoreMemory(x: DataInstr, d: byte) returns (ok: bool)
      requires ValidData(x) && (x.IncAt? || x.MovAtA? || x.MovAtData?)
      modifies this`ram
      ensures ok == ExecData(old(Core()), x, d).Some?
      ensures ok ==> Core() == WithUpdate(old(Core()), ExecData(old(Core()), x, d).value)
    {
      hide Inc, ReadReg;
      ok := true;
      match x {
        case IncAt(r) =>
          var pos := ReadReg(Core(), r) % 128;
          ram := ram[pos := Inc(ram[pos])];
        case MovAtA(r) =>
          ram := ram[ReadReg(Core(), r) % 128 := regs.a];
        case MovAtData(r) =>
          var pos := ReadReg(Core(), r);
          if pos >= 128 { return false; }
          ram := ram[pos := d];
      }
    }

    method ExchangeMemory(x: DataInstr, d: byte) returns (ok: bool)
      requires ValidData(x) && (x.XchAt? || x.XchdAt?)
      modifies this`ram, this`regs
      ensures ok == ExecData(old(Core()), x, d).Some?
      ensures ok ==> Core() == WithUpdate(old(Core()), ExecData(old(Core()), x, d).value)
    {
      hide ReadReg;
      ok := true;
      match x {
        case XchAt(r) =>
          var pos := ReadReg(Core(), r);
          if pos >= 128 { return false; }
          Exchange(pos, ram[pos], regs.a);
        case XchdAt(r) =>
          var pos := ReadReg(Core(), r) % 128;
          var cell: int := ram[pos];
          Exchange(pos, regs.a / 16 * 16 + cell % 16, cell / 16 * 16 + regs.a % 16);
      }
    }

    method Exchange(pos: nat, acc: byte, cell: byte)
      requires pos < 128
      modifies this`ram, this`regs
      ensures Core() == old(Core()).(regs := old(regs).(a := acc), ram := old(ram)[pos := cell])
    {
      regs := regs.(a := acc);
      ram := ram[pos := cell];
    }

    method ApplyData(x: DataInstr, d: byte) returns (ok: bool)
      requires ValidData(x)
      modifies this`ram, this`regs
      ensures ok == ExecData(old(Core()), x, d).Some?
      ensures ok ==> Core() == WithUpdate(old(Core()), ExecData(old(Core()), x, d).value)
    {
      hide ExecAlu, ExecUnary, ExecFlag, WithUpdate;
      ok := true;
      if x.Alu? {
        var v := OperandOf(Core(), x.src, d);
        if v.None? { return false; }
        Accumulate(x.op, v.value);
      } else if x.Unary? {
        ModifyAcc(x.u);
      } else if x.Flag? {
        ModifyFlags(x.f);
      } else if x.Movp? || x.Movp3? {
        ok := LookUp(x, d);
      } else if x.IncReg? || x.DecReg? || x.MovRegA? || x.MovRegData? || x.XchReg? {
        ModifyRegister(x, d);
      } else {
        ok := ModifyMemory(x, d);
      }
    }

    // ----- control flow -----

    method JumpIf(cond: Cond, d: byte)
      requires cond.IfBit? ==> cond.b < 8
      modifies this`regs, this`tf
      ensures Core() == WithFlow(old(Core()), ExecFlow(old(Core()), Jump(cond), d).value)
    {
      hide NearTarget, ExecFlow, WithFlow, Intel8049.Core;
      if !Holds(Core(), cond) {
        NoJumpIs(Core(), cond, d);
      } else {
        if cond == IfTF {
          TimerJumpIs(Core(), d);
          ClearTf();
        } else {
          JumpIs(Core(), cond, d);
        }
        GoTo(NearTarget(Core().regs.pc, d));
      }
    }

    method ClearTf()
      modifies this`tf
      ensures Core() == old(Core()).(tf := false)
    {
      tf := false;
    }

    method GoTo(pc: word)
      modifies this`regs
      ensures Core() == old(Core()).(regs := old(Core()).regs.(pc := pc))
    {
      regs := regs.(pc := pc);
    }

    /** JMPP; false where the source would index the ROM out of range. */
    method JumpThrough() returns (ok: bool)
      modifies this`regs
      ensures var pos := old(regs).pc / 256 * 256 + old(regs).a;
              && ok == (pos < |rom|)
              && (ok ==> regs == old(regs).(pc := old(regs).pc / 256 * 256 + rom[pos]))
    {
      var page := regs.pc / 256 * 256;
      if page + regs.a >= |rom| { return false; }
      ok := true;
      regs := regs.(pc := page + rom[page + regs.a]);
    }

    method ApplyFlow(w: FlowInstr, d: byte) returns (ok: bool)
      requires ValidFlow(w)
      modifies this`regs, this`ram, this`tf, this`inInterrupt
      ensures ok == ExecFlow(old(Core()), w, d).Some?
      ensures ok ==> Core() == WithFlow(old(Core()), ExecFlow(old(Core()), w, d).value)
    {
      hide Push, Pop, FarTarget, NearTarget, Holds, Dec;
      ok := true;
      match w {
        case Jmp(page) => regs := regs.(pc := FarTarget(regs.dbf, page, d));
        case Call(page) =>
          var addr := FarTarget(regs.dbf, page, d);
          PushPc();
          regs := regs.(pc := addr);
        case Ret => PopPc(false);
        case Retr => PopPc(true);
        case Jump(cond) => JumpIf(cond, d);
        case Djnz(r) =>
          var val := Dec(ReadReg(Core(), r));
          WriteReg(r, val);
          if val != 0 {
            regs := regs.(pc := NearTarget(regs.pc, d));
          }
        case Jmpp => ok := JumpThrough();
      }
    }

    // ----- timer and interrupt control -----

    method ApplyControl(k: ControlInstr)
      modifies this`externalInterruptsEnabled, this`tcntInterruptsEnabled, this`timerInterruptRequested,
               this`counterRunning, this`timerRunning, this`cyclesUntilCount, this`regs, this`log
      ensures View() == Controlled(old(View()), k)
    {
      hide ExecControl;
      log := log.(dropped := log.dropped + (if k == DisTcnti && timerInterruptRequested then 1 else 0));
      ControlFields(k);
    }

    method ControlFields(k: ControlInstr)
      modifies this`externalInterruptsEnabled, this`tcntInterruptsEnabled, this`timerInterruptRequested,
               this`counterRunning, this`timerRunning, this`cyclesUntilCount, this`regs
      ensures Core() == ExecControl(old(Core()), k)
    {
      hide Intel8049.Core;
      match k {
        case EnI => EnableExternal(true);
        case DisI => EnableExternal(false);
        case EnTcnti => EnableTcnti();
        case DisTcnti => DisableTcnti();
        case StrtCnt => RunCounter(true, false);
        case StrtT => StartTimer();
        case StopTcnt => RunCounter(false, false);
        case MovTA => LoadTimer();
      }
    }

    method LoadTimer()
      modifies this`regs
      ensures Core() == old(Core()).(regs := old(Core()).regs.(t := old(Core()).regs.a))
    {
      regs := regs.(t := regs.a);
    }

    method EnableExternal(on: bool)
      modifies this`externalInterruptsEnabled
      ensures Core() == old(Core()).(extEnabled := on)
    {
      externalInterruptsEnabled := on;
    }

    method EnableTcnti()
      modifies this`tcntInterruptsEnabled
      ensures Core() == old(Core()).(tcntEnabled := true)
    {
      tcntInterruptsEnabled := true;
    }

    method DisableTcnti()
      modifies this`tcntInterruptsEnabled, this`timerInterruptRequested
      ensures Core() == old(Core()).(tcntEnabled := false, timerRequest := false)
    {
      tcntInterruptsEnabled := false;
      timerInterruptRequested := false;
    }

    method RunCounter(counter: bool, timer: bool)
      modifies this`counterRunning, this`timerRunning
      ensures Core() == old(Core()).(counterRunning := counter, timerRunning := timer)
    {
      counterRunning := counter;
      timerRunning := timer;
    }

    method StartTimer()
      modifies this`counterRunning, this`timerRunning, this`cyclesUntilCount
      ensures Core() == old(Core()).(counterRunning := false, timerRunning := true, countdown := 32)
    {
      counterRunning := false;
      timerRunning := true;
      cyclesUntilCount := 32;
    }

    // ----- ports -----

    method WritePort(p: nat, v: byte)
      requires board.Valid() && p < 3
      modifies board.bus, board.p1, board.p2, board.pid, board.ext, board.panel`inPort1ValueWritten
      ensures board.Valid() && board.View() == ApplyBus(old(board.View()), PortWrite(p, v, board.Now()))
    {
      hide WriteP2;
      if p == 0 {
        board.PortBus(v);
      } else if p == 1 {
        board.PortP1(v);
      } else {
        board.PortP2(v, 255);
      }
    }

    /** The address with a pulse on PROG, which the panel answers; false where it has no such row. */
    method Strobe(address: nibble) returns (ok: bool)
      requires board.Valid()
      modifies board.p2, board.pid, board.ext, board.panel`pinProgValue
      ensures board.Valid() && ok == !(board.panel.inputs != [] && Row(old(board.View()).pid.pc) >= 6)
      ensures ok ==> board.View() == RunBus(old(board.View()), StrobeOps(old(board.View()), address, board.Now()))
    {
      hide WriteP2, Row, ApplyBus;
      ghost var b, keys := board.View(), KeysOf(board.Now(), board.View().pid.pc);
      ok := board.OnPinProgWritten(1);
      board.PortP2(address, 15);
      LowIs(b, address);
      LowKeepsRow(b, address);
      LowIs(board.View(), keys);
      RunOne(b, P2Low(address));
      RunTwo(b, P2Low(address), P2Low(keys));
      ok := board.OnPinProgWritten(0);
    }

    /** MOVX A, @R on the pins. */
    method ReadExternal(pos: byte)
      requires board.Valid()
      modifies board.bus, board.pid, board.ext
      ensures board.View() == MovxRead(old(board.View()), pos)
    {
      hide AleAll, RdAll;
      board.PinAle(1);
      board.PortBus(pos);
      board.PinAle(0);
      board.PinRd(0);
      board.PinRd(1);
    }

    /** MOVX @R, A on the pins. */
    method WriteExternal(pos: byte, data: byte)
      requires board.Valid()
      modifies board.bus, board.pid, board.ext
      ensures board.View() == MovxWrite(old(board.View()), pos, data)
    {
      hide AleAll, WrAll;
      board.PinAle(1);
      board.PortBus(pos);
      board.PinAle(0);
      board.PinWr(0);
      board.PortBus(data);
      board.PinWr(1);
    }

    method DrivePorts(q: PortInstr, d: byte) returns (ok: bool)
      requires board.Valid() && ValidPort(q)
      modifies board.bus, board.p1, board.p2, board.pid, board.ext, board.panel`inPort1ValueWritten, board.panel`pinProgValue
      ensures board.Valid() && ok == !NoSuchRow(old(View()), q)
      ensures ok ==> board.View() == RunBus(old(board.View()), PortOps(Core(), old(board.View()), q, d, board.Now()))
    {
      hide ApplyBus, Or, And, MovxRead, MovxWrite, WriteP2, ReadReg, RunBus, StrobeOps, PortWrite, Row;
      ghost var b, now := board.View(), board.Now();
      ok := true;
      match q {
        case Outl(p) =>
          WritePort(p, regs.a);
          RunOne(b, PortWrite(p, regs.a, now));
        case In(_) => RunNone(b);
        case OrlPort(p) =>
          var v := Or(PortValue(board.View(), p), d);
          WritePort(p, v);
          RunOne(b, PortWrite(p, v, now));
        case AnlPort(p) =>
          var v := And(PortValue(board.View(), p), d);
          WritePort(p, v);
          RunOne(b, PortWrite(p, v, now));
        case MovdIn(p) =>
          ok := Strobe(p);
          if ok { var _ := board.OnPinProgWritten(1); }
        case ExpanderOut(code, p) => ok := StrobeOut(code + p);
        case MovxIn(r) =>
          ReadExternal(ReadReg(Core(), r));
          RunOne(b, BusOp.Read(ReadReg(Core(), r)));
          ReadIs(b, ReadReg(Core(), r));
        case MovxOut(r) =>
          WriteExternal(ReadReg(Core(), r), regs.a);
          RunOne(b, Store(ReadReg(Core(), r), regs.a));
          StoreIs(b, ReadReg(Core(), r), regs.a);
      }
    }

    /** The expander's address and then its data on the low half of P2. */
    method StrobeOut(address: nibble) returns (ok: bool)
      requires board.Valid()
      modifies board.p2, board.pid, board.ext, board.panel`pinProgValue
      ensures board.Valid() && ok == !(board.panel.inputs != [] && Row(old(board.View()).pid.pc) >= 6)
      ensures var ops := StrobeOps(old(board.View()), address, board.Now()) + [P2Low(regs.a % 16)];
              ok ==> board.View() == RunBus(old(board.View()), ops)
    {
      hide ApplyBus, WriteP2, RunBus, StrobeOps, Row;
      ghost var b := board.View();
      ok := Strobe(address);
      if !ok { return; }
      LowIs(board.View(), regs.a % 16);
      RunMore(b, StrobeOps(b, address, board.Now()), P2Low(regs.a % 16));
      board.PortP2(regs.a % 16, 15);
      var _ := board.OnPinProgWritten(1);
    }

    method ApplyPort(q: PortInstr, d: byte) returns (ok: bool)
      requires board.Valid() && ValidPort(q)
      modifies this`regs, this`log, board.bus, board.p1, board.p2, board.pid, board.ext,
               board.panel`inPort1ValueWritten, board.panel`pinProgValue
      ensures board.Valid() && ok == !NoSuchRow(old(View()), q)
      ensures ok ==> View() == ExecPort(old(View()), q, d)
    {
      hide PortOps, RunBus, PortResult, Row, Wiring.View;
      ghost var ops := PortOps(Core(), board.View(), q, d, board.Now());
      ok := DrivePorts(q, d);
      log := log.(bus := log.bus + ops);
      regs := regs.(a := PortResult(regs.a, board.View(), q));
    }

    // ----- one instruction -----

    /** The operand byte and the second machine cycle. */
    method FetchOperand(i: Instr) returns (ok: bool, d: byte)
      modifies this`tf, this`timerInterruptRequested, this`regs, this`cyclesUntilCount, this`log
      ensures ok == Operand(old(View()), i).Some?
      ensures ok ==> Operand(old(View()), i).value == (d, View())
    {
      hide Tick, Advance, HasOperand, Cycles;
      ok, d := true, 0;
      OperandCosts(i);
      if HasOperand(i) {
        ok, d := Fetch();
        if !ok { return; }
      }
      if Cycles(i) == 2 {
        DoTick();
      }
    }

    method ApplyInstr(i: Instr, d: byte) returns (ok: bool)
      requires board.Valid() && ValidInstr(i)
      modifies this, board.bus, board.p1, board.p2, board.pid, board.ext, board.panel
      ensures board.Valid() && ok == Exec(old(View()), i, d).Some?
      ensures ok ==> View() == Exec(old(View()), i, d).value
    {
      hide ExecData, ExecFlow, ExecPort, ExecControl, NoSuchRow, WithUpdate, WithFlow, ValidData, ValidFlow, ValidPort;
      match i {
        case Data(x) => ok := ApplyData(x, d);
        case Flow(w) => ok := ApplyFlow(w, d);
        case Control(k) =>
          ApplyControl(k);
          ok := true;
        case Port(q) => ok := ApplyPort(q, d);
        case _ => ok := true;
      }
    }

    /** The user of the panel acts between instructions, from another thread. */
    method LetUserAct()
      requires board.Valid()
      modifies this`log, board.p1, board.panel
      ensures board.Valid() && View() == UserActs(old(View()))
    {
      ghost var turned := Turned(board.panel.inputs);
      log := log.(bus := log.bus + if turned.Some? then [OutP1(turned.value)] else []);
      board.UserActs();
    }

    /** Executes one instruction and returns its machine cycles; false where the source aborts or
        indexes out of range. */
    method ExecuteSingleInstr() returns (ok: bool, cycles: nat)
      requires board.Valid()
      modifies this, board.bus, board.p1, board.p2, board.pid, board.ext, board.panel
      ensures board.Valid() && ok == Step(old(View())).Next?
      ensures ok ==> Step(old(View())) == Next(View(), cycles)
    {
      hide Decode, Tick, Advance, Exec, Operand, HandleInterrupts, UserActs, Cycles, ValidInstr;
      cycles := 0;
      var op: byte;
      ok, op := Fetch();
      if !ok { return; }
      DoTick();
      var i := Decode(op);
      var d: byte;
      ok, d := FetchOperand(i);
      if !ok { return; }
      ok := ApplyInstr(i, d);
      if !ok { return; }
      ServeInterrupts();
      LetUserAct();
      cycles := Cycles(i);
    }

    /** Runs instructions until the cycle budget is used up: on success n or n + 1 cycles are spent. */
    method Execute(budget: int) returns (ok: bool, ghost run: seq<Machine>)
      requires board.Valid()
      modifies this, board.bus, board.p1, board.p2, board.pid, board.ext, board.panel
      ensures board.Valid() && IsRun(run) && run[0] == old(View())
      ensures ok ==> run[|run| - 1] == View()
      ensures ok && budget > 0 ==> old(View()).log.ticks + budget <= View().log.ticks <= old(View()).log.ticks + budget + 1
      ensures budget <= 0 ==> ok && View() == old(View())
      ensures !ok ==> Step(run[|run| - 1]).Stuck?
    {
      hide Step;
      var cycles := budget;
      ok, run := true, [View()];
      while cycles > 0
        invariant ok && board.Valid() && IsRun(run) && run[0] == old(View()) && run[|run| - 1] == View()
        invariant View().log.ticks + cycles == old(View()).log.ticks + budget
        invariant (budget > 0 ==> cycles >= -1) && (budget <= 0 ==> cycles == budget && View() == old(View()))
        decreases cycles
      {
        ghost var before := View();
        var spent;
        ok, spent := ExecuteSingleInstr();
        if !ok { return; }
        TimerRuns.StepTicks(before);
        StepCost(before);
        run := run + [View()];
        cycles := cycles - spent;
      }
    }

    /** Intel8049::reset. */
    method ResetCpu()
      requires board.Valid()
      modifies this, board.bus, board.p1, board.p2, board.pid, board.ext, board.panel
      ensures board.Valid() && View() == CpuReset(old(View()))
    {
      hide ApplyBus, Zeros, UserActs, PortWrite;
      ghost var start, now := board.View(), board.Now();
      ResetCore();
      WritePort(0, 0x00);
      WritePort(1, 0xff);
      WritePort(2, 0xff);
      ResetOps(now);
      RunThree(start, OutBus(0), PortWrite(1, 255, now), P2Full(255));
      log := log.(bus := log.bus + [OutBus(0), PortWrite(1, 255, now), P2Full(255)]);
      LetUserAct();
    }

    method ResetCore()
      modifies this
      ensures Core() == CpuState(false, true, false, false, false,
                                 Regs(old(regs.t), 0, 0, 8, 0, 0),
                                 false, false, false, false, 0, false, old(rom), Zeros(128))
      ensures log == old(log)
    {
      hide Zeros;
      LoadPins(false, true, false, false, false);
      LoadControl(false, false, 0, false);
      RunCounter(false, false);
      regs := Regs(regs.t, 0, 0, 0x8, 0, 0);
      ram := Zeros(128);
    }

    /** Loads a saved state; the ports are not part of it. */
    method InitFromState(s: CpuState)
      modifies this
      ensures Core() == s && log == old(log)
    {
      LoadPins(s.tf, s.notInt, s.timerRequest, s.t0, s.t1);
      LoadControl(s.extEnabled, s.tcntEnabled, s.countdown, s.inInterrupt);
      RunCounter(s.counterRunning, s.timerRunning);
      LoadMemory(s.regs, s.ram, s.rom);
    }

    method LoadMemory(registers: Regs, memory: Ram128, content: seq<byte>)
      modifies this`regs, this`ram, this`rom
      ensures Core() == old(Core()).(regs := registers, ram := memory, rom := content)
    {
      regs, ram, rom := registers, memory, content;
    }

    /** The saved fields are the whole state of the processor apart from its ports. */
    method SaveToState() returns (s: CpuState)
      ensures s == Core()
    {
      s := CpuState(tf, notInt, timerInterruptRequested, t0, t1, regs,
                    externalInterruptsEnabled, tcntInterruptsEnabled, counterRunning, timerRunning,
                    cyclesUntilCount, inInterrupt, rom, ram);
    }

    method LoadPins(flag: bool, pinInt: bool, request: bool, pin0: bool, pin1: bool)
      modifies this`tf, this`notInt, this`timerInterruptRequested, this`t0, this`t1
      ensures Core() == old(Core()).(tf := flag, notInt := pinInt, timerRequest := request, t0 := pin0, t1 := pin1)
    {
      tf, notInt, timerInterruptRequested, t0, t1 := flag, pinInt, request, pin0, pin1;
    }

    method LoadControl(ext: bool, tcnt: bool, countdown: byte, serving: bool)
      modifies this`externalInterruptsEnabled, this`tcntInterruptsEnabled, this`cyclesUntilCount, this`inInterrupt
      ensures Core() == old(Core()).(extEnabled := ext, tcntEnabled := tcnt, countdown := countdown, inInterrupt := serving)
    {
      externalInterruptsEnabled, tcntInterruptsEnabled := ext, tcnt;
      cyclesUntilCount, inInterrupt := countdown, serving;
    }
  }

  /** What an instruction on a register leaves. */
  lemma RegisterIs(c: CpuState, x: DataInstr, d: byte)
    requires ValidData(x) && (x.IncReg? || x.DecReg? || x.MovRegA? || x.MovRegData? || x.XchReg?)
    ensures ExecData(c, x, d).Some?
    ensures var k, v := RegAddr(c.regs.psw, x.r), ReadReg(c, x.r);
            var after := if x.IncReg? then Inc(v) else if x.DecReg? then Dec(v) else if x.MovRegData? then d else c.regs.a;
            WithUpdate(c, ExecData(c, x, d).value) ==
              c.(ram := c.ram[k := after], regs := c.regs.(a := if x.XchReg? then v else c.regs.a))
  {
    hide Inc, Dec, RegAddr;
  }

  lemma NoJumpIs(c: CpuState, cond: Cond, d: byte)
    requires (cond.IfBit? ==> cond.b < 8) && !Holds(c, cond)
    ensures WithFlow(c, ExecFlow(c, Jump(cond), d).value) == c
  {
    hide Holds, NearTarget;
  }

  lemma JumpIs(c: CpuState, cond: Cond, d: byte)
    requires (cond.IfBit? ==> cond.b < 8) && Holds(c, cond) && cond != IfTF
    ensures WithFlow(c, ExecFlow(c, Jump(cond), d).value) == c.(regs := c.regs.(pc := NearTarget(c.regs.pc, d)))
  {
    hide Holds, NearTarget;
  }

  lemma TimerJumpIs(c: CpuState, d: byte)
    requires c.tf
    ensures WithFlow(c, ExecFlow(c, Jump(IfTF), d).value) == c.(tf := false).(regs := c.regs.(pc := NearTarget(c.regs.pc, d)))
  {
    hide NearTarget;
  }

  lemma StepCost(m: Machine)
    requires Step(m).Next?
    ensures 1 <= Step(m).cycles <= 2
  {
    hide Decode, Body, HandleInterrupts;
  }

  lemma OperandCosts(i: Instr)
    ensures HasOperand(i) ==> Cycles(i) == 2
  {
  }

  lemma AdjustFrame(g: Regs)
    ensures DecimalAdjust(g) == g.(a := DecimalAdjust(g).a, psw := DecimalAdjust(g).psw)
  {
    hide SetCarry, Aux, Carry;
  }

  /** The update leaves everything but A and the PSW alone. */
  predicate SameRest(c: CpuState, r: Update) {
    r.dbf == c.regs.dbf && r.f1 == c.regs.f1 && r.ram == c.ram
  }

  lemma UnaryRest(c: CpuState, u: UnaryOp)
    ensures SameRest(c, ExecUnary(c, u))
  {
    hide SetCarry, Carry, Not, Inc, Dec, DecimalAdjust;
  }

  lemma VectorKeepsRequest(c: CpuState)
    ensures forall f :: WithFlow(c, f).(timerRequest := c.timerRequest) == WithFlow(c, f)
  {
  }

  lemma LookUpIs(c: CpuState, x: DataInstr, d: byte)
    requires x.Movp? || x.Movp3?
    ensures var pos := if x.Movp? then c.regs.pc % 4096 / 256 * 256 + c.regs.a else 0x300 + c.regs.a;
            ExecData(c, x, d) == if pos < |c.rom| then Some(Same(c).(a := c.rom[pos])) else None
  {
  }

  lemma ResetOps(now: Option<Input>)
    ensures PortWrite(0, 0, now) == OutBus(0) && PortWrite(2, 255, now) == P2Full(255)
  {
  }

  lemma LowKeepsRow(b: BoardState, n: nibble)
    ensures WriteP2(b, n, 15).pid == b.pid
  {
    MemoryMap.P2LowEffect(b, n);
    hide WriteP2;
  }

  lemma RunNone(b: BoardState)
    ensures RunBus(b, []) == b
  {
  }

  lemma RunMore(b: BoardState, h: seq<BusOp>, op: BusOp)
    ensures RunBus(b, h + [op]) == ApplyBus(RunBus(b, h), op)
  {
    hide ApplyBus;
    assert (h + [op])[..|h|] == h;
  }

  lemma {:induction false} RunOne(b: BoardState, op: BusOp)
    ensures RunBus(b, [op]) == ApplyBus(b, op)
  {
    hide ApplyBus;
    assert RunBus(b, [op][..0]) == b;
  }

  lemma {:induction false} RunTwo(b: BoardState, op1: BusOp, op2: BusOp)
    ensures RunBus(b, [op1, op2]) == ApplyBus(ApplyBus(b, op1), op2)
  {
    hide ApplyBus;
    RunOne(b, op1);
    assert [op1, op2][..1] == [op1];
  }

  lemma {:induction false} RunThree(b: BoardState, op1: BusOp, op2: BusOp, op3: BusOp)
    ensures RunBus(b, [op1, op2, op3]) == ApplyBus(ApplyBus(ApplyBus(b, op1), op2), op3)
  {
    hide ApplyBus;
    RunTwo(b, op1, op2);
    assert [op1, op2, op3][..2] == [op1, op2];
  }

  lemma LowIs(b: BoardState, n: nibble)
    ensures ApplyBus(b, P2Low(n)) == WriteP2(b, n, 15)
  {
    hide WriteP2;
  }

  lemma ReadIs(b: BoardState, pos: byte)
    ensures ApplyBus(b, BusOp.Read(pos)) == MovxRead(b, pos)
  {
    hide MovxRead;
  }

  lemma StoreIs(b: BoardState, pos: byte, data: byte)
    ensures ApplyBus(b, Store(pos, data)) == MovxWrite(b, pos, data)
  {
    hide MovxWrite;
  }
}
