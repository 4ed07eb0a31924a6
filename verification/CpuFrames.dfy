/** What each group of instructions leaves alone. */
module CpuFrames {
  import opened Bits
  import opened Board
  import opened Panel
  import opened Cpu
  import opened Wrappers

  /** The pins, the ROM and the timer and interrupt-enable fields. */
  predicate SameControl(c: CpuState, c': CpuState) {
    && c'.rom == c.rom && c'.notInt == c.notInt && c'.t0 == c.t0 && c'.t1 == c.t1
    && c'.regs.t == c.regs.t && c'.countdown == c.countdown
    && c'.timerRunning == c.timerRunning && c'.counterRunning == c.counterRunning
    && c'.timerRequest == c.timerRequest
    && c'.extEnabled == c.extEnabled && c'.tcntEnabled == c.tcntEnabled
  }

  lemma FlowInInterrupt(c: CpuState, w: FlowInstr, d: byte)
    requires ValidFlow(w) && ExecFlow(c, w, d).Some?
    ensures ExecFlow(c, w, d).value.inInterrupt == (c.inInterrupt && w != Retr)
  {
    hide Holds, NearTarget, FarTarget, ReadReg, Dec;
  }

  /** Only the timer-control instructions and RETR reach the timer and interrupt fields. */
  predicate Framed(m: Machine, m': Machine, i: Instr) {
    && m'.cpu.inInterrupt == (m.cpu.inInterrupt && i != Flow(Retr))
    && m'.cpu.rom == m.cpu.rom && m'.cpu.notInt == m.cpu.notInt
    && (!i.Control? ==> SameControl(m.cpu, m'.cpu) && m'.log.dropped == m.log.dropped)
    && (!i.Data? && !i.Flow? ==> m'.cpu.ram == m.cpu.ram && m'.cpu.regs.psw == m.cpu.regs.psw)
    && (!i.Port? ==> m'.board == m.board && m'.log.bus == m.log.bus)
    && m'.log.ticks == m.log.ticks && m'.log.overflows == m.log.overflows && m'.log.merged == m.log.merged
    && m'.log.timerEntries == m.log.timerEntries && m'.log.extEntries == m.log.extEntries
    && m'.inputs == m.inputs
  }

  lemma UpdateFramed(m: Machine, u: Update, x: DataInstr)
    ensures Framed(m, m.(cpu := WithUpdate(m.cpu, u)), Data(x))
  {
  }

  lemma FlowFramed(m: Machine, f: Flowed, w: FlowInstr)
    requires f.inInterrupt == (m.cpu.inInterrupt && w != Retr)
    ensures Framed(m, m.(cpu := WithFlow(m.cpu, f)), Flow(w))
  {
  }

  lemma PortFramed(m: Machine, q: PortInstr, d: byte)
    requires ValidPort(q)
    ensures Framed(m, ExecPort(m, q, d), Port(q))
  {
    hide PortOps, PortResult, RunBus;
  }

  function Controlled(m: Machine, k: ControlInstr): Machine {
    var drop := if k == DisTcnti && m.cpu.timerRequest then 1 else 0;
    m.(cpu := ExecControl(m.cpu, k), log := m.log.(dropped := m.log.dropped + drop))
  }

  lemma ExecControlIs(m: Machine, k: ControlInstr, d: byte)
    ensures Exec(m, Control(k), d) == Some(Controlled(m, k))
  {
    hide ExecControl;
  }

  lemma ExecDataIs(m: Machine, x: DataInstr, d: byte)
    requires ValidData(x) && Exec(m, Data(x), d).Some?
    ensures ExecData(m.cpu, x, d).Some?
    ensures Exec(m, Data(x), d).value == m.(cpu := WithUpdate(m.cpu, ExecData(m.cpu, x, d).value))
  {
    hide ExecData, WithUpdate, ValidData;
  }

  lemma ExecFlowIs(m: Machine, w: FlowInstr, d: byte)
    requires ValidFlow(w) && Exec(m, Flow(w), d).Some?
    ensures ExecFlow(m.cpu, w, d).Some?
    ensures Exec(m, Flow(w), d).value == m.(cpu := WithFlow(m.cpu, ExecFlow(m.cpu, w, d).value))
  {
    hide ExecFlow, WithFlow, ValidFlow;
  }

  lemma ControlFramed(m: Machine, k: ControlInstr)
    ensures Framed(m, Controlled(m, k), Control(k))
  {
    match k {
      case EnI =>
      case DisI =>
      case EnTcnti =>
      case DisTcnti =>
      case StrtCnt =>
      case StrtT =>
      case StopTcnt =>
      case MovTA =>
    }
  }

  lemma ExecFrame(m: Machine, i: Instr, d: byte)
    requires ValidInstr(i) && Exec(m, i, d).Some?
    ensures Framed(m, Exec(m, i, d).value, i)
  {
    hide ExecData, ExecFlow, ExecPort, ExecControl, WithUpdate, WithFlow, ValidData, ValidFlow, ValidPort;
    match i {
      case Data(x) => UpdateFramed(m, ExecData(m.cpu, x, d).value, x);
      case Flow(w) =>
        FlowInInterrupt(m.cpu, w, d);
        FlowFramed(m, ExecFlow(m.cpu, w, d).value, w);
      case Port(q) => PortFramed(m, q, d);
      case Control(k) => ControlFramed(m, k);
      case _ =>
    }
  }

  /** What fetching and ticking never touch. */
  predicate Ticked(m: Machine, m': Machine, n: nat) {
    var c, c' := m.cpu, m'.cpu;
    && c'.rom == c.rom && c'.ram == c.ram && c'.inInterrupt == c.inInterrupt && c'.notInt == c.notInt
    && c'.regs == c.regs.(t := c'.regs.t, pc := c'.regs.pc)
    && c'.timerRunning == c.timerRunning && c'.counterRunning == c.counterRunning
    && c'.extEnabled == c.extEnabled && c'.tcntEnabled == c.tcntEnabled
    && m'.board == m.board && m'.inputs == m.inputs
    && m'.log.ticks == m.log.ticks + n && m'.log.bus == m.log.bus && m'.log.dropped == m.log.dropped
    && m'.log.timerEntries == m.log.timerEntries && m'.log.extEntries == m.log.extEntries
  }

  lemma CountFrame(m: Machine)
    ensures Ticked(m, IncCounter(m), 0) && IncCounter(m).cpu.regs.pc == m.cpu.regs.pc
  {
    hide Inc;
  }

  lemma TickFrame(m: Machine)
    ensures Ticked(m, Tick(m), 1) && Tick(m).cpu.regs.pc == m.cpu.regs.pc
  {
    hide IncCounter, Dec;
    CountFrame(m.(log := m.log.(ticks := m.log.ticks + 1), cpu := m.cpu.(countdown := 32)));
  }

  /** Fetching and ticking: the instruction sees the registers and RAM of the machine it started in,
      the PC past its bytes, and as many ticks as it has cycles. */
  lemma PreparedFrame(m: Machine)
    requires Prepared(m).Some?
    ensures var (i, d, p) := Prepared(m).value;
            && i == Decode(FetchByte(m)) && ValidInstr(i)
            && Ticked(m, p, Cycles(i))
            && p.cpu.regs.pc == (m.cpu.regs.pc + if HasOperand(i) then 2 else 1) % 65536
  {
    hide Tick, Decode, ValidInstr;
    var i := Decode(FetchByte(m));
    var m1 := Tick(Advance(m));
    TickFrame(Advance(m));
    TickFrame(m1);
    TickFrame(Advance(m1));
  }

  lemma BodyUnfold(m: Machine)
    requires Body(m).Some?
    ensures Prepared(m).Some?
    ensures var (i, d, p) := Prepared(m).value; ValidInstr(i) && Exec(p, i, d) == Body(m)
  {
    hide Tick, Exec;
  }

  /** The switches reach P1 and nothing else. */
  lemma UserFrame(m: Machine)
    ensures var m' := UserActs(m);
            && m'.cpu == m.cpu && m'.board == m.board.(p1 := m'.board.p1)
            && m'.log == m.log.(bus := m'.log.bus) && m'.inputs == Coming(m.inputs)
  {
  }

  /** What serving an interrupt never touches. */
  predicate Served(m: Machine, m': Machine) {
    var c, c' := m.cpu, m'.cpu;
    && c'.rom == c.rom && c'.notInt == c.notInt && c'.t0 == c.t0 && c'.t1 == c.t1 && c'.tf == c.tf
    && c'.regs == c.regs.(pc := c'.regs.pc, psw := c'.regs.psw)
    && c'.countdown == c.countdown && c'.timerRunning == c.timerRunning && c'.counterRunning == c.counterRunning
    && c'.extEnabled == c.extEnabled && c'.tcntEnabled == c.tcntEnabled
    && (c'.regs.psw == c.regs.psw || c'.regs.psw == Push(Still(c)).psw)
    && m'.board == m.board && m'.inputs == m.inputs
    && m'.log == m.log.(timerEntries := m'.log.timerEntries, extEntries := m'.log.extEntries)
    && m'.log.timerEntries - m.log.timerEntries == (if c.timerRequest then 1 else 0) - (if c'.timerRequest then 1 else 0)
  }

  lemma PushKeepsTf(f: Flowed)
    ensures Push(f).tf == f.tf
  {
    hide Or;
  }

  lemma VectorServed(m: Machine, f: Flowed, request: bool, log: Log)
    requires f.tf == m.cpu.tf && f.psw == Push(Still(m.cpu)).psw
    requires log == m.log.(timerEntries := log.timerEntries, extEntries := log.extEntries)
    requires log.timerEntries - m.log.timerEntries == (if m.cpu.timerRequest then 1 else 0) - (if request then 1 else 0)
    ensures Served(m, m.(cpu := WithFlow(m.cpu, f).(timerRequest := request), log := log))
  {
    hide Push;
  }

  lemma SameRequest(c: CpuState, f: Flowed)
    ensures WithFlow(c, f).(timerRequest := c.timerRequest) == WithFlow(c, f)
  {
  }

  lemma HandleFrame(m: Machine)
    ensures Served(m, HandleInterrupts(m))
  {
    var c := m.cpu;
    var f := Push(Still(c));
    PushKeepsTf(Still(c));
    SameRequest(c, f.(pc := 3, inInterrupt := true));
    VectorServed(m, f.(pc := 3, inInterrupt := true), c.timerRequest, m.log.(extEntries := m.log.extEntries + 1));
    if c.timerRequest {
      VectorServed(m, f.(pc := 7, inInterrupt := true), false, m.log.(timerEntries := m.log.timerEntries + 1));
    }
    hide Push, WithFlow;
  }
}
