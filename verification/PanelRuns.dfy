/** What a program sees of the panel: the keys of the row it selects, and the switches. */
module PanelRuns {
  import opened Bits
  import opened Board
  import opened BusRuns
  import opened Cpu
  import opened CpuFrames
  import opened DataPorts
  import Interrupts
  import opened MemoryMap
  import opened Panel
  import opened TimerRuns
  import opened Wrappers

  // ----- the keyboard -----

  lemma BitOfLow(x: nat, n: nat, k: nat)
    requires k < n
    ensures Bit(x % Pow2(n), k) == Bit(x, k)
  {
    HalfOfLow(x, n);
    if k > 0 { BitOfLow(x / 2, n - 1, k - 1); }
  }

  lemma HalfOfLow(x: nat, n: nat)
    requires n > 0
    ensures x % Pow2(n) % 2 == x % 2 && x % Pow2(n) / 2 == x / 2 % Pow2(n - 1)
  {
    assert Pow2(n) == 2 * Pow2(n - 1);
    hide Pow2;
    Halves(x, Pow2(n - 1), x / 2 / Pow2(n - 1), x / 2 % Pow2(n - 1));
  }

  lemma Halves(x: nat, p: nat, q: nat, r: nat)
    requires p > 0 && x / 2 == p * q + r && r < p
    ensures x % (2 * p) == 2 * r + x % 2
    ensures x % (2 * p) % 2 == x % 2 && x % (2 * p) / 2 == r
  {
    TwiceOf(p, q);
    RemainderIs(x, 2 * p, q, 2 * r + x % 2);
    HalfOf(r, x % 2);
  }

  lemma HalfOf(r: nat, b: nat)
    requires b < 2
    ensures (2 * r + b) % 2 == b && (2 * r + b) / 2 == r
  {
  }

  lemma TwiceOf(p: nat, q: nat)
    ensures 2 * (p * q) == (2 * p) * q
  {
  }

  lemma RemainderIs(x: nat, d: nat, q: nat, r: nat)
    requires d > 0 && x == d * q + r && r < d
    ensures x % d == r
  {
    var k: int := x / d - q;
    assert d * k + x % d == r by { assert d * (x / d) == d * q + d * k; }
    assert k > 0 ==> d * k >= d;
    assert k < 0 ==> d * k + d <= 0;
  }

  /** The low half of P2 is the nibble last put there. */
  lemma LowHalf(p2: byte, n: nibble)
    ensures Written(p2, n, 15) % 16 == n
  {
    var now := Written(p2, n, 15);
    assert Pow2(4) == 16;
    assert Bit(15, 0) == 1 && Bit(15, 1) == 1 && Bit(15, 2) == 1 && Bit(15, 3) == 1;
    hide Bit, Pow2;
    forall k | 0 <= k < 4 ensures Bit(now % 16, k) == Bit(n, k) {
      BitOfLow(now, 4, k);
      BitOfWritten(p2, n, 15, k);
    }
    BitsDetermine(now % 16, n, 4);
  }

  /** After the pulse on PROG the keys of the selected row are on the low half of P2. */
  lemma StrobeShows(b: BoardState, address: nibble, now: Option<Input>)
    requires now.Some?
    ensures RunBus(b, StrobeOps(b, address, now)).p2 % 16 == KeysOf(now, b.pid.pc)
  {
    hide WriteP2, Written, KeysOf;
    var ops := StrobeOps(b, address, now);
    assert ops[..1] == [P2Low(address)] && ops[..1][..0] == [];
    var b1 := ApplyBus(b, P2Low(address));
    assert RunBus(b, []) == b;
    assert RunBus(b, ops[..1]) == b1;
    P2LowEffect(b1, KeysOf(now, b.pid.pc));
    LowHalf(b1.p2, KeysOf(now, b.pid.pc));
  }

  /** MOVD A,Pp leaves in A the keys of the row that port C of the main chip selects. */
  lemma MovdStep(m: Machine, p: nat)
    requires Step(m).Next? && p < 4 && Decode(FetchByte(m)) == Port(MovdIn(p)) && m.inputs != []
    ensures Row(m.board.pid.pc) < 6 && Body(m).value.cpu.regs.a == m.inputs[0].keys[Row(m.board.pid.pc)]
  {
    hide Decode, Prepared, HandleInterrupts, UserActs, Exec, Row, RunBus, StrobeOps;
    BodyUnfold(m);
    PreparedFrame(m);
    var (i, d, p1) := Prepared(m).value;
    ExecPortIs(p1, MovdIn(p), d);
    StrobeShows(m.board, p, Current(m.inputs));
  }

  /** For every program and every user: a key scan reads the keys held in the row that the program last wrote to
      port C of the main chip, the row being the lowest 0 of that byte. */
  lemma KeysSeen(m: Machine, ms: seq<Machine>, p: nat)
    requires IsRun(ms) && ms[0] == CpuReset(m) && p < 4 && ms[|ms| - 1].inputs != []
    requires Step(ms[|ms| - 1]).Next? && Decode(FetchByte(ms[|ms| - 1])) == Port(MovdIn(p))
    ensures var z := ms[|ms| - 1];
            var row := Row(LastWritten(SinceReset(m, ms), Main, PortC));
            row < 6 && Body(z).value.cpu.regs.a == z.inputs[0].keys[row]
  {
    hide Step, Body, CpuReset, SinceReset, LastWritten, Decode, Row;
    MovdStep(ms[|ms| - 1], p);
    ProgramsSeeByteMap(m, ms);
    PortCIs(ms[|ms| - 1].board, SinceReset(m, ms));
  }

  lemma PortCIs(b: BoardState, h: seq<BusOp>)
    requires Matches(b, h)
    ensures b.pid.pc == LastWritten(h, Main, PortC)
  {
    hide LastWritten, Selected, IoMode;
    assert Content(b.pid, PortC) == LastWritten(h, Main, PortC);
  }

  // ----- the switches -----

  /** The switches never change without being operated. */
  predicate Announced(inputs: seq<Input>) {
    forall i, j :: 0 <= i < |inputs| && j == i + 1 < |inputs| && inputs[i].switches != inputs[j].switches ==> inputs[j].touched
  }

  /** P1 is at the position of the switches. */
  predicate Shown(m: Machine) {
    m.inputs != [] ==> m.board.p1 == m.inputs[0].switches
  }

  lemma OpKeepsP1(b: BoardState, op: BusOp)
    requires !op.OutP1?
    ensures ApplyBus(b, op).p1 == b.p1
  {
    hide WriteP2, MovxRead, MovxWrite;
    match op {
      case P2Full(v) => P2FullEffect(b, v);
      case P2Low(n) => P2LowEffect(b, n);
      case Read(pos) => ReadEffect(b, pos);
      case Store(pos, data) => StoreEffect(b, pos, data);
      case OutBus(_) =>
    }
  }

  predicate Answers(op: BusOp, switches: byte) {
    op.OutP1? ==> op.v == switches
  }

  /** Operations that write nothing but the switches to P1 leave it as it shows. */
  lemma OpsKeepShown(b: BoardState, h: seq<BusOp>, switches: byte)
    requires b.p1 == switches && forall i :: 0 <= i < |h| ==> Answers(h[i], switches)
    ensures RunBus(b, h).p1 == switches
  {
    if h != [] {
      var before, op := h[..|h| - 1], h[|h| - 1];
      OpsKeepShown(b, before, switches);
      assert Answers(op, switches);
      if op.OutP1? {
      } else {
        hide ApplyBus;
        OpKeepsP1(RunBus(b, before), op);
      }
    }
  }

  /** Whatever a port instruction writes to P1, the panel answers with the switches. */
  lemma PortAnswers(c: CpuState, b: BoardState, q: PortInstr, d: byte, now: Option<Input>)
    requires ValidPort(q) && now.Some?
    ensures var ops := PortOps(c, b, q, d, now); forall i :: 0 <= i < |ops| ==> Answers(ops[i], now.value.switches)
  {
    hide Or, And, ReadReg, PortValue, KeysOf;
  }

  lemma PortShown(m: Machine, q: PortInstr, d: byte)
    requires ValidPort(q) && Shown(m)
    ensures Shown(ExecPort(m, q, d))
  {
    if m.inputs != [] {
      PortAnswers(m.cpu, m.board, q, d, Current(m.inputs));
      hide PortOps, RunBus, PortResult, Answers;
      OpsKeepShown(m.board, PortOps(m.cpu, m.board, q, d, Current(m.inputs)), m.inputs[0].switches);
    }
  }

  lemma ExecShown(m: Machine, i: Instr, d: byte)
    requires ValidInstr(i) && Exec(m, i, d).Some? && Shown(m)
    ensures Shown(Exec(m, i, d).value)
  {
    hide Exec, ExecPort, ValidData, ValidFlow, ValidPort;
    ExecFrame(m, i, d);
    if i.Port? {
      ExecPortIs(m, i.q, d);
      PortShown(m, i.q, d);
    }
  }

  lemma UserShown(m: Machine)
    requires Shown(m) && Announced(m.inputs)
    ensures Shown(UserActs(m)) && Announced(UserActs(m).inputs)
  {
    if |m.inputs| > 1 {
      assert m.inputs[1..][0] == m.inputs[1];
    }
    forall i, j | 0 <= i < |Coming(m.inputs)| && j == i + 1 < |Coming(m.inputs)|
        && Coming(m.inputs)[i].switches != Coming(m.inputs)[j].switches
      ensures Coming(m.inputs)[j].touched
    {
      assert m.inputs[i + 1].switches != m.inputs[j + 1].switches;
    }
  }

  lemma HandleInputs(m: Machine)
    ensures HandleInterrupts(m).inputs == m.inputs
  {
    hide HandleInterrupts, Push;
    HandleFrame(m);
  }

  lemma StepShown(m: Machine)
    requires Step(m).Next? && Shown(m) && Announced(m.inputs)
    ensures Shown(Step(m).m) && Announced(Step(m).m.inputs)
  {
    hide Exec, Prepared, HandleInterrupts, UserActs, Announced, Decode;
    BodyUnfold(m);
    PreparedFrame(m);
    var (i, d, p) := Prepared(m).value;
    ExecFrame(p, i, d);
    ExecShown(p, i, d);
    HandleBoard(Body(m).value);
    HandleInputs(Body(m).value);
    UserShown(HandleInterrupts(Body(m).value));
  }

  lemma RunShown(ms: seq<Machine>)
    requires IsRun(ms) && Shown(ms[0]) && Announced(ms[0].inputs)
    ensures Shown(ms[|ms| - 1]) && Announced(ms[|ms| - 1].inputs)
  {
    hide Step, Shown, Announced;
    if |ms| > 1 {
      RunInit(ms);
      RunShown(ms[..|ms| - 1]);
      StepShown(ms[|ms| - 2]);
    }
  }

  lemma ResetShown(m: Machine)
    requires Announced(m.inputs)
    ensures Shown(CpuReset(m)) && Announced(CpuReset(m).inputs)
  {
    var b := m.(board := m.board.(p1 := AnsweredP1(Current(m.inputs), 255)));
    UserShown(b);
    ResetBoard(m);
    var a := m.board.(bus := 0, p1 := ShownAfterReset(m));
    P2FullEffect(a, 255);
    hide WriteP2, RunBus, Announced, Zeros;
  }

  /** For every program and every user who changes the switches only by operating them: from a reset on, P1 shows
      the switches, whatever the program writes to it, and IN A,P1 reads them. */
  lemma SwitchesSeen(m: Machine, ms: seq<Machine>)
    requires IsRun(ms) && ms[0] == CpuReset(m) && Announced(m.inputs) && ms[|ms| - 1].inputs != []
    ensures var z := ms[|ms| - 1];
            && z.board.p1 == z.inputs[0].switches
            && (Step(z).Next? && Decode(FetchByte(z)) == Port(In(1)) ==> Body(z).value.cpu.regs.a == z.inputs[0].switches)
  {
    hide Step, Body, CpuReset, Announced, Decode;
    ResetShown(m);
    RunShown(ms);
    var z := ms[|ms| - 1];
    if Step(z).Next? {
      Interrupts.CanFetchStep(z);
      if Decode(FetchByte(z)) == Port(In(1)) { InStep(z); }
    }
  }

  lemma InStep(m: Machine)
    requires Step(m).Next? && Decode(FetchByte(m)) == Port(In(1))
    ensures Body(m).Some? && Body(m).value.cpu.regs.a == m.board.p1
  {
    hide Decode, Prepared, HandleInterrupts, UserActs, Exec;
    BodyUnfold(m);
    PreparedFrame(m);
    var (i, d, p) := Prepared(m).value;
    ExecPortIs(p, In(1), d);
  }
}
