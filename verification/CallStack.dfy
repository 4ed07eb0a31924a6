/** The call stack in RAM cells 8..23 against an abstract stack of return frames. */
module CallStack {
  import opened Bits
  import opened Cpu
  import opened CpuFrames
  import opened TimerRuns
  import opened Interrupts

  /** A return address and the upper half of the PSW saved with it. */
  datatype Frame = Frame(pc: nat, upper: nat)

  datatype StackOp = PushFrame(f: Frame) | PopFrame

  // ----- the abstract stack: a LIFO that remembers the eight most recent frames -----

  function ApplyOp(s: seq<Frame>, op: StackOp): seq<Frame> {
    match op
    case PushFrame(f) => (if |s| == 8 then s[1..] else s) + [f]
    case PopFrame => if s == [] then [] else s[..|s| - 1]
  }

  function ApplyOps(s: seq<Frame>, ops: seq<StackOp>): seq<Frame> {
    if ops == [] then s else ApplyOp(ApplyOps(s, ops[..|ops| - 1]), ops[|ops| - 1])
  }

  // ----- the concrete stack -----

  function Slot(ram: Ram128, k: nat): Frame
    requires k < 8
  {
    var low: int, high: int := ram[8 + 2 * k], ram[9 + 2 * k];
    Frame(high % 16 * 256 + low, high / 16)
  }

  /** Frame k of n frames counted from the oldest sits n - k slots below the stack pointer. */
  function SlotOf(sp: nat, n: nat, k: nat): (r: nat)
    requires sp < 8 && k < n <= 8
    ensures r < 8
  {
    (sp + 8 - n + k) % 8
  }

  ghost predicate Represents(ram: Ram128, psw: byte, s: seq<Frame>) {
    |s| <= 8 && forall k :: 0 <= k < |s| ==> Slot(ram, SlotOf(Sp(psw), |s|, k)) == s[k]
  }

  function TopFrame(f: Flowed): Frame {
    Frame(f.pc, f.psw / 16)
  }

  /** The two bytes a push stores decode to the frame it saves. */
  lemma SavedBytes(psw: byte, pc: word)
    requires pc < 4096
    ensures var high := Or(psw / 16 * 16, pc / 256);
            high / 16 == psw / 16 && high % 16 * 256 + pc % 256 == pc
  {
    hide Or;
    OrNibble(psw / 16, pc / 256);
    assert psw / 16 * 16 == 16 * (psw / 16);
  }

  lemma SpWraps(psw: byte)
    ensures var psw' := psw / 8 * 8 + (Sp(psw) + 1) % 8;
            psw' < 256 && psw' % 8 == (psw % 8 + 1) % 8
  {
  }

  lemma PushSlot(f: Flowed)
    requires f.pc < 4096
    ensures var g := Push(f);
            && Slot(g.ram, Sp(f.psw)) == TopFrame(f)
            && (forall k :: 0 <= k < 8 && k != Sp(f.psw) ==> Slot(g.ram, k) == Slot(f.ram, k))
            && Sp(g.psw) == (Sp(f.psw) + 1) % 8
  {
    hide Or;
    SavedBytes(f.psw, f.pc);
    SpWraps(f.psw);
  }

  lemma Wrapped(x: nat)
    requires x < 24
    ensures x % 8 == if x < 8 then x else if x < 16 then x - 8 else x - 16
  {
  }

  /** Where the frames of a stack sit relative to the pointer before and after a push. */
  lemma SlotShift(sp: nat, n: nat, k: nat)
    requires sp < 8 && k < n <= 8
    ensures SlotOf((sp + 1) % 8, n, n - 1) == sp
    ensures k < n - 1 ==> SlotOf((sp + 1) % 8, n, k) == SlotOf(sp, n - 1, k) != sp
    ensures k < 7 && n == 8 ==> SlotOf((sp + 1) % 8, 8, k) == SlotOf(sp, 8, k + 1) != sp
  {
    Wrapped(sp + 1);
    var sp' := if sp == 7 then 0 else sp + 1;
    Wrapped(sp' + 8 - n + (n - 1));
    Wrapped(sp' + 8 - n + k);
    if k < n - 1 { Wrapped(sp + 8 - (n - 1) + k); }
    if k < 7 { Wrapped(sp + 8 - 8 + (k + 1)); Wrapped(sp' + 8 - 8 + k); }
  }

  /** A push is a push of the abstract stack; the ninth forgets the oldest frame. */
  lemma PushRefines(f: Flowed, s: seq<Frame>)
    requires f.pc < 4096 && Represents(f.ram, f.psw, s)
    ensures Represents(Push(f).ram, Push(f).psw, ApplyOp(s, PushFrame(TopFrame(f))))
  {
    hide Slot, SlotOf, Push, TopFrame, Sp;
    PushSlot(f);
    SpRange(f.psw);
    var g, s' := Push(f), ApplyOp(s, PushFrame(TopFrame(f)));
    forall k | 0 <= k < |s'| ensures Slot(g.ram, SlotOf(Sp(g.psw), |s'|, k)) == s'[k] {
      SlotShift(Sp(f.psw), |s'|, k);
      if k < |s'| - 1 {
        assert s'[k] == s[k + |s| + 1 - |s'|];
      }
    }
  }

  lemma SpRange(psw: byte)
    ensures 0 <= Sp(psw) < 8
  {
  }

  lemma SpBackAndUpper(psw: byte, upper: nat, sp: nat)
    requires upper < 16 && sp < 8
    ensures (psw + 7) % 8 == (psw % 8 + 7) % 8
    ensures (upper * 16 + 8 + sp) / 16 == upper && (upper * 16 + 8 + sp) % 8 == sp
  {
  }

  lemma PopSlot(f: Flowed, restore: bool)
    ensures var g := Pop(f, restore);
            var top := Slot(f.ram, (Sp(f.psw) + 7) % 8);
            && g.ram == f.ram && g.pc == top.pc
            && g.psw / 16 == (if restore then top.upper else f.psw / 16)
            && Sp(g.psw) == (Sp(f.psw) + 7) % 8
  {
    var sp := (f.psw + 7) % 8;
    SpBackAndUpper(f.psw, f.psw / 16, sp);
    SpBackAndUpper(f.psw, f.ram[9 + 2 * sp] / 16, sp);
  }

  /** Where the frames sit relative to the pointer before and after a pop. */
  lemma SlotBack(sp: nat, n: nat, k: nat)
    requires sp < 8 && k < n <= 8
    ensures k == n - 1 ==> SlotOf(sp, n, k) == (sp + 7) % 8
    ensures k < n - 1 ==> SlotOf((sp + 7) % 8, n - 1, k) == SlotOf(sp, n, k)
  {
    var sp' := if sp == 0 then 7 else sp - 1;
    Wrapped(sp + 7);
    Wrapped(sp + 8 - n + k);
    if k < n - 1 { Wrapped(sp' + 8 - (n - 1) + k); }
  }

  /** A pop takes the most recent frame: its address becomes the PC, and RETR also restores its PSW half. */
  lemma PopRefines(f: Flowed, restore: bool, s: seq<Frame>)
    requires Represents(f.ram, f.psw, s)
    ensures var g := Pop(f, restore);
            && Represents(g.ram, g.psw, ApplyOp(s, PopFrame))
            && (s != [] ==> g.pc == s[|s| - 1].pc
                            && g.psw / 16 == (if restore then s[|s| - 1].upper else f.psw / 16))
  {
    hide Slot, SlotOf, Pop, Sp;
    PopSlot(f, restore);
    SpRange(f.psw);
    var g, s' := Pop(f, restore), ApplyOp(s, PopFrame);
    if s != [] {
      SlotBack(Sp(f.psw), |s|, |s| - 1);
      forall k | 0 <= k < |s'| ensures Slot(g.ram, SlotOf(Sp(g.psw), |s'|, k)) == s'[k] {
        SlotBack(Sp(f.psw), |s|, k);
      }
    }
  }

  // ----- data instructions and the stack cells -----

  /** The instruction stores to RAM through a pointer register that points into the stack, or loads SP. */
  predicate Disturbs(c: CpuState, i: Instr)
    requires ValidInstr(i)
  {
    match i
    case Data(Flag(f)) => f == MovPswA
    case Data(IncAt(r)) => 8 <= ReadReg(c, r) % 128 < 24
    case Data(MovAtA(r)) => 8 <= ReadReg(c, r) % 128 < 24
    case Data(XchdAt(r)) => 8 <= ReadReg(c, r) % 128 < 24
    case Data(MovAtData(r)) => 8 <= ReadReg(c, r) < 24
    case Data(XchAt(r)) => 8 <= ReadReg(c, r) < 24
    case _ => false
  }

  /** The cells 8..23 and the stack pointer are the same. */
  ghost predicate SameStack(ram: Ram128, psw: byte, ram': Ram128, psw': byte) {
    ram'[8..24] == ram[8..24] && Sp(psw') == Sp(psw)
  }

  lemma SameStackRepresents(ram: Ram128, psw: byte, ram': Ram128, psw': byte, s: seq<Frame>)
    requires SameStack(ram, psw, ram', psw') && Represents(ram, psw, s)
    ensures Represents(ram', psw', s)
  {
    forall k | 0 <= k < 8 ensures Slot(ram', k) == Slot(ram, k) {
      assert ram'[8 + 2 * k] == ram'[8..24][2 * k] && ram[8 + 2 * k] == ram[8..24][2 * k];
      assert ram'[9 + 2 * k] == ram'[8..24][2 * k + 1] && ram[9 + 2 * k] == ram[8..24][2 * k + 1];
    }
    hide Slot;
  }

  lemma StoreOutside(ram: Ram128, pos: nat, v: byte)
    requires pos < 128 && !(8 <= pos < 24)
    ensures ram[pos := v][8..24] == ram[8..24]
  {
  }

  lemma ModEight(x: int, j: int)
    ensures (x + 8 * j) % 8 == x % 8
  {
  }

  lemma Halved(x: nat, k: nat)
    requires k > 0
    ensures x % k == x - k * (x / k)
  {
  }

  /** The flag setters keep the stack pointer. */
  lemma CarryKeepsSp(psw: byte, c: bool)
    ensures Sp(SetCarry(psw, c)) == Sp(psw)
  {
    var q := psw / 128;
    assert psw % 128 == psw - 128 * q by { Halved(psw, 128); }
    ModEight(psw, (if c then 16 else 0) - 16 * q);
  }

  lemma AuxKeepsSp(psw: byte, c: bool)
    ensures Sp(SetAux(psw, c)) == Sp(psw)
  {
    var b := psw / 64 % 2;
    assert psw / 128 * 128 + psw % 64 == psw - 64 * b;
    ModEight(psw, (if c then 8 else 0) - 8 * b);
  }

  lemma F0KeepsSp(psw: byte, c: bool)
    ensures Sp(SetF0(psw, c)) == Sp(psw)
  {
    var b := psw / 32 % 2;
    assert psw / 64 * 64 + psw % 32 == psw - 32 * b;
    ModEight(psw, (if c then 4 else 0) - 4 * b);
  }

  lemma BankKeepsSp(psw: byte, c: bool)
    ensures Sp(SetBank(psw, c)) == Sp(psw)
  {
    var b := psw / 16 % 2;
    assert psw / 32 * 32 + psw % 16 == psw - 16 * b;
    ModEight(psw, (if c then 2 else 0) - 2 * b);
  }

  lemma AllFlagsKeepSp()
    ensures forall psw, c :: Sp(SetCarry(psw, c)) == Sp(psw)
    ensures forall psw, c :: Sp(SetAux(psw, c)) == Sp(psw)
    ensures forall psw, c :: Sp(SetF0(psw, c)) == Sp(psw)
    ensures forall psw, c :: Sp(SetBank(psw, c)) == Sp(psw)
  {
    forall psw, c
      ensures Sp(SetCarry(psw, c)) == Sp(psw) && Sp(SetAux(psw, c)) == Sp(psw)
              && Sp(SetF0(psw, c)) == Sp(psw) && Sp(SetBank(psw, c)) == Sp(psw)
    {
      hide Sp, SetCarry, SetAux, SetF0, SetBank;
      CarryKeepsSp(psw, c);
      AuxKeepsSp(psw, c);
      F0KeepsSp(psw, c);
      BankKeepsSp(psw, c);
    }
  }

  lemma AluStack(c: CpuState, op: AluOp, v: byte)
    ensures SameStack(c.ram, c.regs.psw, ExecAlu(c, op, v).ram, ExecAlu(c, op, v).psw)
  {
    hide Or, And, Xor, SetCarry, SetAux, Sp, Carry;
    AllFlagsKeepSp();
  }

  lemma UnaryStack(c: CpuState, u: UnaryOp)
    ensures SameStack(c.ram, c.regs.psw, ExecUnary(c, u).ram, ExecUnary(c, u).psw)
  {
    hide Not, Inc, Dec, SetCarry, Sp, Carry, Aux;
    AllFlagsKeepSp();
  }

  lemma FlagStack(c: CpuState, f: FlagOp)
    requires f != MovPswA
    ensures SameStack(c.ram, c.regs.psw, ExecFlag(c, f).ram, ExecFlag(c, f).psw)
  {
    hide SetCarry, SetF0, SetBank, Sp, Carry, F0;
    AllFlagsKeepSp();
  }

  /** A data instruction that does not aim at the stack leaves it alone, whichever register bank is
      selected: both banks lie outside cells 8..23. */
  lemma DataStack(c: CpuState, x: DataInstr, d: byte)
    requires ValidData(x) && ExecData(c, x, d).Some? && !Disturbs(c, Data(x))
    ensures var u := ExecData(c, x, d).value; SameStack(c.ram, c.regs.psw, u.ram, u.psw)
  {
    hide ExecAlu, ExecUnary, ExecFlag, ReadReg, RegAddr, Inc, Dec, OperandOf;
    match x {
      case Alu(op, src) => AluStack(c, op, OperandOf(c, src, d).value);
      case Unary(u) => UnaryStack(c, u);
      case Flag(f) => FlagStack(c, f);
      case IncReg(r) => StoreOutside(c.ram, RegAddr(c.regs.psw, r), Inc(ReadReg(c, r)));
      case DecReg(r) => StoreOutside(c.ram, RegAddr(c.regs.psw, r), Dec(ReadReg(c, r)));
      case MovRegA(r) => StoreOutside(c.ram, RegAddr(c.regs.psw, r), c.regs.a);
      case MovRegData(r) => StoreOutside(c.ram, RegAddr(c.regs.psw, r), d);
      case XchReg(r) => StoreOutside(c.ram, RegAddr(c.regs.psw, r), c.regs.a);
      case _ =>
    }
  }

  // ----- one step -----

  /** What the instruction itself does to the stack. */
  function BodyOps(i: Instr, c: CpuState): seq<StackOp> {
    match i
    case Flow(Call(_)) => [PushFrame(TopFrame(Still(c)))]
    case Flow(Ret) => [PopFrame]
    case Flow(Retr) => [PopFrame]
    case _ => []
  }

  /** What the interrupt logic after the instruction does to the stack. */
  function EntryOps(m: Machine): seq<StackOp> {
    if Due(m.cpu) then [PushFrame(TopFrame(Still(m.cpu)))] else []
  }

  /** The stack operations of one step, in order. */
  function StepOps(m: Machine): seq<StackOp> {
    if Body(m).None? || Prepared(m).None? then []
    else BodyOps(Prepared(m).value.0, Prepared(m).value.2.cpu) + EntryOps(Body(m).value)
  }

  /** Pushed addresses fit the twelve bits a slot keeps. */
  predicate Fits(ops: seq<StackOp>) {
    forall i :: 0 <= i < |ops| && ops[i].PushFrame? ==> ops[i].f.pc < 4096
  }

  predicate Disciplined(m: Machine) {
    && Prepared(m).Some? && Body(m).Some?
    && !Disturbs(Prepared(m).value.2.cpu, Prepared(m).value.0)
    && Fits(StepOps(m))
  }

  lemma {:induction false} OneOp(s: seq<Frame>, op: StackOp)
    ensures ApplyOps(s, [op]) == ApplyOp(s, op)
  {
    hide ApplyOp;
    assert ApplyOps(s, []) == s;
  }

  lemma {:induction false} OpsConcat(s: seq<Frame>, a: seq<StackOp>, b: seq<StackOp>)
    ensures ApplyOps(s, a + b) == ApplyOps(ApplyOps(s, a), b)
  {
    hide ApplyOp;
    if b == [] {
      assert a + b == a;
    } else {
      var n := |b| - 1;
      assert (a + b)[..|a + b| - 1] == a + b[..n];
      OpsConcat(s, a, b[..n]);
    }
  }

  lemma {:induction false} FlowStack(c: CpuState, w: FlowInstr, d: byte, s: seq<Frame>)
    requires ValidFlow(w) && ExecFlow(c, w, d).Some?
    requires Represents(c.ram, c.regs.psw, s) && Fits(BodyOps(Flow(w), c))
    ensures var f := ExecFlow(c, w, d).value; Represents(f.ram, f.psw, ApplyOps(s, BodyOps(Flow(w), c)))
  {
    hide Holds, FarTarget, NearTarget, Represents, TopFrame, Push, Pop, ReadReg, RegAddr, Dec;
    var st := Still(c);
    match w {
      case Call(_) =>
        assert BodyOps(Flow(w), c)[0].PushFrame?;
        OneOp(s, PushFrame(TopFrame(st)));
        FrameAddress(st);
        PushRefines(st, s);
      case Ret => OneOp(s, PopFrame); PopRefines(st, false, s);
      case Retr => OneOp(s, PopFrame); PopRefines(st, true, s);
      case Djnz(r) =>
        StoreOutside(c.ram, RegAddr(c.regs.psw, r), Dec(ReadReg(c, r)));
        SameStackRepresents(c.ram, c.regs.psw, c.ram[RegAddr(c.regs.psw, r) := Dec(ReadReg(c, r))], c.regs.psw, s);
      case _ =>
    }
  }

  lemma FrameAddress(f: Flowed)
    ensures TopFrame(f).pc == f.pc
  {
  }

  lemma {:induction false} ExecStack(m: Machine, i: Instr, d: byte, s: seq<Frame>)
    requires ValidInstr(i) && Exec(m, i, d).Some? && !Disturbs(m.cpu, i)
    requires Represents(m.cpu.ram, m.cpu.regs.psw, s) && Fits(BodyOps(i, m.cpu))
    ensures var c' := Exec(m, i, d).value.cpu; Represents(c'.ram, c'.regs.psw, ApplyOps(s, BodyOps(i, m.cpu)))
  {
    hide Represents, Exec, ExecFlow, Disturbs, ApplyOps, ValidData, ValidFlow, ValidPort;
    ExecFrame(m, i, d);
    match i {
      case Data(x) =>
        NoOps(s);
        ExecDataStack(m, x, d, s);
      case Flow(w) =>
        ExecFlowIs(m, w, d);
        FlowStack(m.cpu, w, d, s);
      case _ => NoOps(s);
    }
  }

  lemma ExecDataStack(m: Machine, x: DataInstr, d: byte, s: seq<Frame>)
    requires ValidData(x) && Exec(m, Data(x), d).Some? && !Disturbs(m.cpu, Data(x))
    requires Represents(m.cpu.ram, m.cpu.regs.psw, s)
    ensures var c' := Exec(m, Data(x), d).value.cpu; Represents(c'.ram, c'.regs.psw, s)
  {
    hide Represents, Exec, ExecData, Disturbs, ValidData;
    ExecDataIs(m, x, d);
    DataStack(m.cpu, x, d);
    var u := ExecData(m.cpu, x, d).value;
    SameStackRepresents(m.cpu.ram, m.cpu.regs.psw, u.ram, u.psw, s);
  }

  lemma {:induction false} EntryStack(m: Machine, s: seq<Frame>)
    requires Represents(m.cpu.ram, m.cpu.regs.psw, s) && Fits(EntryOps(m))
    ensures var c' := HandleInterrupts(m).cpu; Represents(c'.ram, c'.regs.psw, ApplyOps(s, EntryOps(m)))
  {
    hide Represents, TopFrame, Push, HandleInterrupts, Due;
    HandleEntry(m);
    var st := Still(m.cpu);
    if EntryOps(m) != [] {
      assert EntryOps(m)[0].PushFrame?;
      OneOp(s, PushFrame(TopFrame(st)));
      FrameAddress(st);
      PushRefines(st, s);
    }
  }

  /** One disciplined step: the RAM stack follows the abstract stack through the step's operations. */
  lemma {:induction false} StepStack(m: Machine, s: seq<Frame>)
    requires Step(m).Next? && Disciplined(m)
    requires Represents(m.cpu.ram, m.cpu.regs.psw, s)
    ensures Represents(Step(m).m.cpu.ram, Step(m).m.cpu.regs.psw, ApplyOps(s, StepOps(m)))
    ensures Represents(Body(m).value.cpu.ram, Body(m).value.cpu.regs.psw,
                       ApplyOps(s, BodyOps(Prepared(m).value.0, Prepared(m).value.2.cpu)))
  {
    hide Represents, Exec, Prepared, HandleInterrupts, Disturbs, BodyOps, EntryOps, ApplyOps;
    BodyUnfold(m);
    PreparedFrame(m);
    var (i, d, p) := Prepared(m).value;
    var a, b := BodyOps(i, p.cpu), EntryOps(Body(m).value);
    assert forall k :: 0 <= k < |a| ==> (a + b)[k] == a[k];
    assert forall k :: 0 <= k < |b| ==> (a + b)[|a| + k] == b[k];
    SameStackRepresents(m.cpu.ram, m.cpu.regs.psw, p.cpu.ram, p.cpu.regs.psw, s);
    ExecStack(p, i, d, s);
    EntryStack(Body(m).value, ApplyOps(s, a));
    OpsConcat(s, a, b);
  }

  // ----- whole runs -----

  ghost predicate DisciplinedRun(ms: seq<Machine>) {
    IsRun(ms) && forall i :: 0 <= i < |ms| - 1 ==> Disciplined(ms[i])
  }

  /** All stack operations of a run. */
  function RunOps(ms: seq<Machine>): seq<StackOp> {
    if |ms| <= 1 then [] else RunOps(ms[..|ms| - 1]) + StepOps(ms[|ms| - 2])
  }

  /** Main refinement: over any disciplined run the RAM stack holds the most recent frames of the
      abstract stack driven by the run's calls, returns and interrupt entries. */
  lemma {:induction false} StackRefines(ms: seq<Machine>, s: seq<Frame>)
    requires DisciplinedRun(ms) && Represents(ms[0].cpu.ram, ms[0].cpu.regs.psw, s)
    ensures var z := ms[|ms| - 1].cpu; Represents(z.ram, z.regs.psw, ApplyOps(s, RunOps(ms)))
  {
    hide Represents, Step, Disciplined, StepOps, ApplyOps;
    if |ms| > 1 {
      RunInit(ms);
      var before := ms[..|ms| - 1];
      forall i | 0 <= i < |before| - 1 ensures Disciplined(before[i]) { assert before[i] == ms[i]; }
      assert Disciplined(ms[|ms| - 2]);
      StackRefines(before, s);
      StepStack(ms[|ms| - 2], ApplyOps(s, RunOps(before)));
      OpsConcat(s, RunOps(before), StepOps(ms[|ms| - 2]));
    } else {
      NoOps(s);
    }
  }

  lemma {:induction false} NoOps(s: seq<Frame>)
    ensures ApplyOps(s, []) == s
  {
  }

  /** A return at the end of a disciplined run goes to the most recent frame not yet returned from;
      RETR also restores that frame's PSW half, RET keeps the current one. */
  lemma {:induction false} ReturnsToTop(ms: seq<Machine>, s: seq<Frame>)
    requires DisciplinedRun(ms) && Represents(ms[0].cpu.ram, ms[0].cpu.regs.psw, s)
    requires ApplyOps(s, RunOps(ms)) != []
    requires Step(ms[|ms| - 1]).Next? && Decode(FetchByte(ms[|ms| - 1])) in {Flow(Ret), Flow(Retr)}
    ensures var z := ms[|ms| - 1];
            var top := ApplyOps(s, RunOps(ms))[|ApplyOps(s, RunOps(ms))| - 1];
            var c := Body(z).value.cpu;
            && c.regs.pc == top.pc
            && c.regs.psw / 16 == (if Decode(FetchByte(z)) == Flow(Retr) then top.upper else z.cpu.regs.psw / 16)
  {
    hide Represents, Disciplined, StepOps, ApplyOps, Tick, Decode, Pop, RunOps, Body;
    StackRefines(ms, s);
    ReturnStep(ms[|ms| - 1], ApplyOps(s, RunOps(ms)));
  }

  lemma ReturnStep(m: Machine, s: seq<Frame>)
    requires Represents(m.cpu.ram, m.cpu.regs.psw, s) && s != []
    requires Step(m).Next? && Decode(FetchByte(m)) in {Flow(Ret), Flow(Retr)}
    ensures var c, retr := Body(m).value.cpu, Decode(FetchByte(m)) == Flow(Retr);
            && c.regs.pc == s[|s| - 1].pc
            && c.regs.psw / 16 == (if retr then s[|s| - 1].upper else m.cpu.regs.psw / 16)
  {
    hide Represents, Decode, Pop, Prepared, HandleInterrupts;
    BodyUnfold(m);
    PreparedFrame(m);
    var (i, d, p) := Prepared(m).value;
    SameStackRepresents(m.cpu.ram, m.cpu.regs.psw, p.cpu.ram, p.cpu.regs.psw, s);
    PopRefines(Still(p.cpu), i == Flow(Retr), s);
  }
}
