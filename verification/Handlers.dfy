/** Interrupt handlers are transparent: a balanced handler returns to the interrupted program point. */
module Handlers {
  import opened Bits
  import opened Cpu
  import opened CpuFrames
  import opened TimerRuns
  import opened Interrupts
  import opened CallStack
  import opened Wrappers

  /** Net number of frames pushed by ops. */
  function Net(ops: seq<StackOp>): int {
    if ops == [] then 0
    else Net(ops[..|ops| - 1]) + (if ops[|ops| - 1].PushFrame? then 1 else -1)
  }

  /** Starting with one frame, the stack never empties and never exceeds its eight slots. */
  ghost predicate Balanced(ops: seq<StackOp>) {
    forall k :: 0 <= k <= |ops| ==> 0 <= Net(ops[..k]) <= 7
  }

  lemma {:induction false} NetConcat(a: seq<StackOp>, b: seq<StackOp>)
    ensures Net(a + b) == Net(a) + Net(b)
  {
    if b == [] {
      assert a + b == a;
    } else {
      var n := |b| - 1;
      assert (a + b)[..|a + b| - 1] == a + b[..n];
      NetConcat(a, b[..n]);
    }
  }

  /** While the nesting stays balanced the frame that was on the stack first is still at its bottom. */
  lemma {:induction false} BottomStays(f: Frame, ops: seq<StackOp>)
    requires Balanced(ops)
    ensures |ApplyOps([f], ops)| == Net(ops) + 1
    ensures ApplyOps([f], ops) != [] && ApplyOps([f], ops)[0] == f
  {
    if ops != [] {
      var before := ops[..|ops| - 1];
      forall k | 0 <= k <= |before| ensures 0 <= Net(before[..k]) <= 7 {
        assert before[..k] == ops[..k];
      }
      BottomStays(f, before);
      assert ops[..|ops|] == ops;
      assert 0 <= Net(ops) <= 7;
    }
  }

  // ----- the stack pointer -----

  lemma PushPopSp(f: Flowed, restore: bool)
    ensures Sp(Push(f).psw) == (Sp(f.psw) + 1) % 8
    ensures Sp(Pop(f, restore).psw) == (Sp(f.psw) + 7) % 8
  {
    hide Or;
    SpWraps(f.psw);
    PopSlot(f, restore);
  }

  lemma OneNet(op: StackOp)
    ensures Net([op]) == if op.PushFrame? then 1 else -1
  {
    assert Net([]) == 0;
  }

  lemma FlowSp(c: CpuState, w: FlowInstr, d: byte)
    requires ValidFlow(w) && ExecFlow(c, w, d).Some?
    ensures Sp(ExecFlow(c, w, d).value.psw) == (Sp(c.regs.psw) + Net(BodyOps(Flow(w), c)) + 8) % 8
  {
    hide Sp, Push, Pop, Holds, FarTarget, NearTarget, TopFrame, ReadReg, RegAddr, Dec, Net;
    PushPopSp(Still(c), w == Retr);
    OneNet(PopFrame);
    OneNet(PushFrame(TopFrame(Still(c))));
    NoNet();
    SpRange(c.regs.psw);
  }

  lemma NoNet()
    ensures Net([]) == 0
  {
  }

  lemma ExecSp(m: Machine, i: Instr, d: byte)
    requires ValidInstr(i) && Exec(m, i, d).Some? && !Disturbs(m.cpu, i)
    ensures Sp(Exec(m, i, d).value.cpu.regs.psw) == (Sp(m.cpu.regs.psw) + Net(BodyOps(i, m.cpu)) + 8) % 8
  {
    hide Exec, ExecData, ExecFlow, Disturbs, ValidData, ValidFlow, ValidPort, Net, Sp;
    ExecFrame(m, i, d);
    SpRange(m.cpu.regs.psw);
    NoNet();
    match i {
      case Data(x) =>
        ExecDataIs(m, x, d);
        DataStack(m.cpu, x, d);
      case Flow(w) =>
        ExecFlowIs(m, w, d);
        FlowSp(m.cpu, w, d);
      case _ =>
    }
  }

  lemma EntrySp(m: Machine)
    ensures Sp(HandleInterrupts(m).cpu.regs.psw) == (Sp(m.cpu.regs.psw) + Net(EntryOps(m))) % 8
  {
    hide Push, Net, Sp, TopFrame, HandleInterrupts, Due;
    HandleEntry(m);
    PushPopSp(Still(m.cpu), false);
    OneNet(PushFrame(TopFrame(Still(m.cpu))));
    NoNet();
    SpRange(m.cpu.regs.psw);
  }

  /** The stack pointer counts the net pushes of a step, modulo eight. */
  lemma StepSp(m: Machine)
    requires Step(m).Next? && Disciplined(m)
    ensures (Sp(Step(m).m.cpu.regs.psw) - Sp(m.cpu.regs.psw) - Net(StepOps(m))) % 8 == 0
  {
    hide Exec, Prepared, HandleInterrupts, Disturbs, BodyOps, EntryOps, Net, Sp;
    BodyUnfold(m);
    PreparedFrame(m);
    var (i, d, p) := Prepared(m).value;
    ExecSp(p, i, d);
    EntrySp(Body(m).value);
    NetConcat(BodyOps(i, p.cpu), EntryOps(Body(m).value));
    CountsMod(Sp(m.cpu.regs.psw), Sp(Body(m).value.cpu.regs.psw), Sp(Step(m).m.cpu.regs.psw),
              Net(BodyOps(i, p.cpu)), Net(EntryOps(Body(m).value)));
  }

  lemma CountsMod(a: int, b: int, c: int, x: int, y: int)
    requires b == (a + x + 8) % 8 && c == (b + y) % 8
    ensures (c - a - (x + y)) % 8 == 0
  {
    var q, r := (a + x + 8) / 8, (b + y) / 8;
    assert c - a - (x + y) == 8 * (1 - q - r);
  }

  lemma {:induction false} RunSp(ms: seq<Machine>)
    requires DisciplinedRun(ms)
    ensures (Sp(ms[|ms| - 1].cpu.regs.psw) - Sp(ms[0].cpu.regs.psw) - Net(RunOps(ms))) % 8 == 0
  {
    hide Step, Disciplined, StepOps, Net, Sp;
    if |ms| > 1 {
      RunInit(ms);
      var before := ms[..|ms| - 1];
      forall i | 0 <= i < |before| - 1 ensures Disciplined(before[i]) { assert before[i] == ms[i]; }
      assert Disciplined(ms[|ms| - 2]);
      RunSp(before);
      StepSp(ms[|ms| - 2]);
      NetConcat(RunOps(before), StepOps(ms[|ms| - 2]));
    } else {
      NoNet();
    }
  }

  // ----- transparency -----

  lemma EntryFrame(m: Machine)
    requires Enters(m) && Body(m).Some? && Body(m).value.cpu.regs.pc < 4096
    ensures var c, c' := Body(m).value.cpu, Step(m).m.cpu;
            && Represents(c'.ram, c'.regs.psw, [TopFrame(Still(c))])
            && Sp(c'.regs.psw) == (Sp(c.regs.psw) + 1) % 8
  {
    hide Body, Represents, TopFrame, Sp, Push, HandleInterrupts, Due;
    StepFlag(m);
    var b := Body(m).value;
    HandleEntry(b);
    PushPopSp(Still(b.cpu), false);
    NoFrames(b.cpu);
    PushRefines(Still(b.cpu), []);
    UserFrame(HandleInterrupts(b));
    assert HandleInterrupts(b).cpu == Step(m).m.cpu;
    assert ApplyOp([], PushFrame(TopFrame(Still(b.cpu)))) == [TopFrame(Still(b.cpu))];
  }

  lemma NoFrames(c: CpuState)
    ensures Represents(c.ram, c.regs.psw, [])
  {
  }

  /** Main theorem: the handler entered at the first step of the run, if it keeps its calls balanced
      and leaves the stack cells and SP alone, returns by RETR to the interrupted address with the
      interrupted PSW half and stack pointer. */
  lemma {:induction false} HandlerTransparent(before: Machine, ms: seq<Machine>)
    requires Enters(before) && Body(before).Some? && Body(before).value.cpu.regs.pc < 4096
    requires DisciplinedRun(ms) && ms[0] == Step(before).m
    requires Balanced(RunOps(ms)) && Net(RunOps(ms)) == 0
    requires Step(ms[|ms| - 1]).Next? && Decode(FetchByte(ms[|ms| - 1])) == Flow(Retr)
    ensures var c, c' := Body(before).value.cpu, Body(ms[|ms| - 1]).value.cpu;
            && c'.regs.pc == c.regs.pc
            && c'.regs.psw / 16 == c.regs.psw / 16
            && Sp(c'.regs.psw) == Sp(c.regs.psw)
            && !c'.inInterrupt
  {
    hide Represents, Step, Body, RunOps, Disciplined, Balanced, Net, ApplyOps, Decode, Sp, TopFrame;
    var z := ms[|ms| - 1];
    var f := TopFrame(Still(Body(before).value.cpu));
    EntryFrame(before);
    StackRefines(ms, [f]);
    BottomStays(f, RunOps(ms));
    assert ApplyOps([f], RunOps(ms)) == [f];
    StepFlag(z);
    ReturnStep(z, [f]);
    FrameParts(Still(Body(before).value.cpu));
    RetrSp(z);
    RunSp(ms);
    SpRange(Body(before).value.cpu.regs.psw);
    SpRestored(Sp(Body(before).value.cpu.regs.psw), Sp(ms[0].cpu.regs.psw), Sp(z.cpu.regs.psw),
               Sp(Body(z).value.cpu.regs.psw));
  }

  lemma FrameParts(f: Flowed)
    ensures TopFrame(f) == Frame(f.pc, f.psw / 16)
  {
  }

  lemma RetrSp(m: Machine)
    requires Step(m).Next? && Decode(FetchByte(m)) == Flow(Retr)
    ensures Sp(Body(m).value.cpu.regs.psw) == (Sp(m.cpu.regs.psw) + 7) % 8
    ensures 0 <= Sp(m.cpu.regs.psw) < 8
  {
    hide Decode, Prepared, HandleInterrupts, Pop, Sp;
    BodyUnfold(m);
    PreparedFrame(m);
    SpRange(m.cpu.regs.psw);
    PushPopSp(Still(Prepared(m).value.2.cpu), true);
  }

  lemma SpRestored(a: nat, b: nat, c: nat, d: nat)
    requires a < 8 && c < 8 && b == (a + 1) % 8 && (c - b) % 8 == 0 && d == (c + 7) % 8
    ensures d == a
  {
  }

  // ----- the smallest handler -----

  lemma NopStep(m: Machine)
    requires CanFetch(m) && FetchByte(m) == 0x00
    ensures Body(m) == Some(Tick(Advance(m))) && Step(m) == Next(UserActs(HandleInterrupts(Tick(Advance(m)))), 1)
  {
    assert Decode(0x00) == Nop;
    hide Decode, Tick, Advance, HandleInterrupts, UserActs;
  }

  lemma RetrSteps(m: Machine)
    requires CanFetch(m) && FetchByte(m) == 0x93
    ensures Decode(FetchByte(m)) == Flow(Retr) && Step(m).Next?
  {
    assert Decode(0x93) == Flow(Retr);
    hide Decode, Tick, Advance, HandleInterrupts;
  }

  /** With the interrupt line low after a NOP and a lone RETR at vector 3, the handler meets every
      condition of HandlerTransparent and execution resumes behind the NOP. */
  lemma SmallestHandler(m: Machine)
    requires CanFetch(m) && FetchByte(m) == 0x00 && |m.cpu.rom| > 3 && m.cpu.rom[3] == 0x93
    requires ExternalDue(m.cpu) && !m.cpu.inInterrupt && m.cpu.regs.pc < 4095
    ensures Enters(m) && Body(m).Some? && Body(m).value.cpu.regs.pc == m.cpu.regs.pc + 1
    ensures var h := Step(m).m;
            && CanFetch(h) && Decode(FetchByte(h)) == Flow(Retr) && Step(h).Next?
            && Body(h).value.cpu.regs.pc == m.cpu.regs.pc + 1
            && Sp(Body(h).value.cpu.regs.psw) == Sp(m.cpu.regs.psw)
  {
    hide Step, Body, Enters, Decode, Sp, TopFrame;
    EntryAfterNop(m);
    var h := Step(m).m;
    RetrSteps(h);
    EmptyRun(h);
    HandlerTransparent(m, [h]);
  }

  lemma AfterNop(m: Machine)
    requires m.cpu.regs.pc < 4095
    ensures var b := Tick(Advance(m));
            && Entries(b) == Entries(m) && b.cpu.inInterrupt == m.cpu.inInterrupt && ExternalDue(b.cpu) == ExternalDue(m.cpu)
            && b.cpu.regs.pc == m.cpu.regs.pc + 1 && b.cpu.regs.psw == m.cpu.regs.psw && b.cpu.rom == m.cpu.rom
  {
    TickFrame(Advance(m));
    hide Tick;
  }

  lemma EntryAfterNop(m: Machine)
    requires CanFetch(m) && FetchByte(m) == 0x00
    requires ExternalDue(m.cpu) && !m.cpu.inInterrupt && m.cpu.regs.pc < 4095
    ensures Enters(m) && Step(m).Next? && Step(m).m.cpu.regs.pc == 3 && Step(m).m.cpu.rom == m.cpu.rom
    ensures Body(m).Some? && Body(m).value.cpu.regs.pc == m.cpu.regs.pc + 1
    ensures Body(m).value.cpu.regs.psw == m.cpu.regs.psw
  {
    NopStep(m);
    AfterNop(m);
    hide Step, Body, Tick, Advance, HandleInterrupts, UserActs;
    EntryFrom(Tick(Advance(m)));
  }

  /** An external interrupt that is due is entered behind the instruction. */
  lemma EntryFrom(b: Machine)
    requires ExternalDue(b.cpu) && !b.cpu.inInterrupt
    ensures var h := UserActs(HandleInterrupts(b));
            Entries(h) == Entries(b) + 1 && h.cpu.regs.pc == 3 && h.cpu.rom == b.cpu.rom
  {
    hide HandleInterrupts, UserActs, Push;
    HandleEntry(b);
    HandleRom(b);
    UserFrame(HandleInterrupts(b));
  }

  lemma HandleRom(m: Machine)
    ensures HandleInterrupts(m).cpu.rom == m.cpu.rom
  {
    hide HandleInterrupts, Push;
    HandleFrame(m);
  }

  lemma EmptyRun(m: Machine)
    ensures DisciplinedRun([m]) && RunOps([m]) == [] && Balanced([]) && Net([]) == 0
  {
    hide Disciplined, Step;
    var none: seq<StackOp> := [];
    NoNet();
    assert none[..0] == none;
  }
}
