/** Interrupts never nest: between two vector entries of any run there is a RETR. */
module Interrupts {
  import opened Cpu
  import opened CpuFrames

  function Entries(m: Machine): nat {
    m.log.timerEntries + m.log.extEntries
  }

  /** An interrupt is taken at the end of the step that starts in m. */
  predicate Enters(m: Machine) {
    Step(m).Next? && Entries(Step(m).m) > Entries(m)
  }

  predicate ExternalDue(c: CpuState) { !c.notInt && c.extEnabled }
  predicate TimerDue(c: CpuState) { c.timerRequest && c.tcntEnabled }
  predicate Due(c: CpuState) { !c.inInterrupt && (ExternalDue(c) || TimerDue(c)) }

  /** An interrupt is taken exactly when one is due and none is being served; the external one wins,
      and only a timer entry consumes the timer request. */
  lemma HandleEntry(m: Machine)
    ensures var c, m' := m.cpu, HandleInterrupts(m);
            var taken := Due(c);
            && Entries(m') == Entries(m) + (if taken then 1 else 0)
            && m'.cpu.inInterrupt == (c.inInterrupt || taken)
            && (taken ==> m'.cpu.regs.pc == if ExternalDue(c) then 3 else 7)
            && m'.cpu.timerRequest == (c.timerRequest && !(taken && !ExternalDue(c)))
            && (taken ==> m'.cpu.ram == Push(Still(c)).ram && m'.cpu.regs.psw == Push(Still(c)).psw)
            && (!taken ==> m' == m)
  {
    hide Push;
  }

  /** The in-interrupt flip-flop over one instruction: RETR clears it before interrupts are looked at. */
  lemma StepFlag(m: Machine)
    requires Step(m).Next?
    ensures Body(m).Some? && Body(m).value.cpu.inInterrupt == (m.cpu.inInterrupt && Decode(FetchByte(m)) != Flow(Retr))
    ensures Step(m).m.cpu.inInterrupt == (Body(m).value.cpu.inInterrupt || Enters(m))
    ensures Enters(m) <==> Due(Body(m).value.cpu)
  {
    hide Exec, Prepared, HandleInterrupts, Decode;
    BodyUnfold(m);
    PreparedFrame(m);
    var (i, d, p) := Prepared(m).value;
    ExecFrame(p, i, d);
    HandleEntry(Body(m).value);
  }

  /** Machine k of a run executes a RETR. */
  predicate RetrAt(ms: seq<Machine>, k: nat)
    requires k < |ms|
  {
    CanFetch(ms[k]) && Decode(FetchByte(ms[k])) == Flow(Retr)
  }

  lemma {:induction false} StaysInside(ms: seq<Machine>, i: nat, j: nat)
    requires IsRun(ms) && i < j < |ms| - 1
    requires Enters(ms[i])
    requires forall k :: i < k <= j ==> !RetrAt(ms, k)
    ensures ms[j].cpu.inInterrupt && !Enters(ms[j])
    decreases j
  {
    hide Step, Decode, Enters, Body;
    assert Step(ms[i]).Next? && Step(ms[j]).Next? && Step(ms[j - 1]).Next?;
    assert !RetrAt(ms, j);
    StepFlag(ms[i]);
    StepFlag(ms[j]);
    CanFetchStep(ms[j]);
    if i < j - 1 {
      StaysInside(ms, i, j - 1);
      StepFlag(ms[j - 1]);
      assert !RetrAt(ms, j - 1);
      CanFetchStep(ms[j - 1]);
    }
  }

  lemma CanFetchStep(m: Machine)
    requires Step(m).Next?
    ensures CanFetch(m)
  {
    hide Decode, Exec, Tick;
  }

  /** Exclusivity: two entries of one run are separated by a RETR, which may be the instruction after
      which the second one is taken. */
  lemma EntriesSeparated(ms: seq<Machine>, i: nat, j: nat)
    requires IsRun(ms) && i < j < |ms| - 1
    requires Enters(ms[i]) && Enters(ms[j])
    ensures exists k :: i < k <= j && RetrAt(ms, k)
  {
    hide Step, Decode, Enters, Body;
    if forall k :: i < k <= j ==> !RetrAt(ms, k) {
      StaysInside(ms, i, j);
    }
  }
}
