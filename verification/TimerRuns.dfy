/** Timer and timer-interrupt accounting over whole runs of the CPU. */
module TimerRuns {
  import opened Bits
  import opened Board
  import opened Cpu
  import opened CpuFrames

  // ----- conservation of timer ticks -----

  /** Machine cycles the timer has counted, up to a constant. */
  function Phase(m: Machine): int {
    32 * (256 * m.log.overflows + m.cpu.regs.t) + (32 - m.cpu.countdown)
  }

  /** A running timer is between 1 and 32 cycles from its next count. */
  predicate Prescaled(m: Machine) {
    m.cpu.timerRunning ==> 1 <= m.cpu.countdown <= 32
  }

  predicate TouchesTimer(i: Instr) {
    i == Control(StrtT) || i == Control(StrtCnt) || i == Control(StopTcnt) || i == Control(MovTA)
  }

  lemma TickPhase(m: Machine)
    requires Prescaled(m)
    ensures Prescaled(Tick(m)) && Tick(m).cpu.timerRunning == m.cpu.timerRunning
    ensures Phase(Tick(m)) == Phase(m) + if m.cpu.timerRunning then 1 else 0
  {
  }

  lemma PreparedPhase(m: Machine)
    requires Prescaled(m) && Prepared(m).Some?
    ensures var p := Prepared(m).value.2;
            && Prescaled(p)
            && Phase(p) == Phase(m) + if m.cpu.timerRunning then Cycles(Prepared(m).value.0) else 0
  {
    hide Tick, Decode;
    var m1 := Tick(Advance(m));
    TickPhase(Advance(m));
    TickPhase(m1);
    TickPhase(Advance(m1));
  }

  /** Serving an interrupt moves none of the timer fields. */
  lemma HandlePhase(m: Machine)
    ensures var m' := HandleInterrupts(m);
            && m'.cpu.timerRunning == m.cpu.timerRunning && m'.cpu.countdown == m.cpu.countdown
            && m'.cpu.regs.t == m.cpu.regs.t && m'.log.overflows == m.log.overflows && m'.log.ticks == m.log.ticks
  {
    hide HandleInterrupts, Push;
    HandleFrame(m);
  }

  /** One instruction costs as many ticks as the cycles it returns. */
  lemma StepTicks(m: Machine)
    requires Step(m).Next?
    ensures Step(m).m.log.ticks == m.log.ticks + Step(m).cycles
  {
    hide Exec, Prepared, HandleInterrupts;
    BodyUnfold(m);
    PreparedFrame(m);
    var (i, d, p) := Prepared(m).value;
    ExecFrame(p, i, d);
    HandlePhase(Body(m).value);
  }

  lemma ControlPhase(m: Machine, k: ControlInstr)
    requires Prescaled(m)
    ensures Prescaled(Controlled(m, k))
    ensures !TouchesTimer(Control(k)) ==>
              Phase(Controlled(m, k)) == Phase(m) && Controlled(m, k).cpu.timerRunning == m.cpu.timerRunning
  {
  }

  lemma ExecPhase(m: Machine, i: Instr, d: byte)
    requires ValidInstr(i) && Exec(m, i, d).Some? && Prescaled(m)
    ensures Prescaled(Exec(m, i, d).value)
    ensures !TouchesTimer(i) ==>
              var m' := Exec(m, i, d).value;
              Phase(m') == Phase(m) && m'.cpu.timerRunning == m.cpu.timerRunning
  {
    hide Exec, ExecControl;
    if i.Control? {
      ExecControlIs(m, i.k, d);
      ControlPhase(m, i.k);
    } else {
      ExecFrame(m, i, d);
    }
  }

  /** Every instruction keeps the prescaler in range, and every one that does not start, stop or load
      the timer advances a running timer by exactly its own ticks. */
  lemma StepPhase(m: Machine)
    requires Prescaled(m) && Step(m).Next?
    ensures Prescaled(Step(m).m)
    ensures !TouchesTimer(Decode(FetchByte(m))) ==>
              var m' := Step(m).m;
              && m'.cpu.timerRunning == m.cpu.timerRunning
              && Phase(m') - Phase(m) == if m.cpu.timerRunning then Step(m).cycles else 0
  {
    hide Exec, Prepared, HandleInterrupts, Decode;
    BodyUnfold(m);
    PreparedFrame(m);
    PreparedPhase(m);
    var (i, d, p) := Prepared(m).value;
    ExecPhase(p, i, d);
    HandlePhase(Body(m).value);
  }

  ghost predicate LeavesTimerAlone(ms: seq<Machine>) {
    forall i :: 0 <= i < |ms| - 1 ==> CanFetch(ms[i]) && !TouchesTimer(Decode(FetchByte(ms[i])))
  }

  lemma RunInit(ms: seq<Machine>)
    requires IsRun(ms) && |ms| > 1
    ensures IsRun(ms[..|ms| - 1]) && Step(ms[|ms| - 2]) == Next(ms[|ms| - 1], Step(ms[|ms| - 2]).cycles)
  {
    hide Step;
    assert Step(ms[|ms| - 2]).Next?;
  }

  /** In every machine a run reaches, a running timer has 1 to 32 cycles to go. */
  lemma {:induction false} RunPrescaled(ms: seq<Machine>)
    requires IsRun(ms) && Prescaled(ms[0])
    ensures Prescaled(ms[|ms| - 1])
  {
    hide Step, Prescaled;
    if |ms| > 1 {
      RunInit(ms);
      RunPrescaled(ms[..|ms| - 1]);
      StepPhase(ms[|ms| - 2]);
    }
  }

  /** Runs from a reset start with the prescaler in range. */
  lemma ResetPrescaled(m: Machine)
    ensures Prescaled(CpuReset(m))
  {
    hide RunBus;
  }

  /** Conservation: with the timer running and untouched, overflows, T and the prescaler together
      have advanced by exactly the number of ticks of the run. */
  lemma {:induction false} TimerConservation(ms: seq<Machine>)
    requires IsRun(ms) && LeavesTimerAlone(ms)
    requires Prescaled(ms[0]) && ms[0].cpu.timerRunning
    ensures ms[|ms| - 1].cpu.timerRunning
    ensures Phase(ms[|ms| - 1]) - Phase(ms[0]) == ms[|ms| - 1].log.ticks - ms[0].log.ticks
  {
    hide Step, Decode, Phase, Prescaled;
    if |ms| > 1 {
      RunInit(ms);
      var before := ms[..|ms| - 1];
      forall i | 0 <= i < |before| - 1 ensures CanFetch(before[i]) && !TouchesTimer(Decode(FetchByte(before[i]))) {
        assert before[i] == ms[i];
      }
      TimerConservation(before);
      RunPrescaled(before);
      StepPhase(ms[|ms| - 2]);
      StepTicks(ms[|ms| - 2]);
    }
  }

  // ----- accounting of timer requests -----

  /** Overflows not yet explained by an entry, a merge, a drop or the pending request. */
  function Unexplained(m: Machine): int {
    m.log.overflows - m.log.merged - m.log.dropped - m.log.timerEntries - (if m.cpu.timerRequest then 1 else 0)
  }

  lemma CountUnexplained(m: Machine)
    ensures Unexplained(IncCounter(m)) == Unexplained(m)
  {
    hide Inc;
  }

  lemma TickUnexplained(m: Machine)
    ensures Unexplained(Tick(m)) == Unexplained(m)
  {
    hide IncCounter, Dec;
    CountUnexplained(m.(log := m.log.(ticks := m.log.ticks + 1), cpu := m.cpu.(countdown := 32)));
  }

  lemma PreparedUnexplained(m: Machine)
    requires Prepared(m).Some?
    ensures Unexplained(Prepared(m).value.2) == Unexplained(m)
  {
    hide Tick, Decode;
    var m1 := Tick(Advance(m));
    TickUnexplained(Advance(m));
    TickUnexplained(m1);
    TickUnexplained(Advance(m1));
  }

  lemma ControlUnexplained(m: Machine, k: ControlInstr)
    ensures Unexplained(Controlled(m, k)) == Unexplained(m)
  {
  }

  lemma ExecUnexplained(m: Machine, i: Instr, d: byte)
    requires ValidInstr(i) && Exec(m, i, d).Some?
    ensures Unexplained(Exec(m, i, d).value) == Unexplained(m)
  {
    hide Exec, ExecControl;
    if i.Control? {
      ExecControlIs(m, i.k, d);
      ControlUnexplained(m, i.k);
    } else {
      ExecFrame(m, i, d);
    }
  }

  lemma HandleUnexplained(m: Machine)
    ensures Unexplained(HandleInterrupts(m)) == Unexplained(m)
  {
    hide HandleInterrupts, Push;
    HandleFrame(m);
  }

  lemma UserUnexplained(m: Machine)
    ensures Unexplained(UserActs(m)) == Unexplained(m)
  {
  }

  lemma StepUnexplained(m: Machine)
    requires Step(m).Next?
    ensures Unexplained(Step(m).m) == Unexplained(m)
  {
    hide Exec, Prepared, HandleInterrupts, UserActs, Decode, Unexplained;
    BodyUnfold(m);
    PreparedUnexplained(m);
    var (i, d, p) := Prepared(m).value;
    ExecUnexplained(p, i, d);
    HandleUnexplained(Body(m).value);
    UserUnexplained(HandleInterrupts(Body(m).value));
  }

  /** No timer request is lost: over any run that starts with none pending, every overflow has led to
      an entry at vector 7, is still pending, met an already pending request, or was cleared by
      DIS TCNTI. */
  lemma RequestAccounting(ms: seq<Machine>)
    requires IsRun(ms) && !ms[0].cpu.timerRequest
    ensures var a, z := ms[0], ms[|ms| - 1];
            z.log.overflows - a.log.overflows ==
              (z.log.timerEntries - a.log.timerEntries) + (if z.cpu.timerRequest then 1 else 0)
              + (z.log.merged - a.log.merged) + (z.log.dropped - a.log.dropped)
  {
    RunUnexplained(ms);
  }

  lemma {:induction false} RunUnexplained(ms: seq<Machine>)
    requires IsRun(ms)
    ensures Unexplained(ms[|ms| - 1]) == Unexplained(ms[0])
  {
    hide Step, Unexplained;
    if |ms| > 1 {
      RunInit(ms);
      RunUnexplained(ms[..|ms| - 1]);
      StepUnexplained(ms[|ms| - 2]);
    }
  }

  /** Only DIS TCNTI with a request pending drops one. */
  lemma StepDropped(m: Machine)
    requires Step(m).Next?
    ensures Step(m).m.log.dropped == m.log.dropped ||
            (Decode(FetchByte(m)) == Control(DisTcnti) && Step(m).m.log.dropped == m.log.dropped + 1)
  {
    hide Prepared, Decode, Exec, Push;
    BodyUnfold(m);
    PreparedFrame(m);
    var (i, d, p) := Prepared(m).value;
    ExecFrame(p, i, d);
    if i.Control? {
      ExecControlIs(p, i.k, d);
    }
  }

  /** Without DIS TCNTI the run loses nothing at all. */
  lemma {:induction false} NothingDropped(ms: seq<Machine>)
    requires IsRun(ms)
    requires forall i :: 0 <= i < |ms| - 1 ==> CanFetch(ms[i]) && Decode(FetchByte(ms[i])) != Control(DisTcnti)
    ensures ms[|ms| - 1].log.dropped == ms[0].log.dropped
  {
    hide Step, Decode;
    if |ms| > 1 {
      RunInit(ms);
      var before := ms[..|ms| - 1];
      forall i | 0 <= i < |before| - 1 ensures CanFetch(before[i]) && Decode(FetchByte(before[i])) != Control(DisTcnti) {
        assert before[i] == ms[i];
      }
      NothingDropped(before);
      StepDropped(ms[|ms| - 2]);
    }
  }
}
