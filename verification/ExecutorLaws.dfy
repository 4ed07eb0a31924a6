/** Laws of the processor in every state the executor can reach, with resets and loaded states among the events. */
module ExecutorLaws {
  import opened Cpu
  import opened ExecutorModel
  import opened Interrupts
  import opened TimerRuns

  /** The worker's next turn runs an instruction to its end. */
  predicate RunsInstr(t: Executor) {
    && t.phase == Alive && TakeTurn(t).phase == Alive
    && (if t.queue == [] then t.running else t.queue[0] == SingleStep)
  }

  lemma {:induction false} RunNext(s: Executor, es: seq<Event>, n: nat)
    requires n < |es|
    ensures Run(s, es[..n + 1]) == Apply(Run(s, es[..n]), es[n])
  {
    hide Apply;
    assert es[..n + 1][..n] == es[..n];
  }

  /** The machine over one turn. */
  lemma TurnMachine(t: Executor)
    ensures RunsInstr(t) ==> Step(t.machine).Next? && TakeTurn(t).machine == Step(t.machine).m
    ensures !RunsInstr(t) ==>
              TakeTurn(t).machine ==
                (if t.phase == Alive && t.queue != [] && t.queue[0] == Reset then ResetAll(t.machine)
                 else if t.phase == Alive && t.queue != [] && t.queue[0].LoadState? then Loaded(t.machine, t.queue[0].state)
                 else t.machine)
  {
    hide Step, ResetAll, Loaded, AtMovx, AtBreakpoint;
  }

  // ----- the prescaler -----

  /** Every state to be loaded has its prescaler in range, as every saved one has. */
  predicate LoadsPrescaled(cs: seq<Command>) {
    forall c :: c in cs && c.LoadState? && c.state.cpu.timerRunning ==> 1 <= c.state.cpu.countdown <= 32
  }

  lemma TurnPrescaled(t: Executor)
    requires Prescaled(t.machine) && LoadsPrescaled(t.queue)
    ensures Prescaled(TakeTurn(t).machine)
  {
    TurnMachine(t);
    if RunsInstr(t) {
      hide Step, TakeTurn, Prescaled;
      StepPhase(t.machine);
    } else {
      ResetAllPrescaled(t.machine);
      hide Step, TakeTurn, ResetAll, RunsInstr;
    }
  }

  lemma ResetAllPrescaled(m: Machine)
    ensures Prescaled(ResetAll(m)) && !ResetAll(m).cpu.inInterrupt
  {
    ResetPrescaled(m);
    hide Board.RunBus, Pid8155.PidReset;
  }

  /** In every state the executor reaches, whatever is posted and however turns interleave, a running timer is
      1 to 32 cycles from its next count. */
  lemma {:induction false} AlwaysPrescaled(s: Executor, es: seq<Event>)
    requires Prescaled(s.machine) && s.posted == s.processed + s.queue
    requires LoadsPrescaled(s.posted) && LoadsPrescaled(PostsOf(es))
    ensures Prescaled(Run(s, es).machine)
  {
    hide Prescaled, TakeTurn, PostsOf;
    if es != [] {
      var before := es[..|es| - 1];
      PostsBefore(es);
      AlwaysPrescaled(s, before);
      FirstInFirstOut(s, before);
      var t := Run(s, before);
      assert forall c :: c in t.queue ==> c in t.processed + t.queue;
      TurnPrescaled(t);
    }
  }

  lemma {:induction false} PostsBefore(es: seq<Event>)
    requires es != []
    ensures forall c :: c in PostsOf(es[..|es| - 1]) ==> c in PostsOf(es)
  {
  }

  // ----- interrupts -----

  /** Event n is a turn that runs an instruction and then enters a vector. */
  predicate EntersAt(s: Executor, es: seq<Event>, n: nat) {
    n < |es| && es[n].Turn? && RunsInstr(Run(s, es[..n])) && Enters(Run(s, es[..n]).machine)
  }

  predicate Leaves(t: Executor) {
    || (RunsInstr(t) && CanFetch(t.machine) && Decode(FetchByte(t.machine)) == Flow(Retr))
    || (t.phase == Alive && t.queue != [] && (t.queue[0] == Reset || t.queue[0].LoadState?))
  }

  /** Event n is a turn that runs a RETR, resets the processor or loads a state. */
  predicate LeavesAt(s: Executor, es: seq<Event>, n: nat) {
    n < |es| && es[n].Turn? && Leaves(Run(s, es[..n]))
  }

  /** Inside a handler no interrupt is entered, and only these turns leave it. */
  lemma StaysInHandler(t: Executor)
    requires t.machine.cpu.inInterrupt && !Leaves(t)
    ensures TakeTurn(t).machine.cpu.inInterrupt && !(RunsInstr(t) && Enters(t.machine))
  {
    TurnMachine(t);
    hide Step, TakeTurn, RunsInstr, Enters, Decode, Body, ResetAll;
    if RunsInstr(t) {
      CanFetchStep(t.machine);
      StepFlag(t.machine);
    }
  }

  lemma {:induction false} InHandler(s: Executor, es: seq<Event>, i: nat, j: nat)
    requires i < j <= |es| && EntersAt(s, es, i)
    requires forall k :: i < k < j ==> !LeavesAt(s, es, k)
    ensures Run(s, es[..j]).machine.cpu.inInterrupt
    decreases j
  {
    hide Enters, Leaves, Run, TakeTurn, RunsInstr, Step, Body, Decode;
    RunNext(s, es, j - 1);
    var t := Run(s, es[..j - 1]);
    if i == j - 1 {
      TurnMachine(t);
      StepFlag(t.machine);
    } else {
      InHandler(s, es, i, j - 1);
      assert !LeavesAt(s, es, j - 1);
      if es[j - 1].Turn? { StaysInHandler(t); }
    }
  }

  /** In every history of the executor, between two vector entries there is a RETR, a reset or a loaded state. */
  lemma EntriesApart(s: Executor, es: seq<Event>, i: nat, j: nat)
    requires i < j && EntersAt(s, es, i) && EntersAt(s, es, j)
    ensures exists k :: i < k <= j && LeavesAt(s, es, k)
  {
    hide Enters, Leaves, Run, TakeTurn, RunsInstr;
    if forall k :: i < k <= j ==> !LeavesAt(s, es, k) {
      InHandler(s, es, i, j);
      assert !LeavesAt(s, es, j);
      StaysInHandler(Run(s, es[..j]));
      assert false;
    }
  }
}
