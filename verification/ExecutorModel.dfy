/** The executor of src/executorthread.cpp as atomic events: a poster appends a command, or the worker
    makes one turn of its loop. */
module ExecutorModel {
  import opened Bits
  import opened Cpu
  import opened Pid8155

  datatype EmulatorState = EmulatorState(cpu: CpuState, pid: PidState, ext: PidState)

  /** Each saving or loading caller waits on a semaphore of its own, here a number. */
  datatype Command =
    | SingleStep | Start | Stop | Reset | Quit
    | AddBp(addr: word) | RemoveBp(addr: word) | BreakOnMovx(on: bool)
    | LoadState(done: nat, state: EmulatorState)
    | SaveState(done: nat)

  /** The worker has returned from its loop after QUIT, or died where the processor aborts. */
  datatype Phase = Alive | Finished | Aborted

  /** What a released caller finds in its state object. */
  datatype Release = Release(done: nat, state: EmulatorState)

  datatype Executor = Executor(
    phase: Phase, queue: seq<Command>, running: bool, breakOnMovx: bool, breakpoints: set<word>,
    interruptsSeen: nat, machine: Machine,
    posted: seq<Command>, processed: seq<Command>, released: seq<Release>)

  datatype Event = Post(c: Command) | Turn

  // ----- the parts of a turn -----

  function Capture(m: Machine): EmulatorState {
    EmulatorState(m.cpu, m.board.pid, m.board.ext)
  }

  /** Loading replaces the processor and both chips; the port latches stay. */
  function Loaded(m: Machine, st: EmulatorState): Machine {
    m.(cpu := st.cpu, board := m.board.(pid := st.pid, ext := st.ext))
  }

  function ResetAll(m: Machine): Machine {
    var n := CpuReset(m);
    n.(board := n.board.(pid := PidReset(n.board.pid), ext := PidReset(n.board.ext)))
  }

  predicate AtMovx(m: Machine) {
    CanFetch(m) && FetchByte(m) in {0x80, 0x81, 0x90, 0x91}
  }

  predicate AtBreakpoint(s: Executor, m: Machine) {
    m.cpu.regs.pc in s.breakpoints || (s.breakOnMovx && AtMovx(m))
  }

  /** doExecuteInstr; looking at the next opcode beyond the ROM ends the model like an abort. */
  function ExecuteInstr(s: Executor): Executor {
    match Step(s.machine)
    case Stuck => s.(phase := Aborted)
    case Next(m, _) =>
      if s.breakOnMovx && !CanFetch(m) then s.(phase := Aborted)
      else s.(machine := m, running := s.running && !AtBreakpoint(s, m))
  }

  /** The NIL case: one instruction, and every second interrupt entry is due for throttling. */
  function FreeRun(s: Executor): Executor {
    var t := ExecuteInstr(s);
    if t.phase == Alive && !s.machine.cpu.inInterrupt && t.machine.cpu.inInterrupt
    then t.(interruptsSeen := (t.interruptsSeen + 1) % 2)
    else t
  }

  function Process(s: Executor, c: Command): Executor {
    match c
    case SingleStep => ExecuteInstr(s.(running := false))
    case Start => if s.running then s else s.(running := true, interruptsSeen := 0)
    case Stop => s.(running := false)
    case Reset => s.(running := false, machine := ResetAll(s.machine))
    case Quit => s.(phase := Finished)
    case AddBp(a) => s.(breakpoints := s.breakpoints + {a})
    case RemoveBp(a) => s.(breakpoints := s.breakpoints - {a})
    case BreakOnMovx(on) => s.(breakOnMovx := on)
    case LoadState(done, st) => s.(machine := Loaded(s.machine, st), released := s.released + [Release(done, st)])
    case SaveState(done) => s.(released := s.released + [Release(done, Capture(s.machine))])
  }

  /** fetchCommand takes the oldest command, running or not; without one the worker runs an instruction
      when running and waits when stopped. */
  function TakeTurn(s: Executor): Executor {
    if s.phase != Alive then s
    else if s.queue != [] then
      Process(s.(queue := s.queue[1..], processed := s.processed + [s.queue[0]]), s.queue[0])
    else if s.running then FreeRun(s)
    else s
  }

  function Apply(s: Executor, e: Event): Executor {
    match e
    case Post(c) => s.(queue := s.queue + [c], posted := s.posted + [c])
    case Turn => TakeTurn(s)
  }

  function Run(s: Executor, es: seq<Event>): Executor {
    if es == [] then s else Apply(Run(s, es[..|es| - 1]), es[|es| - 1])
  }

  /** The state before any command is posted. */
  predicate Initial(s: Executor) {
    s.phase == Alive && s.queue == [] && s.posted == [] && s.processed == [] && s.released == [] && !s.running
  }

  // ----- queue discipline -----

  function PostsOf(es: seq<Event>): seq<Command> {
    if es == [] then []
    else PostsOf(es[..|es| - 1]) + (match es[|es| - 1] case Post(c) => [c] case Turn => [])
  }

  /** The commands processed so far followed by those waiting are the commands posted, in order. */
  lemma {:induction false} FirstInFirstOut(s: Executor, es: seq<Event>)
    requires s.posted == s.processed + s.queue
    ensures var t := Run(s, es); t.posted == t.processed + t.queue && t.posted == s.posted + PostsOf(es)
  {
    hide TakeTurn;
    if es != [] {
      var t := Run(s, es[..|es| - 1]);
      FirstInFirstOut(s, es[..|es| - 1]);
      TurnQueue(t);
      assert PostsOf(es) == PostsOf(es[..|es| - 1]) + (match es[|es| - 1] case Post(c) => [c] case Turn => []);
    }
  }

  /** A turn moves at most the oldest command from the queue to the processed ones. */
  lemma TurnQueue(s: Executor)
    ensures var t := TakeTurn(s);
            && t.posted == s.posted
            && if s.phase == Alive && s.queue != []
               then t.queue == s.queue[1..] && t.processed == s.processed + [s.queue[0]]
               else t.queue == s.queue && t.processed == s.processed
  {
    hide Step, ResetAll, Loaded, AtMovx;
  }

  // ----- instructions while stopped -----

  /** A turn of a stopped worker leaves the machine alone unless it processes SINGLE_STEP, RESET or
      LOAD_STATE, and of these only SINGLE_STEP runs an instruction. */
  lemma StoppedIsStill(s: Executor)
    requires !s.running
    ensures var t := TakeTurn(s);
            t.machine == s.machine
            || (s.queue != [] && match s.queue[0]
                  case SingleStep => Step(s.machine).Next? && t.machine == Step(s.machine).m && !t.running
                  case Reset => t.machine == ResetAll(s.machine) && !t.running
                  case LoadState(_, st) => t.machine == Loaded(s.machine, st)
                  case _ => false)
    ensures TakeTurn(s).running ==> s.queue != [] && s.queue[0] == Start
  {
    hide Step, ResetAll, Loaded, AtMovx;
  }

  // ----- waiting callers -----

  function Waiters(cs: seq<Command>): seq<nat> {
    if cs == [] then []
    else
      Waiters(cs[..|cs| - 1]) +
      (match cs[|cs| - 1]
       case LoadState(done, _) => [done]
       case SaveState(done) => [done]
       case _ => [])
  }

  function Dones(rs: seq<Release>): seq<nat> {
    if rs == [] then [] else Dones(rs[..|rs| - 1]) + [rs[|rs| - 1].done]
  }

  predicate Distinct(ids: seq<nat>) {
    forall i, j :: 0 <= i < j < |ids| ==> ids[i] != ids[j]
  }

  /** A turn releases a caller exactly when it processes its command, with the state the machine then has. */
  lemma TurnReleases(s: Executor)
    ensures var t := TakeTurn(s);
            if s.phase == Alive && s.queue != [] && s.queue[0].LoadState? then
              t.released == s.released + [Release(s.queue[0].done, s.queue[0].state)] && Capture(t.machine) == s.queue[0].state
            else if s.phase == Alive && s.queue != [] && s.queue[0].SaveState? then
              t.released == s.released + [Release(s.queue[0].done, Capture(s.machine))] && t.machine == s.machine
            else t.released == s.released
  {
    hide Step, ResetAll, AtMovx;
  }

  lemma {:induction false} WaitersConcat(a: seq<Command>, b: seq<Command>)
    ensures Waiters(a + b) == Waiters(a) + Waiters(b)
  {
    if b == [] {
      assert a + b == a;
    } else {
      WaitersConcat(a, b[..|b| - 1]);
      assert (a + b)[..|a + b| - 1] == a + b[..|b| - 1];
    }
  }

  lemma {:induction false} DonesOne(rs: seq<Release>, r: Release)
    ensures Dones(rs + [r]) == Dones(rs) + [r.done]
  {
    assert (rs + [r])[..|rs|] == rs;
  }

  lemma WaitersOne(c: Command)
    ensures Waiters([c]) == (match c case LoadState(done, _) => [done] case SaveState(done) => [done] case _ => [])
  {
    assert [c][..0] == [];
  }

  lemma {:induction false} ReleasedInOrder(s: Executor, es: seq<Event>)
    requires Dones(s.released) == Waiters(s.processed)
    ensures var t := Run(s, es); Dones(t.released) == Waiters(t.processed)
  {
    hide TakeTurn, Waiters, Dones;
    if es != [] {
      var t := Run(s, es[..|es| - 1]);
      ReleasedInOrder(s, es[..|es| - 1]);
      TurnQueue(t);
      TurnReleases(t);
      if es[|es| - 1].Turn? && t.phase == Alive && t.queue != [] {
        var c := t.queue[0];
        WaitersConcat(t.processed, [c]);
        WaitersOne(c);
        if c.LoadState? { DonesOne(t.released, Release(c.done, c.state)); }
        if c.SaveState? { DonesOne(t.released, Release(c.done, Capture(t.machine))); }
      }
    }
  }

  /** Over any interleaving, with a semaphore of its own for every caller: a caller whose command has been
      processed is released exactly once, any other caller not at all. */
  lemma {:induction false} ReleasedExactlyOnce(s: Executor, es: seq<Event>)
    requires Initial(s) && Distinct(Waiters(PostsOf(es)))
    ensures var t := Run(s, es);
            && Distinct(Dones(t.released))
            && (forall d :: d in Dones(t.released) <==> d in Waiters(t.processed))
            && (forall d :: d in Waiters(t.queue) ==> d !in Dones(t.released))
  {
    hide TakeTurn, Waiters, Dones, PostsOf, Run;
    var t := Run(s, es);
    NothingYet(s);
    FirstInFirstOut(s, es);
    ReleasedInOrder(s, es);
    assert PostsOf(es) == t.processed + t.queue;
    WaitersConcat(t.processed, t.queue);
    var ids, n := Waiters(PostsOf(es)), |Waiters(t.processed)|;
    assert ids[..n] == Waiters(t.processed) && ids[n..] == Waiters(t.queue);
    forall d | d in Waiters(t.queue) ensures d !in Waiters(t.processed) {
      var j :| 0 <= j < |Waiters(t.queue)| && Waiters(t.queue)[j] == d;
      assert ids[n + j] == d;
    }
  }

  lemma NothingYet(s: Executor)
    requires Initial(s)
    ensures Dones(s.released) == Waiters(s.processed) == []
  {
  }

  /** Each release happens at a moment between two instructions when the machine is in the released state. */
  lemma {:induction false} ReleasedAtAMoment(s: Executor, es: seq<Event>, k: nat)
    requires |s.released| <= k < |Run(s, es).released|
    ensures exists n :: 0 <= n <= |es| && |Run(s, es[..n]).released| == k + 1
                        && Run(s, es).released[k] == Run(s, es[..n]).released[k]
                        && Run(s, es).released[k].state == Capture(Run(s, es[..n]).machine)
  {
    hide TakeTurn, Capture;
    assert es != [];
    var m := |es| - 1;
    var t := Run(s, es[..m]);
    TurnReleases(t);
    if k < |t.released| {
      ReleasedAtAMoment(s, es[..m], k);
      var n :| 0 <= n <= m && |Run(s, es[..m][..n]).released| == k + 1
               && t.released[k] == Run(s, es[..m][..n]).released[k]
               && t.released[k].state == Capture(Run(s, es[..m][..n]).machine);
      assert es[..m][..n] == es[..n];
    } else {
      assert es[..|es|] == es;
      assert |Run(s, es[..|es|]).released| == k + 1;
    }
  }

  // ----- progress -----

  function Turns(es: seq<Event>): nat {
    if es == [] then 0 else Turns(es[..|es| - 1]) + (if es[|es| - 1].Turn? then 1 else 0)
  }

  /** Only QUIT ends the loop in order. */
  lemma FinishedByQuit(s: Executor)
    requires s.phase == Alive && TakeTurn(s).phase == Finished
    ensures s.queue != [] && s.queue[0] == Quit
  {
    hide Step, ResetAll, AtMovx;
  }

  /** Commands keep their place: what was processed and queued stays a prefix of what is processed and queued. */
  predicate Extends(s: Executor, t: Executor) {
    s.processed + s.queue <= t.processed + t.queue && |s.processed| <= |t.processed|
  }

  lemma {:induction false} RunExtends(s: Executor, es: seq<Event>)
    requires s.phase == Alive
    ensures Extends(s, Run(s, es))
    ensures var t := Run(s, es);
            t.phase == Finished ==> |t.processed| > |s.processed| && t.processed[|t.processed| - 1] == Quit
  {
    hide TakeTurn;
    if es != [] {
      var t := Run(s, es[..|es| - 1]);
      RunExtends(s, es[..|es| - 1]);
      TurnQueue(t);
      if t.phase == Alive && TakeTurn(t).phase == Finished { FinishedByQuit(t); }
      if t.phase != Alive { EndsStay(t); }
    }
  }

  lemma EndsStay(t: Executor)
    requires t.phase != Alive
    ensures TakeTurn(t) == t
  {
  }

  /** With k commands ahead and no QUIT among them, a command is processed within k + 1 turns of the loop,
      however posts interleave with them. */
  lemma {:induction false} ProcessedWithin(s: Executor, es: seq<Event>, k: nat)
    requires s.phase == Alive && k < |s.queue| && Quit !in s.queue[..k]
    requires Run(s, es).phase != Aborted
    ensures var t := Run(s, es);
            |t.processed| >= |s.processed| + (if Turns(es) <= k then Turns(es) else k + 1)
    ensures var t := Run(s, es);
            Turns(es) > k ==> t.processed[|s.processed| + k] == s.queue[k]
  {
    hide TakeTurn;
    var t := Run(s, es);
    RunExtends(s, es);
    if es != [] {
      var u := Run(s, es[..|es| - 1]);
      if u.phase == Aborted { AbortsStay(u); }
      ProcessedWithin(s, es[..|es| - 1], k);
      RunExtends(s, es[..|es| - 1]);
      TurnQueue(u);
      if u.phase == Finished { QuitIsLate(s, u, k); }
    }
    if Turns(es) > k { assert (t.processed + t.queue)[|s.processed| + k] == (s.processed + s.queue)[|s.processed| + k]; }
  }

  lemma AbortsStay(u: Executor)
    requires u.phase == Aborted
    ensures TakeTurn(u).phase == Aborted
  {
  }

  lemma QuitIsLate(s: Executor, u: Executor, k: nat)
    requires k < |s.queue| && Quit !in s.queue[..k] && Extends(s, u)
    requires |u.processed| > |s.processed| && u.processed[|u.processed| - 1] == Quit
    ensures |u.processed| >= |s.processed| + k + 1
  {
    var i, both := |u.processed| - 1, s.processed + s.queue;
    assert i < |both| ==> (u.processed + u.queue)[i] == both[i];
    assert forall j :: 0 <= j < k ==> s.queue[j] == s.queue[..k][j];
  }

  /** So a waiting caller with k commands ahead and no QUIT among them is released within k + 1 turns. */
  lemma {:induction false} CallerReleasedWithin(s: Executor, es: seq<Event>, k: nat)
    requires s.phase == Alive && k < |s.queue| && Quit !in s.queue[..k]
    requires s.queue[k].LoadState? || s.queue[k].SaveState?
    requires Dones(s.released) == Waiters(s.processed)
    requires Run(s, es).phase != Aborted && Turns(es) > k
    ensures s.queue[k].done in Dones(Run(s, es).released)
  {
    hide Run, Dones, Waiters;
    var t, i := Run(s, es), |s.processed| + k;
    ProcessedWithin(s, es, k);
    ReleasedInOrder(s, es);
    assert t.processed == t.processed[..i] + [t.processed[i]] + t.processed[i + 1..];
    WaitersConcat(t.processed[..i] + [t.processed[i]], t.processed[i + 1..]);
    WaitersConcat(t.processed[..i], [t.processed[i]]);
    WaitersOne(t.processed[i]);
    assert s.queue[k].done in Waiters([t.processed[i]]);
  }

  // ----- breakpoints -----

  predicate Clear(s: Executor) {
    s.running ==> s.machine.cpu.regs.pc !in s.breakpoints
  }

  predicate ClearOfMovx(s: Executor) {
    s.running && s.breakOnMovx ==> !AtMovx(s.machine)
  }

  predicate FreeRunning(s: Executor) {
    s.phase == Alive && s.running && s.queue == []
  }

  /** Running stays on after a free-running instruction only away from every breakpoint. */
  lemma FreeRunClears(s: Executor)
    requires FreeRunning(s) && TakeTurn(s).phase == Alive
    ensures Clear(TakeTurn(s)) && ClearOfMovx(TakeTurn(s))
    ensures Step(s.machine).Next? && TakeTurn(s).machine == Step(s.machine).m
  {
    hide Step, AtMovx;
  }

  /** While running goes on, only ADD_BP and LOAD_STATE (and for MOVX also its switch) can put the
      processor on a breakpoint. */
  lemma TurnKeepsClear(s: Executor)
    requires s.running && TakeTurn(s).running && TakeTurn(s).phase == Alive
    requires s.queue == [] || !s.queue[0].LoadState?
    ensures Clear(s) && (s.queue == [] || !s.queue[0].AddBp?) ==> Clear(TakeTurn(s))
    ensures ClearOfMovx(s) && (s.queue == [] || !s.queue[0].BreakOnMovx?) ==> ClearOfMovx(TakeTurn(s))
  {
    hide Step, AtMovx, ResetAll;
  }

  /** One running stretch: the worker is alive and running after every prefix. */
  predicate Stretch(s: Executor, es: seq<Event>) {
    forall n :: 0 <= n <= |es| ==> Run(s, es[..n]).running && Run(s, es[..n]).phase == Alive
  }

  function Since(t: Executor, u: Executor): seq<Command> {
    if |t.processed| <= |u.processed| then u.processed[|t.processed|..] else []
  }

  predicate Harmless(cs: seq<Command>) {
    forall c :: c in cs ==> !c.AddBp? && !c.LoadState?
  }

  /** In one running stretch without ADD_BP and LOAD_STATE, only the first free-running instruction can
      begin at a breakpoint: after one has run, the processor is never at one while running. */
  lemma {:induction false} BreakpointSafety(s: Executor, es: seq<Event>)
    requires FreeRunning(s) && Stretch(TakeTurn(s), es)
    requires Harmless(Since(TakeTurn(s), Run(TakeTurn(s), es)))
    ensures Clear(Run(TakeTurn(s), es))
    ensures (forall c :: c in Since(TakeTurn(s), Run(TakeTurn(s), es)) ==> !c.BreakOnMovx?)
            ==> ClearOfMovx(Run(TakeTurn(s), es))
  {
    hide TakeTurn, AtMovx, Clear, ClearOfMovx;
    var t, u := TakeTurn(s), Run(TakeTurn(s), es);
    assert es[..|es|] == es && u.running && u.phase == Alive;
    if es == [] {
      FreeRunClears(s);
    } else {
      var m := |es| - 1;
      var v := Run(t, es[..m]);
      forall n | 0 <= n <= m ensures es[..m][..n] == es[..n] { }
      assert t.phase == Alive by { assert es[..0] == []; }
      RunExtends(t, es);
      RunExtends(t, es[..m]);
      TurnQueue(v);
      LastProcessed(t, v, u, es[m]);
      BreakpointSafety(s, es[..m]);
      if es[m].Turn? {
        TurnKeepsClear(v);
      } else {
        PostKeepsClear(v, es[m].c);
      }
    }
  }

  lemma PostKeepsClear(v: Executor, c: Command)
    ensures Clear(v) ==> Clear(Apply(v, Post(c)))
    ensures ClearOfMovx(v) ==> ClearOfMovx(Apply(v, Post(c)))
  {
    hide AtMovx;
  }

  /** What one event adds to the processed commands. */
  lemma LastProcessed(t: Executor, v: Executor, u: Executor, e: Event)
    requires u == Apply(v, e) && |t.processed| <= |v.processed|
    requires if e.Turn? && v.phase == Alive && v.queue != [] then u.processed == v.processed + [v.queue[0]]
             else u.processed == v.processed
    ensures forall c :: c in Since(t, v) ==> c in Since(t, u)
    ensures e.Turn? && v.phase == Alive && v.queue != [] ==> v.queue[0] in Since(t, u)
  {
    var n := |t.processed|;
    if e.Turn? && v.phase == Alive && v.queue != [] {
      assert u.processed[n..] == v.processed[n..] + [v.queue[0]];
    }
  }
}
