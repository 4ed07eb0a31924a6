/** What the executor's commands do, and exactly when free running stops, read off the commands processed. */
module Breakpoints {
  import opened Bits
  import opened Board
  import opened BusRuns
  import opened Cpu
  import opened ExecutorModel
  import opened InstructionSet
  import opened InstructionFrames
  import opened MemoryMap
  import opened Pid8155

  // ----- what one command does -----

  /** The two breakpoint settings. */
  lemma CommandSets(s: Executor)
    requires s.phase == Alive && s.queue != []
    ensures var t := TakeTurn(s);
            match s.queue[0]
            case AddBp(a) => t.breakOnMovx == s.breakOnMovx && t.breakpoints == s.breakpoints + {a}
            case RemoveBp(a) => t.breakOnMovx == s.breakOnMovx && t.breakpoints == s.breakpoints - {a}
            case BreakOnMovx(on) => t.breakOnMovx == on && t.breakpoints == s.breakpoints
            case _ => t.breakOnMovx == s.breakOnMovx && t.breakpoints == s.breakpoints
  {
    hide Step, ResetAll, Loaded, AtMovx, Capture;
  }

  /** START leaves the worker running; STOP, RESET and SINGLE_STEP leave it stopped; only QUIT and a failing instruction
      end it. */
  lemma CommandRuns(s: Executor)
    requires s.phase == Alive && s.queue != []
    ensures var t := TakeTurn(s);
            match s.queue[0]
            case Start => t.phase == Alive && t.running && t.interruptsSeen == if s.running then s.interruptsSeen else 0
            case Stop => t.phase == Alive && !t.running
            case Reset => t.phase == Alive && !t.running
            case SingleStep => !t.running && t.phase != Finished
            case Quit => t.phase == Finished && t.running == s.running
            case _ => t.phase == Alive && t.running == s.running
  {
    hide Step, ResetAll, Loaded, AtMovx, Capture;
  }

  /** SINGLE_STEP runs one instruction, LOAD_STATE exchanges the processor and the chips, RESET resets all three, and no other
      command touches the machine. */
  lemma CommandMachine(s: Executor)
    requires s.phase == Alive && s.queue != []
    ensures var m, t := s.machine, TakeTurn(s);
            match s.queue[0]
            case SingleStep => t.phase == Alive ==> Step(m).Next? && t.machine == Step(m).m
            case LoadState(_, st) =>
              t.machine == m.(cpu := st.cpu, board := m.board.(pid := st.pid, ext := st.ext))
            case Reset => ResetTo(t.machine, m)
            case _ => t.machine == m
  {
    hide Step, CpuReset, AtMovx, Capture, ResetTo;
    if s.queue[0].Reset? { ResetAllIs(s.machine); }
    hide ResetAll;
  }

  /** SAVE_STATE and LOAD_STATE release their caller, SAVE_STATE with processor and chips as they are. */
  lemma CommandReleases(s: Executor)
    requires s.phase == Alive && s.queue != []
    ensures var m, t := s.machine, TakeTurn(s);
            match s.queue[0]
            case SaveState(done) => t.released == s.released + [Release(done, EmulatorState(m.cpu, m.board.pid, m.board.ext))]
            case LoadState(done, st) => t.released == s.released + [Release(done, st)]
            case _ => t.released == s.released
  {
    hide Step, ResetAll, AtMovx;
  }

  /** A chip after its reset. */
  predicate Cleared(p: PidState) {
    && p.pa == 0 && p.pb == 0 && p.pc == 0 && p.paMode == 0 && p.pbMode == 0 && p.pcMode == 0
    && !p.paInterrupt && !p.pbInterrupt && forall k :: 0 <= k < 256 ==> p.ram[k] == 0
  }

  predicate ResetTo(t: Machine, m: Machine) {
    && t.cpu == CpuReset(m).cpu && t.inputs == CpuReset(m).inputs
    && t.board == CpuReset(m).board.(pid := t.board.pid, ext := t.board.ext)
    && Cleared(t.board.pid) && Cleared(t.board.ext)
  }

  /** The board after a reset: BUS 0, P2 all ones, which resets and deselects both chips, and on P1 all ones or what the panel
      makes of them. */
  lemma ResetBoardIs(m: Machine)
    ensures var b, n := CpuReset(m).board, m.inputs;
            && b.bus == 0 && b.p2 == 255
            && b.p1 == (if |n| > 1 && n[1].touched then n[1].switches else if n != [] then n[0].switches else 255)
            && Cleared(b.pid) && b.pid.ce && b.pid.io && Cleared(b.ext) && b.ext.ce && b.ext.io
            && CpuReset(m).inputs == if n == [] then [] else n[1..]
  {
    ResetBoard(m);
    P2FullEffect(m.board.(bus := 0, p1 := ShownAfterReset(m)), 255);
    MaskBits();
    hide RunBus, WriteP2, Bit;
  }

  lemma ResetAllIs(m: Machine)
    ensures ResetTo(ResetAll(m), m)
  {
    hide CpuReset;
  }

  // ----- the settings over any interleaving -----

  /** a has been added and not been removed since. */
  predicate Added(cs: seq<Command>, a: word) {
    exists i :: 0 <= i < |cs| && cs[i] == AddBp(a) && RemoveBp(a) !in cs[i + 1..]
  }

  /** Breaking on MOVX has been switched on and not off since. */
  predicate SwitchedOn(cs: seq<Command>) {
    exists i :: 0 <= i < |cs| && cs[i] == BreakOnMovx(true) && BreakOnMovx(false) !in cs[i + 1..]
  }

  lemma AddedOne(cs: seq<Command>, c: Command, a: word)
    ensures Added(cs + [c], a) <==> c == AddBp(a) || (Added(cs, a) && c != RemoveBp(a))
  {
    var both := cs + [c];
    forall i | 0 <= i < |cs| ensures both[i + 1..] == cs[i + 1..] + [c] && both[i] == cs[i] { }
    assert both[|cs|] == c && both[|cs| + 1..] == [];
  }

  lemma SwitchedOne(cs: seq<Command>, c: Command)
    ensures SwitchedOn(cs + [c]) <==> c == BreakOnMovx(true) || (SwitchedOn(cs) && c != BreakOnMovx(false))
  {
    var both := cs + [c];
    forall i | 0 <= i < |cs| ensures both[i + 1..] == cs[i + 1..] + [c] && both[i] == cs[i] { }
    assert both[|cs|] == c && both[|cs| + 1..] == [];
  }

  /** The settings are those of the commands processed so far. */
  predicate Settled(t: Executor) {
    && (forall a: word :: a in t.breakpoints <==> Added(t.processed, a))
    && (t.breakOnMovx <==> SwitchedOn(t.processed))
  }

  lemma IdleSets(s: Executor)
    requires s.phase != Alive || s.queue == []
    ensures TakeTurn(s).breakpoints == s.breakpoints && TakeTurn(s).breakOnMovx == s.breakOnMovx
  {
    hide Step, AtMovx;
  }

  lemma TurnSettles(s: Executor)
    requires Settled(s)
    ensures Settled(TakeTurn(s))
  {
    hide TakeTurn, Added, SwitchedOn;
    TurnQueue(s);
    if s.phase == Alive && s.queue != [] {
      CommandSets(s);
      SwitchedOne(s.processed, s.queue[0]);
      forall a: word ensures a in TakeTurn(s).breakpoints <==> Added(TakeTurn(s).processed, a) {
        AddedOne(s.processed, s.queue[0], a);
      }
    } else {
      IdleSets(s);
    }
  }

  /** Over every interleaving an address is a breakpoint exactly when the last ADD_BP or REMOVE_BP of it that has been processed
      is an ADD_BP, and the MOVX switch is the last one processed. */
  lemma {:induction false} SettingsFollow(s: Executor, es: seq<Event>)
    requires Initial(s) && s.breakpoints == {} && !s.breakOnMovx
    ensures Settled(Run(s, es))
  {
    hide TakeTurn;
    if es != [] {
      SettingsFollow(s, es[..|es| - 1]);
      TurnSettles(Run(s, es[..|es| - 1]));
    }
  }

  // ----- when free running stops -----

  /** The next instruction is a MOVX. */
  predicate MovxNext(m: Machine) {
    Opcode(m) in {0x80, 0x81, 0x90, 0x91}
  }

  /** One free-running turn: one instruction; the worker ends when it fails, or when it may have to look for a MOVX beyond the
      ROM; every second interrupt entry is counted. */
  lemma FreeTurn(s: Executor)
    requires FreeRunning(s)
    ensures var m, t := s.machine, TakeTurn(s);
            && (t.phase == Alive <==> Step(m).Next? && (s.breakOnMovx ==> Step(m).m.cpu.regs.pc < |Step(m).m.cpu.rom|))
            && (t.phase == Alive ==>
                  && t.machine == Step(m).m
                  && (t.running <==> t.machine.cpu.regs.pc !in s.breakpoints && !(s.breakOnMovx && MovxNext(t.machine)))
                  && t.interruptsSeen == if !m.cpu.inInterrupt && t.machine.cpu.inInterrupt
                                         then (s.interruptsSeen + 1) % 2 else s.interruptsSeen)
  {
    hide Step;
  }

  /** The four opcodes are those of MOVX. */
  lemma MovxOpcodes(op: byte)
    ensures op in {0x80, 0x81, 0x90, 0x91} <==> Decode(op).Port? && (Decode(op).q.MovxIn? || Decode(op).q.MovxOut?)
  {
    AllListed(op);
    LengthIs(op, Decode(op));
    if PortOp(op) { PortKinds(op); }
    hide Decode;
  }

  lemma PortKinds(op: byte)
    requires PortOp(op)
    ensures op in {0x80, 0x81, 0x90, 0x91} <==> Decode(op).Port? && (Decode(op).q.MovxIn? || Decode(op).q.MovxOut?)
  {
    if op in {0x80, 0x81, 0x90, 0x91} { IndirectRow(op); }
    else if Pulses(op) { PulseDecode(op); }
    else { PortDecode(op); }
    hide Decode;
  }

  /** Over every interleaving: the worker goes on running behind a free-running instruction exactly when it has come neither to
      an address added last nor, with the switch on, to a MOVX. */
  lemma StopsExactly(s: Executor, es: seq<Event>)
    requires Initial(s) && s.breakpoints == {} && !s.breakOnMovx
    requires FreeRunning(Run(s, es)) && TakeTurn(Run(s, es)).phase == Alive
    ensures var t := Run(s, es);
            var u := TakeTurn(t);
            && Step(t.machine).Next? && u.machine == Step(t.machine).m
            && (u.running <==> !Added(t.processed, u.machine.cpu.regs.pc)
                               && !(SwitchedOn(t.processed) && MovxNext(u.machine)))
  {
    hide Run, Initial, TakeTurn, Step, Added, SwitchedOn, MovxNext;
    SettingsFollow(s, es);
    FreeTurn(Run(s, es));
  }
}
