/** The executor thread of src/executorthread.cpp as an object; the worker's endless loop is one method
    per turn. */
module ExecutorObject {
  import opened Bits
  import opened Board
  import opened Cpu
  import opened ExecutorModel
  import opened Pid8155
  import opened Processor
  import opened Wrappers

  class ExecutorThread {
    const cpu: Intel8049
    const wiring: Wiring
    var commands: seq<Command>
    var breakOnMovx: bool
    var isRunning: bool
    var interruptsSeen: nat
    var breakpoints: set<word>
    ghost var phase: Phase
    ghost var posted: seq<Command>
    ghost var processed: seq<Command>
    ghost var released: seq<Release>

    ghost predicate Valid()
      reads this, wiring, wiring.panel
    {
      cpu.board == wiring && wiring.Valid()
    }

    ghost function View(): Executor
      reads this, cpu, wiring.bus, wiring.p1, wiring.p2, wiring.pid, wiring.ext, wiring.panel
    {
      Executor(phase, commands, isRunning, breakOnMovx, breakpoints, interruptsSeen,
               Machine(cpu.Core(), wiring.View(), cpu.log, wiring.panel.inputs), posted, processed, released)
    }

    constructor (processor: Intel8049)
      requires processor.board.Valid()
      ensures Valid() && cpu == processor && Initial(View())
      ensures View().machine == processor.View() && !breakOnMovx && breakpoints == {} && interruptsSeen == 0
    {
      cpu := processor;
      wiring := processor.board;
      commands := [];
      breakOnMovx, isRunning, interruptsSeen, breakpoints := false, false, 0, {};
      phase, posted, processed, released := Alive, [], [], [];
    }

    /** postCommand: under the lock, the command goes to the back of the queue. */
    method PostCommand(c: Command)
      modifies this`commands, this`posted
      ensures View() == Apply(old(View()), Post(c))
    {
      commands := commands + [c];
      posted := posted + [c];
    }

    /** fetchCommand: the oldest command, or none when running; when stopped it waits for one. */
    method FetchCommand() returns (c: Option<Command>)
      requires isRunning || commands != []
      modifies this`commands, this`processed
      ensures if old(commands) == [] then c == None && commands == [] && processed == old(processed)
              else c == Some(old(commands)[0]) && commands == old(commands)[1..]
                   && processed == old(processed) + [old(commands)[0]]
    {
      c := None;
      if isRunning {
        if |commands| > 0 {
          c := Some(commands[0]);
          processed := processed + [commands[0]];
          commands := commands[1..];
        }
      } else {
        c := Some(commands[0]);
        processed := processed + [commands[0]];
        commands := commands[1..];
      }
    }

    /** doExecuteInstr; false where the processor aborts or the peek leaves the ROM. */
    method DoExecuteInstr() returns (ok: bool)
      requires Valid() && phase == Alive
      modifies this`isRunning, this`phase, cpu, wiring.bus, wiring.p1, wiring.p2, wiring.pid, wiring.ext, wiring.panel
      ensures Valid() && ok == (ExecuteInstr(old(View())).phase == Alive)
      ensures ok ==> View() == ExecuteInstr(old(View()))
      ensures !ok ==> phase == ExecuteInstr(old(View())).phase == Aborted
    {
      hide Step;
      var cycles;
      ok, cycles := cpu.ExecuteSingleInstr();
      if !ok {
        phase := Aborted;
        return;
      }
      if breakOnMovx {
        if cpu.regs.pc >= |cpu.rom| {
          phase := Aborted;
          return false;
        }
        var op := cpu.rom[cpu.regs.pc];
        if op == 0x80 || op == 0x81 || op == 0x90 || op == 0x91 {
          isRunning := false;
        }
      }
      if cpu.regs.pc in breakpoints {
        isRunning := false;
      }
    }

    method DoStopExecution()
      modifies this`isRunning
      ensures !isRunning
    {
      if isRunning { isRunning := false; }
    }

    method DoStartExecution()
      modifies this`isRunning, this`interruptsSeen
      ensures isRunning && interruptsSeen == (if old(isRunning) then old(interruptsSeen) else 0)
    {
      if !isRunning {
        interruptsSeen := 0;
        isRunning := true;
      }
    }

    method DoReset()
      requires Valid()
      modifies this`isRunning, cpu, wiring.bus, wiring.p1, wiring.p2, wiring.pid, wiring.ext, wiring.panel
      ensures Valid() && View() == old(View()).(running := false, machine := ResetAll(old(View()).machine))
    {
      hide CpuReset, PidReset;
      DoStopExecution();
      cpu.ResetCpu();
      wiring.pid.DoReset();
      wiring.ext.DoReset();
    }

    method DoLoadState(done: nat, st: EmulatorState)
      requires Valid()
      modifies this`released, cpu, wiring.pid, wiring.ext
      ensures View() == old(View()).(machine := Loaded(old(View()).machine, st),
                                     released := old(released) + [Release(done, st)])
    {
      cpu.InitFromState(st.cpu);
      wiring.pid.InitFromState(st.pid);
      wiring.ext.InitFromState(st.ext);
      released := released + [Release(done, st)];
    }

    method DoSaveState(done: nat)
      requires Valid()
      modifies this`released
      ensures View() == old(View()).(released := old(released) + [Release(done, Capture(old(View()).machine))])
    {
      var c := cpu.SaveToState();
      var p := wiring.pid.SaveToState();
      var e := wiring.ext.SaveToState();
      released := released + [Release(done, EmulatorState(c, p, e))];
    }

    /** The NIL case of the loop. */
    method RunFreely() returns (ok: bool)
      requires Valid() && phase == Alive
      modifies this`isRunning, this`phase, this`interruptsSeen, cpu
      modifies wiring.bus, wiring.p1, wiring.p2, wiring.pid, wiring.ext, wiring.panel
      ensures Valid() && ok == (FreeRun(old(View())).phase == Alive)
      ensures ok ==> View() == FreeRun(old(View()))
      ensures !ok ==> phase == FreeRun(old(View())).phase == Aborted
    {
      hide Step, ExecuteInstr;
      var wasInInterrupt := cpu.inInterrupt;
      ok := DoExecuteInstr();
      if !ok { return; }
      if !wasInInterrupt && cpu.inInterrupt {
        interruptsSeen := (interruptsSeen + 1) % 2;
      }
    }

    /** The other cases of the loop. */
    method Perform(c: Command) returns (ok: bool)
      requires Valid() && phase == Alive
      modifies this`isRunning, this`phase, this`interruptsSeen, this`breakOnMovx, this`breakpoints, this`released,
               cpu, wiring.bus, wiring.p1, wiring.p2, wiring.pid, wiring.ext, wiring.panel
      ensures Valid() && ok == (Process(old(View()), c).phase == Alive)
      ensures Process(old(View()), c).phase != Aborted ==> View() == Process(old(View()), c)
      ensures phase == Process(old(View()), c).phase
    {
      hide ExecuteInstr, Loaded, Capture, ResetAll, Wiring.View, Intel8049.Core;
      ok := true;
      match c {
        case SingleStep =>
          DoStopExecution();
          ok := DoExecuteInstr();
        case Start => DoStartExecution();
        case Stop => DoStopExecution();
        case Reset => DoReset();
        case Quit =>
          phase := Finished;
          ok := false;
        case AddBp(a) => breakpoints := breakpoints + {a};
        case RemoveBp(a) => breakpoints := breakpoints - {a};
        case BreakOnMovx(on) => breakOnMovx := on;
        case LoadState(done, st) => DoLoadState(done, st);
        case SaveState(done) => DoSaveState(done);
      }
    }

    /** One turn of run(); false when the loop ends. */
    method RunOnce() returns (ok: bool)
      requires Valid() && phase == Alive && (isRunning || commands != [])
      modifies this, cpu, wiring.bus, wiring.p1, wiring.p2, wiring.pid, wiring.ext, wiring.panel
      ensures Valid() && ok == (TakeTurn(old(View())).phase == Alive)
      ensures TakeTurn(old(View())).phase != Aborted ==> View() == TakeTurn(old(View()))
      ensures phase == TakeTurn(old(View())).phase
    {
      hide FreeRun, Process;
      var c := FetchCommand();
      match c {
        case None => ok := RunFreely();
        case Some(command) => ok := Perform(command);
      }
    }
  }
}
