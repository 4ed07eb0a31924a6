/** Whole CPU runs drive the board only through the bus operations they log, so the byte map of
    MemoryMap holds for every program. */
module BusRuns {
  import opened Bits
  import opened Board
  import opened MemoryMap
  import opened Panel
  import opened Cpu
  import opened CpuFrames
  import opened TimerRuns

  lemma {:induction false} RunConcat(b: BoardState, g: seq<BusOp>, h: seq<BusOp>)
    ensures RunBus(b, g + h) == RunBus(RunBus(b, g), h)
  {
    hide ApplyBus;
    if h == [] {
      assert g + h == g;
    } else {
      var n := |h| - 1;
      assert (g + h)[..|g + h| - 1] == g + h[..n];
      RunConcat(b, g, h[..n]);
    }
  }

  /** m' continues m: its log extends m's, and its board is m's after the added operations. */
  ghost predicate Follows(m: Machine, m': Machine) {
    m.log.bus <= m'.log.bus && m'.board == RunBus(m.board, m'.log.bus[|m.log.bus|..])
  }

  lemma FollowsSame(m: Machine, m': Machine)
    requires m'.log.bus == m.log.bus && m'.board == m.board
    ensures Follows(m, m')
  {
    assert m'.log.bus[|m.log.bus|..] == [];
  }

  lemma FollowsTrans(a: Machine, b: Machine, c: Machine)
    requires Follows(a, b) && Follows(b, c)
    ensures Follows(a, c)
  {
    var h := b.log.bus[|a.log.bus|..];
    var k := c.log.bus[|b.log.bus|..];
    assert c.log.bus[|a.log.bus|..] == h + k;
    RunConcat(a.board, h, k);
  }

  lemma PortFollows(m: Machine, q: PortInstr, d: byte)
    requires ValidPort(q)
    ensures Follows(m, ExecPort(m, q, d))
  {
    hide PortOps, PortResult, RunBus, ValidPort;
    var ops := PortOps(m.cpu, m.board, q, d, Current(m.inputs));
    assert (m.log.bus + ops)[|m.log.bus|..] == ops;
  }

  lemma ExecPortIs(m: Machine, q: PortInstr, d: byte)
    requires ValidPort(q) && Exec(m, Port(q), d).Some?
    ensures !NoSuchRow(m, q) && Exec(m, Port(q), d).value == ExecPort(m, q, d)
  {
    hide ExecPort, ValidPort;
  }

  lemma ExecFollows(m: Machine, i: Instr, d: byte)
    requires ValidInstr(i) && Exec(m, i, d).Some?
    ensures Follows(m, Exec(m, i, d).value)
  {
    hide Exec, ExecPort, Follows, ValidData, ValidFlow, ValidPort;
    if i.Port? {
      ExecPortIs(m, i.q, d);
      PortFollows(m, i.q, d);
    } else {
      ExecFrame(m, i, d);
      FollowsSame(m, Exec(m, i, d).value);
    }
  }

  lemma HandleBoard(m: Machine)
    ensures HandleInterrupts(m).board == m.board && HandleInterrupts(m).log.bus == m.log.bus
  {
    hide HandleInterrupts, Push;
    HandleFrame(m);
  }

  lemma UserFollows(m: Machine)
    ensures Follows(m, UserActs(m))
  {
    var turned := Turned(m.inputs);
    if turned.None? {
      FollowsSame(m, UserActs(m));
    } else {
      var op := OutP1(turned.value);
      assert (m.log.bus + [op])[|m.log.bus|..] == [op];
      assert [op][..0] == [] && RunBus(m.board, []) == m.board;
    }
  }

  lemma StepFollows(m: Machine)
    requires Step(m).Next?
    ensures Follows(m, Step(m).m)
  {
    hide Exec, Prepared, HandleInterrupts, UserActs, Follows, Decode;
    BodyUnfold(m);
    PreparedFrame(m);
    var (i, d, p) := Prepared(m).value;
    FollowsSame(m, p);
    ExecFollows(p, i, d);
    var b := Body(m).value;
    HandleBoard(b);
    FollowsSame(b, HandleInterrupts(b));
    UserFollows(HandleInterrupts(b));
    FollowsTrans(m, p, b);
    FollowsTrans(m, b, HandleInterrupts(b));
    FollowsTrans(m, HandleInterrupts(b), Step(m).m);
  }

  lemma {:induction false} RunFollows(ms: seq<Machine>)
    requires IsRun(ms)
    ensures Follows(ms[0], ms[|ms| - 1])
  {
    hide Step, Follows;
    if |ms| == 1 {
      FollowsSame(ms[0], ms[0]);
    } else {
      RunInit(ms);
      RunFollows(ms[..|ms| - 1]);
      StepFollows(ms[|ms| - 2]);
      FollowsTrans(ms[0], ms[|ms| - 2], ms[|ms| - 1]);
    }
  }

  /** The byte on P1 after a reset: the switches, if there is a panel. */
  function ShownAfterReset(m: Machine): byte {
    var turned := Turned(m.inputs);
    if turned.Some? then turned.value else AnsweredP1(Current(m.inputs), 255)
  }

  lemma ResetBoard(m: Machine)
    ensures CpuReset(m).board == AfterCpuReset(m.board, ShownAfterReset(m))
  {
    hide WriteP2, Zeros;
    var b, p := m.board, AnsweredP1(Current(m.inputs), 255);
    var ops := [OutBus(0), OutP1(p), P2Full(255)];
    assert ops[..2][..1] == [OutBus(0)] && ops[..2][1] == OutP1(p);
    assert RunBus(b, []) == b;
    assert RunBus(b, ops[..2][..1]) == b.(bus := 0) by { assert [OutBus(0)][..0] == []; }
    assert RunBus(b, ops[..2]) == b.(bus := 0, p1 := p);
    P2FullEffect(b.(bus := 0, p1 := p), 255);
    P2FullEffect(b.(bus := 0, p1 := ShownAfterReset(m)), 255);
  }

  /** The operations on the bus since the reset the run started from. */
  function SinceReset(m: Machine, ms: seq<Machine>): seq<BusOp>
    requires |ms| > 0
  {
    var n := |CpuReset(m).log.bus|;
    if n <= |ms[|ms| - 1].log.bus| then ms[|ms| - 1].log.bus[n..] else []
  }

  /** For every program: in any run from a CPU reset both chips hold exactly what the bus history says. */
  lemma ProgramsSeeByteMap(m: Machine, ms: seq<Machine>)
    requires IsRun(ms) && ms[0] == CpuReset(m)
    ensures Matches(ms[|ms| - 1].board, SinceReset(m, ms))
  {
    hide Step, Matches, CpuReset, AfterCpuReset;
    RunFollows(ms);
    ResetBoard(m);
    BusRefinesMap(m.board, ShownAfterReset(m), SinceReset(m, ms));
  }

  /** For every program: MOVX A, @R leaves in A the byte last written to the addressed cell. */
  lemma MovxReadsLastWritten(m: Machine, ms: seq<Machine>, r: nat)
    requires IsRun(ms) && ms[0] == CpuReset(m) && r < 8
    requires Step(ms[|ms| - 1]).Next? && Decode(FetchByte(ms[|ms| - 1])) == Port(MovxIn(r))
    ensures var z := ms[|ms| - 1];
            Body(z).value.cpu.regs.a == ReadBack(SinceReset(m, ms), ReadReg(z.cpu, r))
  {
    hide Step, Matches, CpuReset, AfterCpuReset, ReadBack, SinceReset, MovxRead;
    var z := ms[|ms| - 1];
    MovxStep(z, r);
    ProgramsSeeByteMap(m, ms);
    ResetBoard(m);
    RunFollows(ms);
    SinceResetBoard(m, ms);
    ReadsLastWritten(m.board, ShownAfterReset(m), SinceReset(m, ms), ReadReg(z.cpu, r));
  }

  lemma SinceResetBoard(m: Machine, ms: seq<Machine>)
    requires |ms| > 0 && ms[0] == CpuReset(m) && Follows(ms[0], ms[|ms| - 1])
    ensures ms[|ms| - 1].board == RunBus(CpuReset(m).board, SinceReset(m, ms))
  {
    hide RunBus, CpuReset;
  }

  lemma MovxStep(m: Machine, r: nat)
    requires Step(m).Next? && r < 8 && Decode(FetchByte(m)) == Port(MovxIn(r))
    ensures Body(m).value.cpu.regs.a == MovxRead(m.board, ReadReg(m.cpu, r)).bus
  {
    hide Decode, Prepared, HandleInterrupts, MovxRead, Exec;
    BodyUnfold(m);
    PreparedFrame(m);
    var (i, d, p) := Prepared(m).value;
    ExecPortIs(p, MovxIn(r), d);
    var ops := [BusOp.Read(ReadReg(p.cpu, r))];
    assert ops[..0] == [] && RunBus(p.board, []) == p.board;
  }
}
