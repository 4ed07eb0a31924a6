/** The save-file format of src/emulation/emulatorstate.cpp and src/ui/basewindow.cpp, as functions on bytes. */
module SaveFile {
  import opened Bits
  import opened Cpu
  import opened ExecutorModel
  import opened Pid8155
  import opened Wrappers

  datatype Pins = Pins(tf: bool, notInt: bool, timerRequest: bool, t0: bool, t1: bool)
  datatype Controls = Controls(extEnabled: bool, tcntEnabled: bool, counterRunning: bool, timerRunning: bool,
                               countdown: byte, inInterrupt: bool)

  /** The saved processor and chips; a file may hold memories of any length up to 65535. */
  datatype SavedCpu = SavedCpu(pins: Pins, regs: Regs, controls: Controls, rom: seq<byte>, ram: seq<byte>)
  datatype Lines = Lines(latch: byte, io: bool, ce: bool, ale: bool, rd: bool, wr: bool)
  datatype PortBlock = PortBlock(pa: byte, pb: byte, pc: byte, paMode: byte, pbMode: byte, pcMode: byte,
                                 paInterrupt: bool, pbInterrupt: bool)
  datatype SavedPid = SavedPid(lines: Lines, ports: PortBlock, ram: seq<byte>)
  datatype SavedState = SavedState(cpu: SavedCpu, pid: SavedPid, ext: SavedPid)

  const MAX_VECTOR: nat := 65535
  const HEADER: seq<byte> := [0x4b, 0x43, 0x50, 0x31, 0x01, 0x00]

  // ----- writing -----

  function BoolByte(b: bool): byte { if b then 1 else 0 }

  function PinBytes(p: Pins): (b: seq<byte>)
    ensures |b| == 5
  {
    [BoolByte(p.tf), BoolByte(p.notInt), BoolByte(p.timerRequest), BoolByte(p.t0), BoolByte(p.t1)]
  }

  function RegBytes(r: Regs): (b: seq<byte>)
    ensures |b| == 7
  {
    [r.t, r.a, r.pc % 256, r.pc / 256, r.psw, r.dbf, r.f1]
  }

  function ControlBytes(c: Controls): (b: seq<byte>)
    ensures |b| == 6
  {
    [BoolByte(c.extEnabled), BoolByte(c.tcntEnabled), BoolByte(c.counterRunning), BoolByte(c.timerRunning),
     c.countdown, BoolByte(c.inInterrupt)]
  }

  function LineBytes(l: Lines): (b: seq<byte>)
    ensures |b| == 6
  {
    [l.latch, BoolByte(l.io), BoolByte(l.ce), BoolByte(l.ale), BoolByte(l.rd), BoolByte(l.wr)]
  }

  function PortBytes(p: PortBlock): (b: seq<byte>)
    ensures |b| == 8
  {
    [p.pa, p.pb, p.pc, p.paMode, p.pbMode, p.pcMode, BoolByte(p.paInterrupt), BoolByte(p.pbInterrupt)]
  }

  function WordBytes(w: word): seq<byte> { [w % 256, w / 256] }

  function VectorBytes(v: seq<byte>): seq<byte>
    requires |v| <= MAX_VECTOR
  {
    WordBytes(|v|) + v
  }

  predicate CpuFits(s: SavedCpu) { |s.rom| <= MAX_VECTOR && |s.ram| <= MAX_VECTOR }
  predicate PidFits(s: SavedPid) { |s.ram| <= MAX_VECTOR }
  predicate Fits(s: SavedState) { CpuFits(s.cpu) && PidFits(s.pid) && PidFits(s.ext) }

  function CpuBytes(s: SavedCpu): seq<byte>
    requires CpuFits(s)
  {
    PinBytes(s.pins) + (RegBytes(s.regs) + (ControlBytes(s.controls) + (VectorBytes(s.rom) + VectorBytes(s.ram))))
  }

  function PidBytes(s: SavedPid): seq<byte>
    requires PidFits(s)
  {
    LineBytes(s.lines) + (PortBytes(s.ports) + VectorBytes(s.ram))
  }

  function StateBytes(s: SavedState): seq<byte>
    requires Fits(s)
  {
    CpuBytes(s.cpu) + (PidBytes(s.pid) + PidBytes(s.ext))
  }

  function FileBytes(s: SavedState): seq<byte>
    requires Fits(s)
  {
    HEADER + StateBytes(s)
  }

  /** What has been written when a vector that does not fit stops the printer. */
  function CpuOutput(s: SavedCpu): seq<byte> {
    PinBytes(s.pins) + (RegBytes(s.regs) + ControlBytes(s.controls)) +
    (if |s.rom| > MAX_VECTOR then [] else VectorBytes(s.rom)) +
    (if !CpuFits(s) then [] else VectorBytes(s.ram))
  }

  function PidOutput(s: SavedPid): seq<byte> {
    LineBytes(s.lines) + PortBytes(s.ports) + (if PidFits(s) then VectorBytes(s.ram) else [])
  }

  function StateOutput(s: SavedState): seq<byte> {
    CpuOutput(s.cpu) +
    (if !CpuFits(s.cpu) then [] else PidOutput(s.pid)) +
    (if !CpuFits(s.cpu) || !PidFits(s.pid) then [] else PidOutput(s.ext))
  }

  // ----- reading -----

  /** An input stream: the position and the fail bit, which once set stays set. */
  datatype Cursor = Cursor(data: seq<byte>, pos: nat, fail: bool)

  /** get(): the next byte; at the end of the data the fail bit is set and 255 results. */
  function TakeByte(c: Cursor): (byte, Cursor) {
    if !c.fail && c.pos < |c.data| then (c.data[c.pos], c.(pos := c.pos + 1)) else (255, c.(fail := true))
  }

  function TakeBytes(c: Cursor, n: nat): (r: (seq<byte>, Cursor))
    ensures |r.0| == n && r.1.data == c.data
    ensures c.fail ==> r.1.fail
  {
    if n == 0 then ([], c)
    else
      var (front, d) := TakeBytes(c, n - 1);
      var (last, e) := TakeByte(d);
      (front + [last], e)
  }

  function WordOf(b: seq<byte>): word
    requires |b| == 2
  {
    var l: int, h: int := b[0], b[1];
    l + 256 * h
  }

  function TakeVector(c: Cursor): (r: (seq<byte>, Cursor))
    ensures |r.0| <= MAX_VECTOR && r.1.data == c.data && (c.fail ==> r.1.fail)
  {
    var (n, d) := TakeBytes(c, 2);
    TakeBytes(d, WordOf(n))
  }

  function PinsOf(b: seq<byte>): Pins
    requires |b| == 5
  {
    Pins(b[0] != 0, b[1] != 0, b[2] != 0, b[3] != 0, b[4] != 0)
  }

  function RegsOf(b: seq<byte>): Regs
    requires |b| == 7
  {
    Regs(b[0], b[1], WordOf([b[2], b[3]]), b[4], b[5], b[6])
  }

  function ControlsOf(b: seq<byte>): Controls
    requires |b| == 6
  {
    Controls(b[0] != 0, b[1] != 0, b[2] != 0, b[3] != 0, b[4], b[5] != 0)
  }

  function LinesOf(b: seq<byte>): Lines
    requires |b| == 6
  {
    Lines(b[0], b[1] != 0, b[2] != 0, b[3] != 0, b[4] != 0, b[5] != 0)
  }

  function PortsOf(b: seq<byte>): PortBlock
    requires |b| == 8
  {
    PortBlock(b[0], b[1], b[2], b[3], b[4], b[5], b[6] != 0, b[7] != 0)
  }

  function TakeCpu(c: Cursor): (SavedCpu, Cursor) {
    var (pins, c1) := TakeBytes(c, 5);
    var (regs, c2) := TakeBytes(c1, 7);
    var (controls, c3) := TakeBytes(c2, 6);
    var (rom, c4) := TakeVector(c3);
    var (ram, c5) := TakeVector(c4);
    (SavedCpu(PinsOf(pins), RegsOf(regs), ControlsOf(controls), rom, ram), c5)
  }

  function TakePid(c: Cursor): (SavedPid, Cursor) {
    var (lines, c1) := TakeBytes(c, 6);
    var (ports, c2) := TakeBytes(c1, 8);
    var (ram, c3) := TakeVector(c2);
    (SavedPid(LinesOf(lines), PortsOf(ports), ram), c3)
  }

  function TakeState(c: Cursor): (SavedState, Cursor) {
    var (cpu, c1) := TakeCpu(c);
    var (pid, c2) := TakePid(c1);
    var (ext, c3) := TakePid(c2);
    (SavedState(cpu, pid, ext), c3)
  }

  /** The load action: the header must be whole and exact, and the fail bit clear at the end. */
  function TakeFile(c: Cursor): (Option<SavedState>, Cursor) {
    var (h, d) := TakeBytes(c, 6);
    if d.fail || h != HEADER then (None, d)
    else
      var (s, e) := TakeState(d);
      if e.fail then (None, e) else (Some(s), e)
  }

  function Open(data: seq<byte>): Cursor { Cursor(data, 0, false) }

  // ----- what reading does -----

  /** The bytes b are next. */
  predicate At(c: Cursor, b: seq<byte>) {
    !c.fail && c.pos + |b| <= |c.data| && c.data[c.pos..c.pos + |b|] == b
  }

  function Past(c: Cursor, n: nat): Cursor { c.(pos := c.pos + n) }

  lemma Slice(data: seq<byte>, pos: nat, n: nat, k: nat)
    requires pos + n <= |data| && k <= n
    ensures data[pos..pos + k] == data[pos..pos + n][..k]
    ensures data[pos + k..pos + n] == data[pos..pos + n][k..]
  {
  }

  lemma SplitAt(c: Cursor, a: seq<byte>, b: seq<byte>)
    requires At(c, a + b)
    ensures At(c, a) && At(Past(c, |a|), b)
  {
    Slice(c.data, c.pos, |a + b|, |a|);
    assert (a + b)[..|a|] == a && (a + b)[|a|..] == b;
    assert c.pos + |a + b| == Past(c, |a|).pos + |b|;
  }

  lemma ByteNext(c: Cursor, x: byte)
    requires At(c, [x])
    ensures !c.fail && c.pos < |c.data| && c.data[c.pos] == x
  {
    assert c.data[c.pos] == c.data[c.pos..c.pos + 1][0];
  }

  lemma {:induction false} BytesBack(c: Cursor, b: seq<byte>)
    requires At(c, b)
    ensures TakeBytes(c, |b|) == (b, Past(c, |b|))
  {
    if b != [] {
      var n := |b| - 1;
      assert b == b[..n] + [b[n]];
      SplitAt(c, b[..n], [b[n]]);
      ByteNext(Past(c, n), b[n]);
      hide At;
      BytesBack(c, b[..n]);
    }
  }

  lemma StartsWith(c: Cursor, b: seq<byte>)
    requires c.pos == 0 && !c.fail && b <= c.data
    ensures At(c, b)
  {
  }

  lemma VectorBack(c: Cursor, v: seq<byte>)
    requires |v| <= MAX_VECTOR && At(c, VectorBytes(v))
    ensures TakeVector(c) == (v, Past(c, |VectorBytes(v)|))
  {
    WordBack(|v|);
    hide At, TakeBytes, WordOf, WordBytes;
    SplitAt(c, WordBytes(|v|), v);
    BytesBack(c, WordBytes(|v|));
    BytesBack(Past(c, 2), v);
  }

  lemma WordBack(w: word)
    ensures |WordBytes(w)| == 2 && WordOf(WordBytes(w)) == w
  {
  }

  lemma BlocksBack(p: Pins, r: Regs, c: Controls)
    ensures PinsOf(PinBytes(p)) == p && RegsOf(RegBytes(r)) == r && ControlsOf(ControlBytes(c)) == c
  {
  }

  lemma PidBlocksBack(l: Lines, p: PortBlock)
    ensures LinesOf(LineBytes(l)) == l && PortsOf(PortBytes(p)) == p
  {
  }

  lemma CpuBack(c: Cursor, s: SavedCpu)
    requires CpuFits(s) && At(c, CpuBytes(s))
    ensures TakeCpu(c) == (s, Past(c, |CpuBytes(s)|))
  {
    BlocksBack(s.pins, s.regs, s.controls);
    hide TakeBytes, TakeVector, At, VectorBytes, PinBytes, RegBytes, ControlBytes, PinsOf, RegsOf, ControlsOf;
    var rom, ram := VectorBytes(s.rom), VectorBytes(s.ram);
    SplitAt(c, PinBytes(s.pins), RegBytes(s.regs) + (ControlBytes(s.controls) + (rom + ram)));
    BytesBack(c, PinBytes(s.pins));
    SplitAt(Past(c, 5), RegBytes(s.regs), ControlBytes(s.controls) + (rom + ram));
    BytesBack(Past(c, 5), RegBytes(s.regs));
    SplitAt(Past(c, 12), ControlBytes(s.controls), rom + ram);
    BytesBack(Past(c, 12), ControlBytes(s.controls));
    SplitAt(Past(c, 18), rom, ram);
    VectorBack(Past(c, 18), s.rom);
    VectorBack(Past(c, 18 + |rom|), s.ram);
  }

  lemma PidBack(c: Cursor, s: SavedPid)
    requires PidFits(s) && At(c, PidBytes(s))
    ensures TakePid(c) == (s, Past(c, |PidBytes(s)|))
  {
    PidBlocksBack(s.lines, s.ports);
    hide TakeBytes, TakeVector, At, VectorBytes, LineBytes, PortBytes, LinesOf, PortsOf;
    var ram := VectorBytes(s.ram);
    SplitAt(c, LineBytes(s.lines), PortBytes(s.ports) + ram);
    BytesBack(c, LineBytes(s.lines));
    SplitAt(Past(c, 6), PortBytes(s.ports), ram);
    BytesBack(Past(c, 6), PortBytes(s.ports));
    VectorBack(Past(c, 14), s.ram);
  }

  lemma StateBack(c: Cursor, s: SavedState)
    requires Fits(s) && At(c, StateBytes(s))
    ensures TakeState(c) == (s, Past(c, |StateBytes(s)|))
  {
    hide TakeBytes, TakeCpu, TakePid, At, CpuBytes, PidBytes;
    var cpu, pid, ext := CpuBytes(s.cpu), PidBytes(s.pid), PidBytes(s.ext);
    SplitAt(c, cpu, pid + ext);
    CpuBack(c, s.cpu);
    SplitAt(Past(c, |cpu|), pid, ext);
    PidBack(Past(c, |cpu|), s.pid);
    PidBack(Past(c, |cpu| + |pid|), s.ext);
  }

  lemma FileBack(c: Cursor, s: SavedState)
    requires Fits(s) && !c.fail && At(c, HEADER) && At(Past(c, 6), StateBytes(s))
    ensures TakeFile(c) == (Some(s), Past(c, 6 + |StateBytes(s)|))
  {
    hide At, TakeBytes, TakeState, StateBytes;
    BytesBack(c, HEADER);
    StateBack(Past(c, 6), s);
  }

  /** A saved file followed by anything decodes to the saved state and consumes exactly its own bytes. */
  lemma FileRoundTrip(s: SavedState, suffix: seq<byte>)
    requires Fits(s)
    ensures TakeFile(Open(FileBytes(s) + suffix)) == (Some(s), Past(Open(FileBytes(s) + suffix), |FileBytes(s)|))
  {
    var c, state := Open(FileBytes(s) + suffix), StateBytes(s);
    hide At, StateBytes, TakeFile, Fits;
    StartsWith(c, FileBytes(s));
    SplitAt(c, HEADER, state);
    FileBack(c, s);
  }

  // ----- truncated files -----

  /** The same stream with more data behind it. */
  function Longer(c: Cursor, more: seq<byte>): Cursor { c.(data := c.data + more) }

  lemma {:induction false} BytesLonger(c: Cursor, n: nat, more: seq<byte>)
    requires !TakeBytes(c, n).1.fail
    ensures TakeBytes(Longer(c, more), n) == (TakeBytes(c, n).0, Longer(TakeBytes(c, n).1, more))
    ensures TakeBytes(c, n).1.pos == c.pos + n && (n > 0 ==> c.pos + n <= |c.data|)
  {
    if n > 0 { BytesLonger(c, n - 1, more); }
  }

  lemma VectorLonger(c: Cursor, more: seq<byte>)
    requires !TakeVector(c).1.fail
    ensures TakeVector(Longer(c, more)) == (TakeVector(c).0, Longer(TakeVector(c).1, more))
    ensures TakeVector(c).1.pos <= |c.data|
  {
    hide TakeBytes;
    BytesLonger(c, 2, more);
    var (n, d) := TakeBytes(c, 2);
    BytesLonger(d, WordOf(n), more);
  }

  lemma CpuLonger(c: Cursor, more: seq<byte>)
    requires !TakeCpu(c).1.fail
    ensures TakeCpu(Longer(c, more)) == (TakeCpu(c).0, Longer(TakeCpu(c).1, more))
    ensures TakeCpu(c).1.pos <= |c.data| && TakeCpu(c).1.data == c.data
  {
    hide TakeBytes, TakeVector, PinsOf, RegsOf, ControlsOf;
    var c1 := TakeBytes(c, 5).1;
    var c2 := TakeBytes(c1, 7).1;
    var c3 := TakeBytes(c2, 6).1;
    var c4 := TakeVector(c3).1;
    BytesLonger(c, 5, more);
    BytesLonger(c1, 7, more);
    BytesLonger(c2, 6, more);
    VectorLonger(c3, more);
    VectorLonger(c4, more);
  }

  lemma PidLonger(c: Cursor, more: seq<byte>)
    requires !TakePid(c).1.fail
    ensures TakePid(Longer(c, more)) == (TakePid(c).0, Longer(TakePid(c).1, more))
    ensures TakePid(c).1.pos <= |c.data| && TakePid(c).1.data == c.data
  {
    hide TakeBytes, TakeVector, LinesOf, PortsOf;
    var c1 := TakeBytes(c, 6).1;
    var c2 := TakeBytes(c1, 8).1;
    BytesLonger(c, 6, more);
    BytesLonger(c1, 8, more);
    VectorLonger(c2, more);
  }

  lemma PidSticks(c: Cursor)
    requires c.fail
    ensures TakePid(c).1.fail
  {
    hide TakeBytes, TakeVector, LinesOf, PortsOf;
  }

  /** An accepted file stays accepted, with the same state and consumption, whatever follows it. */
  lemma FileLonger(c: Cursor, more: seq<byte>)
    requires TakeFile(c).0.Some?
    ensures TakeFile(Longer(c, more)) == (TakeFile(c).0, Longer(TakeFile(c).1, more))
    ensures TakeFile(c).1.pos <= |c.data|
  {
    hide TakeBytes, TakeCpu, TakePid;
    var d := TakeBytes(c, 6).1;
    var d1 := TakeCpu(d).1;
    var d2 := TakePid(d1).1;
    if d2.fail { PidSticks(d2); }
    if d1.fail { PidSticks(d1); }
    BytesLonger(c, 6, more);
    CpuLonger(d, more);
    PidLonger(d1, more);
    PidLonger(d2, more);
  }

  /** Every strict prefix of a saved file is rejected. */
  lemma PrefixRejected(s: SavedState, n: nat)
    requires Fits(s) && n < |FileBytes(s)|
    ensures TakeFile(Open(FileBytes(s)[..n])).0 == None
  {
    hide TakeFile, FileBytes;
    var whole := FileBytes(s);
    var c := Open(whole[..n]);
    FileRoundTrip(s, []);
    assert whole + [] == whole && whole[..n] + whole[n..] == whole;
    assert Longer(c, whole[n..]) == Open(whole);
    if TakeFile(c).0.Some? { FileLonger(c, whole[n..]); }
  }

  /** Every accepted file holds a state that can be saved again. */
  lemma AcceptedFits(data: seq<byte>)
    requires TakeFile(Open(data)).0.Some?
    ensures Fits(TakeFile(Open(data)).0.value)
    ensures HEADER <= data
  {
    hide TakeVector, PinsOf, RegsOf, ControlsOf, LinesOf, PortsOf;
    HeaderRead(Open(data));
  }

  lemma {:induction false} HeaderRead(c: Cursor)
    requires c.pos == 0 && !TakeBytes(c, 6).1.fail && TakeBytes(c, 6).0 == HEADER
    ensures HEADER <= c.data
  {
    BytesLonger(c, 6, []);
    BytesRead(c, 6);
  }

  lemma {:induction false} BytesRead(c: Cursor, n: nat)
    requires !TakeBytes(c, n).1.fail
    ensures TakeBytes(c, n).1.pos == c.pos + n && (n > 0 ==> c.pos + n <= |c.data|)
    ensures forall i :: 0 <= i < n ==> c.pos + i < |c.data| && TakeBytes(c, n).0[i] == c.data[c.pos + i]
  {
    if n > 0 { BytesRead(c, n - 1); }
  }

  // ----- saving and loading the emulator -----

  function Stored(st: EmulatorState): SavedState {
    SavedState(CpuStored(st.cpu), PidStored(st.pid), PidStored(st.ext))
  }

  function CpuStored(c: CpuState): SavedCpu {
    SavedCpu(Pins(c.tf, c.notInt, c.timerRequest, c.t0, c.t1), c.regs,
             Controls(c.extEnabled, c.tcntEnabled, c.counterRunning, c.timerRunning, c.countdown, c.inInterrupt),
             c.rom, c.ram)
  }

  function PidStored(p: PidState): SavedPid {
    SavedPid(Lines(p.latch, p.io, p.ce, p.ale, p.rd, p.wr),
             PortBlock(p.pa, p.pb, p.pc, p.paMode, p.pbMode, p.pcMode, p.paInterrupt, p.pbInterrupt), p.ram)
  }

  /** Two emulator states with the same file are the same state. */
  lemma FileDetermines(a: EmulatorState, b: EmulatorState)
    requires |a.cpu.rom| <= MAX_VECTOR && |b.cpu.rom| <= MAX_VECTOR
    ensures Fits(Stored(a)) && Fits(Stored(b))
    ensures FileBytes(Stored(a)) == FileBytes(Stored(b)) ==> a == b
  {
    hide TakeFile, FileBytes, Stored;
    StoredFits(a);
    StoredFits(b);
    FileRoundTrip(Stored(a), []);
    FileRoundTrip(Stored(b), []);
    SameStored(a, b);
  }

  lemma StoredFits(a: EmulatorState)
    requires |a.cpu.rom| <= MAX_VECTOR
    ensures Fits(Stored(a))
  {
  }

  lemma SameStored(a: EmulatorState, b: EmulatorState)
    ensures Stored(a) == Stored(b) ==> a == b
  {
  }

  /** The emulator state a loaded file stands for; the memories have to have the lengths of the chips. */
  function Restored(s: SavedState): Option<EmulatorState> {
    if |s.cpu.ram| != 128 || |s.pid.ram| != 256 || |s.ext.ram| != 256 then None
    else Some(EmulatorState(CpuRestored(s.cpu), PidRestored(s.pid), PidRestored(s.ext)))
  }

  function CpuRestored(s: SavedCpu): CpuState
    requires |s.ram| == 128
  {
    CpuState(s.pins.tf, s.pins.notInt, s.pins.timerRequest, s.pins.t0, s.pins.t1, s.regs,
             s.controls.extEnabled, s.controls.tcntEnabled, s.controls.counterRunning, s.controls.timerRunning,
             s.controls.countdown, s.controls.inInterrupt, s.rom, s.ram)
  }

  function PidRestored(s: SavedPid): PidState
    requires |s.ram| == 256
  {
    PidState(s.lines.latch, s.lines.io, s.lines.ce, s.lines.ale, s.lines.rd, s.lines.wr, s.ports.pa, s.ports.pb, s.ports.pc,
             s.ports.paMode, s.ports.pbMode, s.ports.pcMode, s.ports.paInterrupt, s.ports.pbInterrupt, s.ram)
  }

  lemma RestoredStored(st: EmulatorState)
    ensures Restored(Stored(st)) == Some(st)
  {
  }

  predicate SameLatches(m: Machine, n: Machine) {
    m.board.bus == n.board.bus && m.board.p1 == n.board.p1 && m.board.p2 == n.board.p2
  }

  /** m up to the port latches, which stay those of now. */
  predicate Revived(m': Machine, m: Machine, now: Machine) {
    && m'.cpu == m.cpu && m'.board.pid == m.board.pid && m'.board.ext == m.board.ext
    && SameLatches(m', now) && m'.log == now.log && m'.inputs == now.inputs
    && (m' == m.(log := now.log, inputs := now.inputs) <==> SameLatches(m, now))
  }

  /** The whole way: one executor saves, the state is written to a file, read back from it and loaded by the same
      or another executor. The saved machine runs on, up to the port latches, which are in no file; it is that
      machine exactly when the latches happen to be the same. */
  lemma SaveThenLoad(s: Executor, t: Executor, suffix: seq<byte>)
    requires s.phase == Alive && s.queue != [] && s.queue[0].SaveState? && |s.machine.cpu.rom| <= MAX_VECTOR
    requires t.phase == Alive && t.queue != [] && t.queue[0].LoadState?
    ensures |TakeTurn(s).released| == |s.released| + 1 && Fits(Stored(TakeTurn(s).released[|s.released|].state))
    ensures var read := TakeFile(Open(FileBytes(Stored(TakeTurn(s).released[|s.released|].state)) + suffix)).0;
            && read.Some? && Restored(read.value).Some?
            && (Restored(read.value) == Some(t.queue[0].state) ==> Revived(TakeTurn(t).machine, s.machine, t.machine))
  {
    var st := Capture(s.machine);
    TurnReleases(s);
    StoredFits(st);
    FileRoundTrip(Stored(st), suffix);
    RestoredStored(st);
    hide TakeFile, FileBytes, Restored, Stored, Fits;
    LoadsTo(t, st, s.machine);
  }

  lemma LoadsTo(t: Executor, st: EmulatorState, m: Machine)
    requires t.phase == Alive && t.queue != [] && t.queue[0].LoadState? && st == Capture(m)
    ensures st == t.queue[0].state ==> Revived(TakeTurn(t).machine, m, t.machine)
  {
    assert TakeTurn(t).machine == Loaded(t.machine, t.queue[0].state);
  }
}
