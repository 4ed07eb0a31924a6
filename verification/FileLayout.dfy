/** Where every field of a save file stands, byte by byte. */
module FileLayout {
  import opened Bits
  import opened ExecutorModel
  import opened SaveFile

  // ----- the layout -----

  function Flag(b: bool): byte { if b then 1 else 0 }

  /** Two bytes of data, low one first. */
  function WordAt(data: seq<byte>, p: nat): nat
    requires p + 1 < |data|
  {
    var low: int, high: int := data[p], data[p + 1];
    low + 256 * high
  }

  /** A length and that many bytes. */
  predicate VectorAt(data: seq<byte>, p: nat, v: seq<byte>) {
    p + 2 + |v| <= |data| && WordAt(data, p) == |v| && data[p + 2..p + 2 + |v|] == v
  }

  /** Pins, registers and switches of the processor from p on. */
  predicate CpuFieldsAt(data: seq<byte>, p: nat, s: SavedCpu)
    requires p + 18 <= |data|
  {
    && data[p] == Flag(s.pins.tf) && data[p + 1] == Flag(s.pins.notInt) && data[p + 2] == Flag(s.pins.timerRequest)
    && data[p + 3] == Flag(s.pins.t0) && data[p + 4] == Flag(s.pins.t1)
    && data[p + 5] == s.regs.t && data[p + 6] == s.regs.a && WordAt(data, p + 7) == s.regs.pc
    && data[p + 9] == s.regs.psw && data[p + 10] == s.regs.dbf && data[p + 11] == s.regs.f1
    && data[p + 12] == Flag(s.controls.extEnabled) && data[p + 13] == Flag(s.controls.tcntEnabled)
    && data[p + 14] == Flag(s.controls.counterRunning) && data[p + 15] == Flag(s.controls.timerRunning)
    && data[p + 16] == s.controls.countdown && data[p + 17] == Flag(s.controls.inInterrupt)
  }

  /** The processor stands at p. */
  predicate CpuAt(data: seq<byte>, p: nat, s: SavedCpu) {
    && p + 22 + |s.rom| + |s.ram| <= |data|
    && CpuFieldsAt(data, p, s) && VectorAt(data, p + 18, s.rom) && VectorAt(data, p + 20 + |s.rom|, s.ram)
  }

  /** A chip stands at p. */
  predicate PidAt(data: seq<byte>, p: nat, s: SavedPid) {
    && p + 16 + |s.ram| <= |data|
    && data[p] == s.lines.latch && data[p + 1] == Flag(s.lines.io) && data[p + 2] == Flag(s.lines.ce)
    && data[p + 3] == Flag(s.lines.ale) && data[p + 4] == Flag(s.lines.rd) && data[p + 5] == Flag(s.lines.wr)
    && data[p + 6] == s.ports.pa && data[p + 7] == s.ports.pb && data[p + 8] == s.ports.pc
    && data[p + 9] == s.ports.paMode && data[p + 10] == s.ports.pbMode && data[p + 11] == s.ports.pcMode
    && data[p + 12] == Flag(s.ports.paInterrupt) && data[p + 13] == Flag(s.ports.pbInterrupt)
    && VectorAt(data, p + 14, s.ram)
  }

  // ----- what is written -----

  function From(data: seq<byte>, p: nat): Cursor { Cursor(data, p, false) }

  lemma BytesThere(data: seq<byte>, p: nat, b: seq<byte>)
    requires At(From(data, p), b)
    ensures forall i :: 0 <= i < |b| ==> p + i < |data| && data[p + i] == b[i]
  {
    forall i | 0 <= i < |b| ensures p + i < |data| && data[p + i] == b[i] {
      assert data[p..p + |b|][i] == data[p + i];
    }
  }

  lemma VectorThere(data: seq<byte>, p: nat, v: seq<byte>)
    requires |v| <= MAX_VECTOR && At(From(data, p), VectorBytes(v))
    ensures VectorAt(data, p, v)
  {
    SplitAt(From(data, p), WordBytes(|v|), v);
    BytesThere(data, p, WordBytes(|v|));
  }

  lemma PinsThere(data: seq<byte>, p: nat, s: Pins)
    requires At(From(data, p), PinBytes(s))
    ensures p + 4 < |data| && data[p] == Flag(s.tf) && data[p + 1] == Flag(s.notInt) && data[p + 2] == Flag(s.timerRequest)
    ensures data[p + 3] == Flag(s.t0) && data[p + 4] == Flag(s.t1)
  {
    BytesThere(data, p, PinBytes(s));
    assert data[p + 0] == PinBytes(s)[0];
  }

  lemma RegsThere(data: seq<byte>, p: nat, s: Cpu.Regs)
    requires At(From(data, p + 5), RegBytes(s))
    ensures p + 11 < |data| && data[p + 5] == s.t && data[p + 6] == s.a && WordAt(data, p + 7) == s.pc
    ensures data[p + 9] == s.psw && data[p + 10] == s.dbf && data[p + 11] == s.f1
  {
    BytesThere(data, p + 5, RegBytes(s));
    assert data[p + 5 + 0] == RegBytes(s)[0];
  }

  lemma ControlsThere(data: seq<byte>, p: nat, s: Controls)
    requires At(From(data, p + 12), ControlBytes(s))
    ensures p + 17 < |data| && data[p + 12] == Flag(s.extEnabled) && data[p + 13] == Flag(s.tcntEnabled)
    ensures data[p + 14] == Flag(s.counterRunning) && data[p + 15] == Flag(s.timerRunning)
    ensures data[p + 16] == s.countdown && data[p + 17] == Flag(s.inInterrupt)
  {
    BytesThere(data, p + 12, ControlBytes(s));
    assert data[p + 12 + 0] == ControlBytes(s)[0];
  }

  lemma CpuPieces(data: seq<byte>, p: nat, s: SavedCpu)
    requires CpuFits(s) && At(From(data, p), CpuBytes(s))
    ensures At(From(data, p), PinBytes(s.pins)) && At(From(data, p + 5), RegBytes(s.regs))
    ensures At(From(data, p + 12), ControlBytes(s.controls))
    ensures At(From(data, p + 18), VectorBytes(s.rom)) && At(From(data, p + 20 + |s.rom|), VectorBytes(s.ram))
  {
    hide At, PinBytes, RegBytes, ControlBytes, VectorBytes;
    var rom, ram := VectorBytes(s.rom), VectorBytes(s.ram);
    var afterRegs := ControlBytes(s.controls) + (rom + ram);
    SplitAt(From(data, p), PinBytes(s.pins), RegBytes(s.regs) + afterRegs);
    SplitAt(From(data, p + 5), RegBytes(s.regs), afterRegs);
    SplitAt(From(data, p + 12), ControlBytes(s.controls), rom + ram);
    SplitAt(From(data, p + 18), rom, ram);
    VectorLength(s.rom);
  }

  lemma CpuThere(data: seq<byte>, p: nat, s: SavedCpu)
    requires CpuFits(s) && At(From(data, p), CpuBytes(s))
    ensures CpuAt(data, p, s)
  {
    CpuPieces(data, p, s);
    hide At, CpuBytes, PinBytes, RegBytes, ControlBytes, VectorBytes, VectorAt, CpuFieldsAt;
    FieldsThere(data, p, s);
    VectorThere(data, p + 18, s.rom);
    VectorThere(data, p + 20 + |s.rom|, s.ram);
    VectorInside(data, p + 20 + |s.rom|, s.ram);
  }

  lemma FieldsThere(data: seq<byte>, p: nat, s: SavedCpu)
    requires At(From(data, p), PinBytes(s.pins)) && At(From(data, p + 5), RegBytes(s.regs))
    requires At(From(data, p + 12), ControlBytes(s.controls))
    ensures p + 18 <= |data| && CpuFieldsAt(data, p, s)
  {
    hide At, PinBytes, RegBytes, ControlBytes, WordAt, Flag;
    PinsThere(data, p, s.pins);
    RegsThere(data, p, s.regs);
    ControlsThere(data, p, s.controls);
  }

  lemma VectorLength(v: seq<byte>)
    requires |v| <= MAX_VECTOR
    ensures |VectorBytes(v)| == 2 + |v|
  {
  }

  lemma VectorInside(data: seq<byte>, p: nat, v: seq<byte>)
    requires VectorAt(data, p, v)
    ensures p + 2 + |v| <= |data|
  {
  }

  lemma LinesThere(data: seq<byte>, p: nat, s: Lines)
    requires At(From(data, p), LineBytes(s))
    ensures p + 5 < |data| && data[p] == s.latch && data[p + 1] == Flag(s.io) && data[p + 2] == Flag(s.ce)
    ensures data[p + 3] == Flag(s.ale) && data[p + 4] == Flag(s.rd) && data[p + 5] == Flag(s.wr)
  {
    BytesThere(data, p, LineBytes(s));
    assert data[p + 0] == LineBytes(s)[0];
  }

  lemma PortsThere(data: seq<byte>, p: nat, s: PortBlock)
    requires At(From(data, p), PortBytes(s))
    ensures p + 7 < |data| && data[p] == s.pa && data[p + 1] == s.pb && data[p + 2] == s.pc
    ensures data[p + 3] == s.paMode && data[p + 4] == s.pbMode && data[p + 5] == s.pcMode
    ensures data[p + 6] == Flag(s.paInterrupt) && data[p + 7] == Flag(s.pbInterrupt)
  {
    BytesThere(data, p, PortBytes(s));
    assert data[p + 0] == PortBytes(s)[0];
  }

  lemma PidThere(data: seq<byte>, p: nat, s: SavedPid)
    requires PidFits(s) && At(From(data, p), PidBytes(s))
    ensures PidAt(data, p, s)
  {
    hide At, LineBytes, PortBytes, VectorBytes, VectorAt;
    SplitAt(From(data, p), LineBytes(s.lines), PortBytes(s.ports) + VectorBytes(s.ram));
    SplitAt(From(data, p + 6), PortBytes(s.ports), VectorBytes(s.ram));
    LinesThere(data, p, s.lines);
    PortsThere(data, p + 6, s.ports);
    VectorThere(data, p + 14, s.ram);
    VectorInside(data, p + 14, s.ram);
  }

  /** The file of a state: the six bytes of the header, the processor from 6 on, and the two chips behind its memories. */
  lemma Layout(s: SavedState)
    requires Fits(s)
    ensures var b, chip := FileBytes(s), 28 + |s.cpu.rom| + |s.cpu.ram|;
            && |b| == chip + 32 + |s.pid.ram| + |s.ext.ram|
            && b[..6] == [0x4b, 0x43, 0x50, 0x31, 0x01, 0x00]
            && CpuAt(b, 6, s.cpu) && PidAt(b, chip, s.pid) && PidAt(b, chip + 16 + |s.pid.ram|, s.ext)
  {
    hide CpuBytes, PidBytes, At, CpuAt, PidAt;
    var b := FileBytes(s);
    var cpu, pid, ext := CpuBytes(s.cpu), PidBytes(s.pid), PidBytes(s.ext);
    StartsWith(From(b, 0), b);
    SplitAt(From(b, 0), HEADER, cpu + (pid + ext));
    SplitAt(From(b, 6), cpu, pid + ext);
    SplitAt(From(b, 6 + |cpu|), pid, ext);
    CpuLength(s.cpu);
    PidLength(s.pid);
    PidLength(s.ext);
    CpuThere(b, 6, s.cpu);
    PidThere(b, 6 + |cpu|, s.pid);
    PidThere(b, 6 + |cpu| + |pid|, s.ext);
  }

  lemma CpuLength(s: SavedCpu)
    requires CpuFits(s)
    ensures |CpuBytes(s)| == 22 + |s.rom| + |s.ram|
  {
    hide PinBytes, RegBytes, ControlBytes;
  }

  lemma PidLength(s: SavedPid)
    requires PidFits(s)
    ensures |PidBytes(s)| == 16 + |s.ram|
  {
    hide LineBytes, PortBytes;
  }

  // ----- what is read -----

  /** Every byte that is not 0 reads as true. */
  predicate CpuFrom(data: seq<byte>, p: nat, s: SavedCpu) {
    && p + 22 + |s.rom| + |s.ram| <= |data|
    && s.pins.tf == (data[p] != 0) && s.pins.notInt == (data[p + 1] != 0) && s.pins.timerRequest == (data[p + 2] != 0)
    && s.pins.t0 == (data[p + 3] != 0) && s.pins.t1 == (data[p + 4] != 0)
    && s.regs.t == data[p + 5] && s.regs.a == data[p + 6] && s.regs.pc == WordAt(data, p + 7)
    && s.regs.psw == data[p + 9] && s.regs.dbf == data[p + 10] && s.regs.f1 == data[p + 11]
    && s.controls.extEnabled == (data[p + 12] != 0) && s.controls.tcntEnabled == (data[p + 13] != 0)
    && s.controls.counterRunning == (data[p + 14] != 0) && s.controls.timerRunning == (data[p + 15] != 0)
    && s.controls.countdown == data[p + 16] && s.controls.inInterrupt == (data[p + 17] != 0)
    && VectorAt(data, p + 18, s.rom) && VectorAt(data, p + 20 + |s.rom|, s.ram)
  }

  predicate PidFrom(data: seq<byte>, p: nat, s: SavedPid) {
    && p + 16 + |s.ram| <= |data|
    && s.lines.latch == data[p] && s.lines.io == (data[p + 1] != 0) && s.lines.ce == (data[p + 2] != 0)
    && s.lines.ale == (data[p + 3] != 0) && s.lines.rd == (data[p + 4] != 0) && s.lines.wr == (data[p + 5] != 0)
    && s.ports.pa == data[p + 6] && s.ports.pb == data[p + 7] && s.ports.pc == data[p + 8]
    && s.ports.paMode == data[p + 9] && s.ports.pbMode == data[p + 10] && s.ports.pcMode == data[p + 11]
    && s.ports.paInterrupt == (data[p + 12] != 0) && s.ports.pbInterrupt == (data[p + 13] != 0)
    && VectorAt(data, p + 14, s.ram)
  }

  lemma FailedBefore(c: Cursor, n: nat)
    requires !TakeBytes(c, n).1.fail
    ensures !c.fail
  {
  }

  lemma VectorTaken(c: Cursor)
    requires !TakeVector(c).1.fail
    ensures var (v, d) := TakeVector(c); VectorAt(c.data, c.pos, v) && d.pos == c.pos + 2 + |v|
  {
    var (n, d) := TakeBytes(c, 2);
    FailedBefore(d, WordOf(n));
    BytesRead(c, 2);
    BytesRead(d, WordOf(n));
    hide TakeBytes;
    assert c.data[c.pos + 0] == n[0];
  }

  /** b was read at p. */
  predicate ReadAt(data: seq<byte>, p: nat, b: seq<byte>) {
    p + |b| <= |data| && forall i :: 0 <= i < |b| ==> data[p + i] == b[i]
  }

  lemma BytesTaken(c: Cursor, n: nat)
    requires n > 0 && !TakeBytes(c, n).1.fail
    ensures var (b, d) := TakeBytes(c, n); ReadAt(c.data, c.pos, b) && d.pos == c.pos + n
  {
    BytesRead(c, n);
  }

  lemma PinsRead(data: seq<byte>, p: nat, b: seq<byte>)
    requires |b| == 5 && ReadAt(data, p, b)
    ensures p + 5 <= |data|
    ensures var s := PinsOf(b);
            && s.tf == (data[p] != 0) && s.notInt == (data[p + 1] != 0) && s.timerRequest == (data[p + 2] != 0)
            && s.t0 == (data[p + 3] != 0) && s.t1 == (data[p + 4] != 0)
  {
    assert data[p + 0] == b[0];
  }

  lemma RegsRead(data: seq<byte>, p: nat, b: seq<byte>)
    requires |b| == 7 && ReadAt(data, p, b)
    ensures p + 7 <= |data|
    ensures var s := RegsOf(b);
            && s.t == data[p] && s.a == data[p + 1] && s.pc == WordAt(data, p + 2)
            && s.psw == data[p + 4] && s.dbf == data[p + 5] && s.f1 == data[p + 6]
  {
    assert data[p + 0] == b[0];
  }

  lemma ControlsRead(data: seq<byte>, p: nat, b: seq<byte>)
    requires |b| == 6 && ReadAt(data, p, b)
    ensures p + 6 <= |data|
    ensures var s := ControlsOf(b);
            && s.extEnabled == (data[p] != 0) && s.tcntEnabled == (data[p + 1] != 0)
            && s.counterRunning == (data[p + 2] != 0) && s.timerRunning == (data[p + 3] != 0)
            && s.countdown == data[p + 4] && s.inInterrupt == (data[p + 5] != 0)
  {
    assert data[p + 0] == b[0];
  }

  lemma CpuTaken(c: Cursor)
    requires !TakeCpu(c).1.fail
    ensures var (s, d) := TakeCpu(c); CpuFrom(c.data, c.pos, s) && d.pos == c.pos + 22 + |s.rom| + |s.ram| && d.data == c.data
  {
    hide TakeBytes, TakeVector, VectorAt, WordAt, PinsOf, RegsOf, ControlsOf, ReadAt;
    var (pins, c1) := TakeBytes(c, 5);
    var (regs, c2) := TakeBytes(c1, 7);
    var (controls, c3) := TakeBytes(c2, 6);
    var (rom, c4) := TakeVector(c3);
    BytesTaken(c, 5);
    BytesTaken(c1, 7);
    BytesTaken(c2, 6);
    PinsRead(c.data, c.pos, pins);
    RegsRead(c.data, c1.pos, regs);
    ControlsRead(c.data, c2.pos, controls);
    VectorTaken(c3);
    VectorTaken(c4);
    VectorInside(c.data, c4.pos, TakeVector(c4).0);
  }

  lemma PidTaken(c: Cursor)
    requires !TakePid(c).1.fail
    ensures var (s, d) := TakePid(c); PidFrom(c.data, c.pos, s) && d.pos == c.pos + 16 + |s.ram| && d.data == c.data
  {
    hide TakeBytes, TakeVector, VectorAt;
    var (lines, c1) := TakeBytes(c, 6);
    var (ports, c2) := TakeBytes(c1, 8);
    VectorTaken(c2);
    BytesRead(c, 6);
    BytesRead(c1, 8);
    assert c.data[c.pos + 0] == lines[0] && c.data[c1.pos + 0] == ports[0];
    VectorInside(c.data, c2.pos, TakeVector(c2).0);
  }

  lemma HeaderBytes(data: seq<byte>)
    requires HEADER <= data
    ensures |data| >= 6 && data[..6] == [0x4b, 0x43, 0x50, 0x31, 0x01, 0x00]
  {
  }

  lemma StateTaken(c: Cursor)
    requires !TakeState(c).1.fail
    ensures var s := TakeState(c).0;
            var chip := c.pos + 22 + |s.cpu.rom| + |s.cpu.ram|;
            && CpuFrom(c.data, c.pos, s.cpu) && PidFrom(c.data, chip, s.pid) && PidFrom(c.data, chip + 16 + |s.pid.ram|, s.ext)
            && |c.data| >= chip + 32 + |s.pid.ram| + |s.ext.ram|
  {
    hide TakeCpu, TakePid, CpuFrom, PidFrom;
    var (cpu, d1) := TakeCpu(c);
    var (pid, d2) := TakePid(d1);
    if d2.fail { PidSticks(d2); }
    if d1.fail { PidSticks(d1); }
    CpuTaken(c);
    PidTaken(d1);
    PidTaken(d2);
    PidInside(c.data, d2.pos, TakePid(d2).0);
  }

  /** What is read from data that is accepted: every field from its place in the data, whoever wrote it. */
  lemma Reading(data: seq<byte>)
    requires TakeFile(Open(data)).0.Some?
    ensures var s := TakeFile(Open(data)).0.value;
            var chip := 28 + |s.cpu.rom| + |s.cpu.ram|;
            && |data| >= chip + 32 + |s.pid.ram| + |s.ext.ram|
            && data[..6] == [0x4b, 0x43, 0x50, 0x31, 0x01, 0x00]
            && CpuFrom(data, 6, s.cpu) && PidFrom(data, chip, s.pid) && PidFrom(data, chip + 16 + |s.pid.ram|, s.ext)
  {
    hide TakeBytes, TakeState, CpuFrom, PidFrom, TakeFile, ReadAt, Fits;
    HeaderTaken(data);
    FileTaken(data);
    BytesTaken(Open(data), 6);
    StateTaken(TakeBytes(Open(data), 6).1);
  }

  lemma HeaderTaken(data: seq<byte>)
    requires TakeFile(Open(data)).0.Some?
    ensures |data| >= 6 && data[..6] == [0x4b, 0x43, 0x50, 0x31, 0x01, 0x00]
  {
    hide TakeFile, Fits;
    AcceptedFits(data);
    HeaderBytes(data);
  }

  lemma FileTaken(data: seq<byte>)
    requires TakeFile(Open(data)).0.Some?
    ensures var d := TakeBytes(Open(data), 6).1;
            !d.fail && !TakeState(d).1.fail && TakeFile(Open(data)).0.value == TakeState(d).0
  {
    hide TakeBytes, TakeState;
    var d := TakeBytes(Open(data), 6).1;
  }

  lemma PidInside(data: seq<byte>, p: nat, s: SavedPid)
    requires PidFrom(data, p, s)
    ensures p + 16 + |s.ram| <= |data|
  {
    hide VectorAt;
  }

  // ----- the emulator's own fields -----

  /** Saving and restoring keep every field under its name. */
  predicate SameCpu(c: Cpu.CpuState, s: SavedCpu) {
    && s.pins.tf == c.tf && s.pins.notInt == c.notInt && s.pins.timerRequest == c.timerRequest
    && s.pins.t0 == c.t0 && s.pins.t1 == c.t1 && s.regs == c.regs
    && s.controls.extEnabled == c.extEnabled && s.controls.tcntEnabled == c.tcntEnabled
    && s.controls.counterRunning == c.counterRunning && s.controls.timerRunning == c.timerRunning
    && s.controls.countdown == c.countdown && s.controls.inInterrupt == c.inInterrupt && s.rom == c.rom && s.ram == c.ram
  }

  predicate SamePid(p: Pid8155.PidState, s: SavedPid) {
    && s.lines.latch == p.latch && s.lines.io == p.io && s.lines.ce == p.ce && s.lines.ale == p.ale
    && s.lines.rd == p.rd && s.lines.wr == p.wr
    && s.ports.pa == p.pa && s.ports.pb == p.pb && s.ports.pc == p.pc
    && s.ports.paMode == p.paMode && s.ports.pbMode == p.pbMode && s.ports.pcMode == p.pcMode
    && s.ports.paInterrupt == p.paInterrupt && s.ports.pbInterrupt == p.pbInterrupt && s.ram == p.ram
  }

  predicate SameState(st: EmulatorState, s: SavedState) {
    SameCpu(st.cpu, s.cpu) && SamePid(st.pid, s.pid) && SamePid(st.ext, s.ext)
  }

  lemma StoredIs(st: EmulatorState)
    ensures SameState(st, Stored(st))
  {
  }

  lemma RestoredIs(s: SavedState)
    ensures Restored(s).Some? <==> |s.cpu.ram| == 128 && |s.pid.ram| == 256 && |s.ext.ram| == 256
    ensures Restored(s).Some? ==> SameState(Restored(s).value, s)
  {
  }

  /** A saved emulator, field by field at its place. */
  lemma EmulatorLayout(st: EmulatorState)
    requires |st.cpu.rom| <= 65535
    ensures Fits(Stored(st)) && SameState(st, Stored(st))
    ensures var b, s, n := FileBytes(Stored(st)), Stored(st), |st.cpu.rom|;
            && |b| == n + 700 && b[..6] == [0x4b, 0x43, 0x50, 0x31, 0x01, 0x00]
            && CpuAt(b, 6, s.cpu) && PidAt(b, n + 156, s.pid) && PidAt(b, n + 428, s.ext)
  {
    hide FileBytes, Fits, CpuAt, PidAt, SameState;
    StoredFits(st);
    StoredIs(st);
    Layout(Stored(st));
  }

  // ----- what a refused vector leaves behind -----

  /** A processor is written up to the vector that does not fit. */
  lemma CpuRefused(s: SavedCpu)
    ensures CpuFits(s) ==> CpuOutput(s) == CpuBytes(s)
    ensures |s.rom| > 65535 ==> CpuOutput(s) == CpuBytes(s.(rom := [], ram := []))[..18]
    ensures |s.rom| <= 65535 < |s.ram| ==> CpuOutput(s) == CpuBytes(s.(ram := []))[..20 + |s.rom|]
  {
    hide PinBytes, RegBytes, ControlBytes, VectorBytes;
    if |s.rom| <= 65535 { VectorLength(s.rom); }
  }

  lemma PidRefused(s: SavedPid)
    ensures PidFits(s) ==> PidOutput(s) == PidBytes(s)
    ensures |s.ram| > 65535 ==> PidOutput(s) == PidBytes(s.(ram := []))[..14]
  {
    hide LineBytes, PortBytes, VectorBytes;
  }
}
