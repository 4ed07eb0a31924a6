/** The printers and parsers of src/emulation/emulatorstate.cpp and src/ui/basewindow.cpp on streams. */
module SaveStreams {
  import opened Bits
  import opened Cpu
  import opened SaveFile
  import opened Wrappers

  class OutStream {
    var data: seq<byte>

    constructor ()
      ensures data == []
    {
      data := [];
    }

    method WriteU8(v: byte)
      modifies this
      ensures data == old(data) + [v]
    {
      data := data + [v];
    }

    method WriteU16(v: word)
      modifies this
      ensures data == old(data) + WordBytes(v)
    {
      WriteU8(v % 256);
      WriteU8(v / 256);
    }

    /** False where the source throws length_error; nothing is written then. */
    method WriteU8v(v: seq<byte>) returns (ok: bool)
      modifies this
      ensures ok == (|v| <= MAX_VECTOR)
      ensures data == if ok then old(data) + VectorBytes(v) else old(data)
    {
      if |v| > 65535 { return false; }
      WriteU16(|v|);
      ghost var before := data;
      for i := 0 to |v|
        invariant data == before + v[..i]
      {
        WriteU8(v[i]);
        assert v[..i + 1] == v[..i] + [v[i]];
      }
      assert v[..|v|] == v;
      Regrouped(old(data), WordBytes(|v|), v);
      ok := true;
    }

    method WritePins(p: Pins)
      modifies this
      ensures data == old(data) + PinBytes(p)
    {
      WriteU8(BoolByte(p.tf));
      WriteU8(BoolByte(p.notInt));
      WriteU8(BoolByte(p.timerRequest));
      WriteU8(BoolByte(p.t0));
      WriteU8(BoolByte(p.t1));
    }

    method WriteRegs(r: Regs)
      modifies this
      ensures data == old(data) + RegBytes(r)
    {
      WriteU8(r.t);
      WriteU8(r.a);
      WriteU16(r.pc);
      WriteU8(r.psw);
      WriteU8(r.dbf);
      WriteU8(r.f1);
    }

    method WriteControls(c: Controls)
      modifies this
      ensures data == old(data) + ControlBytes(c)
    {
      WriteU8(BoolByte(c.extEnabled));
      WriteU8(BoolByte(c.tcntEnabled));
      WriteU8(BoolByte(c.counterRunning));
      WriteU8(BoolByte(c.timerRunning));
      WriteU8(c.countdown);
      WriteU8(BoolByte(c.inInterrupt));
    }

    method WriteCpu(s: SavedCpu) returns (ok: bool)
      modifies this
      ensures ok == CpuFits(s)
      ensures data == old(data) + CpuOutput(s)
      ensures ok ==> data == old(data) + CpuBytes(s)
    {
      hide PinBytes, RegBytes, ControlBytes, VectorBytes;
      WritePins(s.pins);
      WriteRegs(s.regs);
      WriteControls(s.controls);
      Chain3(old(data), PinBytes(s.pins), RegBytes(s.regs), ControlBytes(s.controls));
      ok := WriteU8v(s.rom);
      if !ok { return; }
      ok := WriteU8v(s.ram);
      if ok {
        Chain5(old(data), PinBytes(s.pins), RegBytes(s.regs), ControlBytes(s.controls),
               VectorBytes(s.rom), VectorBytes(s.ram));
      }
    }

    method WriteLines(l: Lines)
      modifies this
      ensures data == old(data) + LineBytes(l)
    {
      WriteU8(l.latch);
      WriteU8(BoolByte(l.io));
      WriteU8(BoolByte(l.ce));
      WriteU8(BoolByte(l.ale));
      WriteU8(BoolByte(l.rd));
      WriteU8(BoolByte(l.wr));
    }

    method WritePorts(p: PortBlock)
      modifies this
      ensures data == old(data) + PortBytes(p)
    {
      WriteU8(p.pa);
      WriteU8(p.pb);
      WriteU8(p.pc);
      WriteU8(p.paMode);
      WriteU8(p.pbMode);
      WriteU8(p.pcMode);
      WriteU8(BoolByte(p.paInterrupt));
      WriteU8(BoolByte(p.pbInterrupt));
    }

    method WritePid(s: SavedPid) returns (ok: bool)
      modifies this
      ensures ok == PidFits(s)
      ensures data == old(data) + PidOutput(s)
      ensures ok ==> data == old(data) + PidBytes(s)
    {
      hide LineBytes, PortBytes, VectorBytes;
      WriteLines(s.lines);
      WritePorts(s.ports);
      Regrouped(old(data), LineBytes(s.lines), PortBytes(s.ports));
      ok := WriteU8v(s.ram);
      if ok { Chain3(old(data), LineBytes(s.lines), PortBytes(s.ports), VectorBytes(s.ram)); }
    }

    method WriteState(s: SavedState) returns (ok: bool)
      modifies this
      ensures ok == Fits(s)
      ensures data == old(data) + StateOutput(s)
      ensures ok ==> data == old(data) + StateBytes(s)
    {
      hide CpuBytes, PidBytes, CpuOutput, PidOutput;
      ok := WriteCpu(s.cpu);
      if !ok { return; }
      ok := WritePid(s.pid);
      if !ok { return; }
      ok := WritePid(s.ext);
      if ok { Chain3(old(data), CpuBytes(s.cpu), PidBytes(s.pid), PidBytes(s.ext)); }
    }

    /** writeStateHeader: the magic number from the top byte down, then the version from the low byte up. */
    method WriteHeader()
      modifies this
      ensures data == old(data) + HEADER
    {
      var magic, version := 0x4b43_5031, 1;
      WriteU8(magic / 0x100_0000 % 256);
      WriteU8(magic / 0x1_0000 % 256);
      WriteU8(magic / 0x100 % 256);
      WriteU8(magic % 256);
      WriteU8(version % 256);
      WriteU8(version / 256 % 256);
    }

    /** The save action. */
    method Save(s: SavedState) returns (ok: bool)
      modifies this
      ensures ok == Fits(s)
      ensures data == old(data) + HEADER + StateOutput(s)
      ensures ok ==> data == old(data) + FileBytes(s)
    {
      hide StateBytes, StateOutput;
      WriteHeader();
      ok := WriteState(s);
      if ok { Regrouped(old(data), HEADER, StateBytes(s)); }
    }
  }

  lemma Regrouped(d: seq<byte>, a: seq<byte>, b: seq<byte>)
    ensures d + a + b == d + (a + b)
  {
  }

  lemma Chain3(d: seq<byte>, a: seq<byte>, b: seq<byte>, c: seq<byte>)
    ensures d + a + b + c == d + (a + (b + c))
  {
    Regrouped(d, a, b + c);
    Regrouped(d + a, b, c);
  }

  lemma Chain5(d: seq<byte>, a: seq<byte>, b: seq<byte>, c: seq<byte>, e: seq<byte>, f: seq<byte>)
    ensures d + a + b + c + e + f == d + (a + (b + (c + (e + f))))
  {
    Chain3(d + a + b, c, e, f);
    Chain3(d, a, b, c + (e + f));
  }

  class InStream {
    const data: seq<byte>
    var pos: nat
    var fail: bool

    constructor (content: seq<byte>)
      ensures View() == Open(content)
    {
      data, pos, fail := content, 0, false;
    }

    ghost function View(): Cursor
      reads this
    {
      Cursor(data, pos, fail)
    }

    /** get(): -1 at the end or after a failure. */
    method Get() returns (c: int)
      modifies this
      ensures (if c == -1 then 255 else c, View()) == TakeByte(old(View())) && -1 <= c <= 255
      ensures c == -1 <==> fail
    {
      if fail || pos >= |data| {
        fail := true;
        return -1;
      }
      c := data[pos];
      pos := pos + 1;
    }

    /** read_u8; got collects the bytes read since start. */
    method ReadU8(ghost start: Cursor, ghost got: seq<byte>) returns (b: byte, ghost more: seq<byte>)
      requires TakeBytes(start, |got|) == (got, View())
      modifies this
      ensures more == got + [b] && TakeBytes(start, |more|) == (more, View())
    {
      var c := Get();
      b := if c == -1 then 255 else c;
      more := got + [b];
    }

    method ReadU16() returns (v: word)
      modifies this
      ensures |TakeBytes(old(View()), 2).0| == 2 && TakeBytes(old(View()), 2).1 == View()
      ensures v == WordOf(TakeBytes(old(View()), 2).0)
    {
      hide TakeBytes;
      ghost var c, got := View(), [];
      NoneTaken(c);
      var l: byte, h: byte;
      l, got := ReadU8(c, got);
      h, got := ReadU8(c, got);
      var low: int, high: int := l, h;
      v := high * 256 + low;
    }

    method ReadU8v() returns (v: seq<byte>)
      modifies this
      ensures (v, View()) == TakeVector(old(View()))
    {
      hide TakeBytes;
      var length := ReadU16();
      ghost var c := View();
      v := [];
      NoneTaken(c);
      for i := 0 to length
        invariant |v| == i && TakeBytes(c, i) == (v, View())
      {
        var b;
        ghost var got;
        b, got := ReadU8(c, v);
        v := v + [b];
      }
    }

    method ReadPins() returns (p: Pins)
      modifies this
      ensures var t := TakeBytes(old(View()), 5); p == PinsOf(t.0) && View() == t.1
    {
      hide TakeBytes;
      ghost var c, got := View(), [];
      NoneTaken(c);
      var b0, b1, b2, b3, b4: byte;
      b0, got := ReadU8(c, got);
      b1, got := ReadU8(c, got);
      b2, got := ReadU8(c, got);
      b3, got := ReadU8(c, got);
      b4, got := ReadU8(c, got);
      p := Pins(b0 != 0, b1 != 0, b2 != 0, b3 != 0, b4 != 0);
    }

    method ReadRegs() returns (r: Regs)
      modifies this
      ensures var t := TakeBytes(old(View()), 7); r == RegsOf(t.0) && View() == t.1
    {
      hide TakeBytes;
      ghost var c, got := View(), [];
      NoneTaken(c);
      var t, a, low, high, psw, dbf, f1: byte;
      t, got := ReadU8(c, got);
      a, got := ReadU8(c, got);
      low, got := ReadU8(c, got);
      high, got := ReadU8(c, got);
      psw, got := ReadU8(c, got);
      dbf, got := ReadU8(c, got);
      f1, got := ReadU8(c, got);
      r := Regs(t, a, WordOf([low, high]), psw, dbf, f1);
    }

    method ReadControls() returns (r: Controls)
      modifies this
      ensures var t := TakeBytes(old(View()), 6); r == ControlsOf(t.0) && View() == t.1
    {
      hide TakeBytes;
      ghost var c, got := View(), [];
      NoneTaken(c);
      var b0, b1, b2, b3, b4, b5: byte;
      b0, got := ReadU8(c, got);
      b1, got := ReadU8(c, got);
      b2, got := ReadU8(c, got);
      b3, got := ReadU8(c, got);
      b4, got := ReadU8(c, got);
      b5, got := ReadU8(c, got);
      r := Controls(b0 != 0, b1 != 0, b2 != 0, b3 != 0, b4, b5 != 0);
    }

    method ReadCpu() returns (s: SavedCpu)
      modifies this
      ensures (s, View()) == TakeCpu(old(View()))
    {
      hide TakeBytes, TakeVector, PinsOf, RegsOf, ControlsOf;
      var pins := ReadPins();
      var regs := ReadRegs();
      var controls := ReadControls();
      var rom := ReadU8v();
      var ram := ReadU8v();
      s := SavedCpu(pins, regs, controls, rom, ram);
    }

    method ReadLines() returns (l: Lines)
      modifies this
      ensures var t := TakeBytes(old(View()), 6); l == LinesOf(t.0) && View() == t.1
    {
      hide TakeBytes;
      ghost var c, got := View(), [];
      NoneTaken(c);
      var b0, b1, b2, b3, b4, b5: byte;
      b0, got := ReadU8(c, got);
      b1, got := ReadU8(c, got);
      b2, got := ReadU8(c, got);
      b3, got := ReadU8(c, got);
      b4, got := ReadU8(c, got);
      b5, got := ReadU8(c, got);
      l := Lines(b0, b1 != 0, b2 != 0, b3 != 0, b4 != 0, b5 != 0);
    }

    method ReadPorts() returns (p: PortBlock)
      modifies this
      ensures var t := TakeBytes(old(View()), 8); p == PortsOf(t.0) && View() == t.1
    {
      hide TakeBytes;
      ghost var c, got := View(), [];
      NoneTaken(c);
      var b0, b1, b2, b3, b4, b5, b6, b7: byte;
      b0, got := ReadU8(c, got);
      b1, got := ReadU8(c, got);
      b2, got := ReadU8(c, got);
      b3, got := ReadU8(c, got);
      b4, got := ReadU8(c, got);
      b5, got := ReadU8(c, got);
      b6, got := ReadU8(c, got);
      b7, got := ReadU8(c, got);
      p := PortBlock(b0, b1, b2, b3, b4, b5, b6 != 0, b7 != 0);
    }

    method ReadPid() returns (s: SavedPid)
      modifies this
      ensures (s, View()) == TakePid(old(View()))
    {
      hide TakeBytes, TakeVector, LinesOf, PortsOf;
      var lines := ReadLines();
      var ports := ReadPorts();
      var ram := ReadU8v();
      s := SavedPid(lines, ports, ram);
    }

    method ReadState() returns (s: SavedState)
      modifies this
      ensures (s, View()) == TakeState(old(View()))
    {
      hide TakeCpu, TakePid;
      var cpu := ReadCpu();
      var pid := ReadPid();
      var ext := ReadPid();
      s := SavedState(cpu, pid, ext);
    }

    /** readStateHeader: six bytes at once, compared as a magic number and a version. */
    method ReadHeader() returns (ok: bool)
      modifies this
      ensures var t := TakeBytes(old(View()), 6); ok == (!t.1.fail && t.0 == HEADER) && View() == t.1
    {
      hide TakeBytes;
      ghost var c, got := View(), [];
      NoneTaken(c);
      var b0, b1, b2, b3, b4, b5: byte;
      b0, got := ReadU8(c, got);
      b1, got := ReadU8(c, got);
      b2, got := ReadU8(c, got);
      b3, got := ReadU8(c, got);
      b4, got := ReadU8(c, got);
      b5, got := ReadU8(c, got);
      if fail { return false; }
      ok := HeaderMatches(b0, b1, b2, b3, b4, b5);
      assert got == [b0, b1, b2, b3, b4, b5];
    }

    /** The load action: nothing is loaded unless the header is right and the stream still good at the end. */
    method Load() returns (s: Option<SavedState>)
      modifies this
      ensures (s, View()) == TakeFile(old(View()))
    {
      hide TakeBytes, TakeState;
      var ok := ReadHeader();
      if !ok { return None; }
      var state := ReadState();
      s := if fail then None else Some(state);
    }
  }

  /** Comparing the assembled numbers compares the bytes. */
  function HeaderMatches(b0: int, b1: int, b2: int, b3: int, b4: int, b5: int): (ok: bool)
    requires 0 <= b0 < 256 && 0 <= b1 < 256 && 0 <= b2 < 256 && 0 <= b3 < 256 && 0 <= b4 < 256 && 0 <= b5 < 256
    ensures ok <==> [b0, b1, b2, b3, b4, b5] == HEADER
  {
    b3 + 0x100 * b2 + 0x1_0000 * b1 + 0x100_0000 * b0 == 0x4b43_5031 && b4 + 0x100 * b5 == 1
  }

  lemma {:induction false} NoneTaken(c: Cursor)
    ensures TakeBytes(c, 0) == ([], c)
  {
  }
}
