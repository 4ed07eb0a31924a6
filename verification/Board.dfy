/** The shared bus, the ports and the two 8155s, wired as in src/main.cpp. */
module Board {
  import opened Bits
  import opened DataPorts
  import opened Panel
  import opened Pid8155
  import opened Wrappers

  datatype BoardState = BoardState(bus: byte, p1: byte, p2: byte, pid: PidState, ext: PidState)

  /** One P2 bit signal reaches the slots connected to it; the other bits are not wired. */
  function Deliver(b: BoardState, s: BitSignal): BoardState
    requires s.level <= 1
  {
    if s.bit == 4 then b.(pid := b.pid.(ce := s.level > 0))
    else if s.bit == 5 then b.(ext := b.ext.(ce := s.level > 0))
    else if s.bit == 6 && s.level == 1 then b.(pid := PidReset(b.pid), ext := PidReset(b.ext))
    else if s.bit == 7 then b.(pid := b.pid.(io := s.level > 0), ext := b.ext.(io := s.level > 0))
    else b
  }

  function DeliverAll(b: BoardState, s: seq<BitSignal>): BoardState
    requires forall i :: 0 <= i < |s| ==> s[i].level <= 1
  {
    if s == [] then b else Deliver(DeliverAll(b, s[..|s| - 1]), s[|s| - 1])
  }

  lemma {:induction false} SignalLevels(value: byte, mask: byte, n: nat)
    ensures forall i :: 0 <= i < |Signals(value, mask, n)| ==> Signals(value, mask, n)[i].level <= 1
  {
    if n > 0 { SignalLevels(value, mask, n - 1); }
  }

  function WriteP2(b: BoardState, v: byte, mask: byte): BoardState {
    var now := Written(b.p2, v, mask);
    SignalLevels(now, mask, 8);
    DeliverAll(b.(p2 := now), Signals(now, mask, 8))
  }

  function AleAll(b: BoardState, cur: byte): BoardState {
    b.(pid := Ale(b.pid, cur, b.bus), ext := Ale(b.ext, cur, b.bus))
  }

  /** The slots run in connection order, so the extension chip sees what the main chip drove. */
  function RdAll(b: BoardState, cur: byte): BoardState {
    b.(bus := RdBus(b.ext, cur, RdBus(b.pid, cur, b.bus)), pid := Rd(b.pid, cur), ext := Rd(b.ext, cur))
  }

  function WrAll(b: BoardState, cur: byte): BoardState {
    b.(pid := Wr(b.pid, cur, b.bus), ext := Wr(b.ext, cur, b.bus))
  }

  /** MOVX A, @R: address with ALE, then a low pulse on /RD; A is what the bus then carries. */
  function MovxRead(b: BoardState, pos: byte): BoardState {
    RdAll(RdAll(AleAll(AleAll(b, 1).(bus := pos), 0), 0), 1)
  }

  /** MOVX @R, A: address with ALE, then data inside a low pulse on /WR. */
  function MovxWrite(b: BoardState, pos: byte, data: byte): BoardState {
    WrAll(WrAll(AleAll(AleAll(b, 1).(bus := pos), 0), 0).(bus := data), 1)
  }

  /** Everything the CPU and the panel can do to the board. P1 is not connected to the chips. */
  datatype BusOp =
    | OutBus(v: byte)
    | OutP1(v: byte)
    | P2Full(v: byte)
    | P2Low(n: nibble)
    | Read(pos: byte)
    | Store(pos: byte, data: byte)

  function ApplyBus(b: BoardState, op: BusOp): BoardState {
    match op
    case OutBus(v) => b.(bus := v)
    case OutP1(v) => b.(p1 := v)
    case P2Full(v) => WriteP2(b, v, 255)
    case P2Low(n) => WriteP2(b, n, 15)
    case Read(pos) => MovxRead(b, pos)
    case Store(pos, data) => MovxWrite(b, pos, data)
  }

  function RunBus(b: BoardState, h: seq<BusOp>): BoardState {
    if h == [] then b else ApplyBus(RunBus(b, h[..|h| - 1]), h[|h| - 1])
  }

  /** What the panel makes of a byte the processor writes to P1: the switches pull the pins. */
  function AnsweredP1(now: Option<Input>, v: byte): byte {
    if now.Some? then now.value.switches else v
  }

  /** The keys of the selected row; there is no row 6 or 7. */
  function KeysOf(now: Option<Input>, pc: byte): nibble {
    if now.Some? && Row(pc) < 6 then now.value.keys[Row(pc)] else 0
  }

  class Wiring {
    const bus: DataPort
    const p1: DataPort
    const p2: DataPort
    const pid: Intel8155
    const ext: Intel8155
    const panel: PanelWindow

    ghost predicate Valid()
      reads this, panel
    {
      && bus != p1 && bus != p2 && p1 != p2 && pid != ext && pid.bus == bus && ext.bus == bus
      && !panel.inPort1ValueWritten
    }

    function View(): BoardState
      reads bus, p1, p2, pid, ext
    {
      BoardState(bus.value, p1.value, p2.value, pid.View(), ext.View())
    }

    function Now(): Option<Input>
      reads panel
    {
      Current(panel.inputs)
    }

    /** The two chips exist before the wiring; the address latches start with any byte. The panel is built later. */
    constructor (latchMain: byte, latchExt: byte)
      ensures Valid()
      ensures fresh(bus) && fresh(p1) && fresh(p2) && fresh(pid) && fresh(ext) && fresh(panel)
      ensures bus.value == p1.value == p2.value == 0 && panel.inputs == []
    {
      var b := new DataPort();
      bus := b;
      p1 := new DataPort();
      p2 := new DataPort();
      pid := new Intel8155(b, latchMain);
      ext := new Intel8155(b, latchExt);
      panel := new PanelWindow();
    }

    /** createWindow: the switches go to P1 before the panel listens to anything. */
    method ConnectPanel(inputs: seq<Input>)
      requires Valid() && inputs != []
      modifies p1, panel
      ensures Valid() && panel.inputs == inputs && View() == old(View()).(p1 := inputs[0].switches)
    {
      WrittenFull(p1.value, inputs[0].switches);
      var _ := p1.Write(inputs[0].switches, 255);
      panel.inputs, panel.pinProgValue, panel.inPort1ValueWritten := inputs, 0, false;
    }

    method PinAle(cur: byte)
      requires Valid()
      modifies pid, ext
      ensures View() == AleAll(old(View()), cur)
    {
      pid.OnPinALEWritten(cur);
      ext.OnPinALEWritten(cur);
    }

    method PinRd(cur: byte)
      requires Valid()
      modifies bus, pid, ext
      ensures View() == RdAll(old(View()), cur)
    {
      pid.OnPinRDLowActiveWritten(cur);
      ext.OnPinRDLowActiveWritten(cur);
    }

    method PinWr(cur: byte)
      requires Valid()
      modifies pid, ext
      ensures View() == WrAll(old(View()), cur)
    {
      pid.OnPinWRLowActiveWritten(cur);
      ext.OnPinWRLowActiveWritten(cur);
    }

    method PortBus(v: byte)
      requires Valid()
      modifies bus
      ensures View() == old(View()).(bus := v)
    {
      WrittenFull(bus.value, v);
      var _ := bus.Write(v, 255);
    }

    /** A write of P1 with its listener; the bits of P1 are connected to nothing. */
    method PortP1(v: byte)
      requires p1 != bus && p1 != p2
      modifies p1, panel`inPort1ValueWritten
      ensures panel.inPort1ValueWritten == old(panel.inPort1ValueWritten)
      ensures View() == old(View()).(p1 := if panel.inPort1ValueWritten then v else AnsweredP1(Now(), v))
      decreases if panel.inPort1ValueWritten then 0 else 1, 1
    {
      WrittenFull(p1.value, v);
      p1.Store(v, 255);
      OnPort1ValueWritten();
      var _ := DataPort.Notify(p1.value, 255);
    }

    /** The panel answers with the switches, and does not answer its own write. */
    method OnPort1ValueWritten()
      requires p1 != bus && p1 != p2
      modifies p1, panel`inPort1ValueWritten
      ensures panel.inPort1ValueWritten == old(panel.inPort1ValueWritten)
      ensures View() == if panel.inPort1ValueWritten then old(View())
                        else old(View()).(p1 := AnsweredP1(Now(), old(View()).p1))
      decreases if panel.inPort1ValueWritten then 0 else 1, 0
    {
      if panel.inPort1ValueWritten || panel.inputs == [] { return; }
      panel.inPort1ValueWritten := true;
      PortP1(panel.inputs[0].switches);
      panel.inPort1ValueWritten := false;
    }

    /** The user's next action, which may operate the switches. */
    method UserActs()
      requires Valid()
      modifies p1, panel`inputs, panel`inPort1ValueWritten
      ensures Valid() && panel.inputs == Coming(old(panel.inputs))
      ensures View() == old(View()).(p1 := if Turned(old(panel.inputs)).Some? then Turned(old(panel.inputs)).value
                                           else old(View()).p1)
    {
      if panel.inputs == [] { return; }
      panel.inputs := panel.inputs[1..];
      if panel.inputs != [] && panel.inputs[0].touched {
        OnSwitchesChanged(panel.inputs[0].switches);
      }
    }

    /** The panel hears of its own write of P1, too, and answers it with the switches as they now are. */
    method OnSwitchesChanged(v: byte)
      requires Valid() && panel.inputs != [] && v == panel.inputs[0].switches
      modifies p1, panel`inPort1ValueWritten
      ensures Valid() && View() == old(View()).(p1 := v)
    {
      PortP1(v);
    }

    /** On the falling edge of PROG the panel puts the keys of the row that port C of the main chip selects on the
        low half of P2; false where the source reads beyond its six rows. */
    method OnPinProgWritten(val: byte) returns (ok: bool)
      requires Valid()
      modifies panel`pinProgValue, p2, pid, ext
      ensures panel.inputs == [] ==> ok && View() == old(View())
      ensures panel.inputs != [] ==> panel.pinProgValue == val
      ensures panel.inputs != [] && !(old(panel.pinProgValue) == 1 && val == 0) ==> ok && View() == old(View())
      ensures panel.inputs != [] && old(panel.pinProgValue) == 1 && val == 0 ==>
                && ok == (Row(old(View()).pid.pc) < 6)
                && (ok ==> View() == WriteP2(old(View()), KeysOf(Now(), old(View()).pid.pc), 15))
    {
      hide WriteP2, Row;
      ok := true;
      if panel.inputs == [] || panel.pinProgValue == val { return; }
      var oldValue := panel.pinProgValue;
      panel.pinProgValue := val;
      if !(oldValue == 1 && val == 0) { return; }
      var row := PanelWindow.SelectedRow(pid.pcValue);
      if row >= 6 { return false; }
      PortP2(panel.inputs[0].keys[row], 15);
    }

    method PortP2(v: byte, mask: byte)
      requires Valid()
      modifies p2, pid, ext
      ensures View() == WriteP2(old(View()), v, mask)
    {
      hide Deliver, Written, Bit, Signals;
      var signals := p2.Write(v, mask);
      SignalLevels(p2.value, mask, 8);
      ghost var start := View();
      var i := 0;
      while i < |signals|
        invariant 0 <= i <= |signals|
        invariant View() == DeliverAll(start, signals[..i])
      {
        assert signals[..i + 1][..i] == signals[..i];
        Slot(signals[i]);
        i := i + 1;
      }
      assert signals[..i] == signals;
    }

    /** Calls the slots connected to one bit of P2. */
    method Slot(s: BitSignal)
      requires Valid() && s.level <= 1
      modifies pid, ext
      ensures View() == Deliver(old(View()), s)
    {
      match s.bit {
        case 4 => pid.OnPinCELowActiveWritten(s.level);
        case 5 => ext.OnPinCELowActiveWritten(s.level);
        case 6 =>
          pid.OnPinResetWritten(s.level);
          ext.OnPinResetWritten(s.level);
        case 7 =>
          pid.OnPinIOWritten(s.level);
          ext.OnPinIOWritten(s.level);
        case _ =>
      }
    }
  }
}
