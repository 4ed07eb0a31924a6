/** The RAM and I/O chip of src/emulation/intel8155.cpp. */
module Pid8155 {
  import opened Bits
  import opened DataPorts

  type Ram256 = s: seq<byte> | |s| == 256 witness Zeros(256)

  // The C++ enumerations are plain integers, and a loaded state may hold any byte.
  const INPUT: byte := 0
  const OUTPUT: byte := 1
  const ALT1: byte := 0
  const ALT2: byte := 1
  const ALT3: byte := 2
  const ALT4: byte := 3

  datatype PidState = PidState(
    latch: byte, io: bool, ce: bool, ale: bool, rd: bool, wr: bool,
    pa: byte, pb: byte, pc: byte,
    paMode: byte, pbMode: byte, pcMode: byte,
    paInterrupt: bool, pbInterrupt: bool,
    ram: Ram256)

  function PidReset(p: PidState): PidState {
    p.(paMode := INPUT, pbMode := INPUT, pcMode := ALT1, paInterrupt := false, pbInterrupt := false,
       pa := 0, pb := 0, pc := 0, ram := Zeros(256))
  }

  /** ALE: the falling edge latches the address that is on the bus. */
  function Ale(p: PidState, cur: byte, bus: byte): PidState {
    p.(ale := cur > 0, latch := if p.ale && cur == 0 then bus else p.latch)
  }

  /** The byte the chip drives for the latched address; the command register reads as 0. */
  function Driven(p: PidState): byte {
    if !p.io then p.ram[p.latch]
    else if p.latch % 4 == 1 then p.pa
    else if p.latch % 4 == 2 then p.pb
    else if p.latch % 4 == 3 then p.pc
    else 0
  }

  /** /RD: on the rising edge a selected chip (CE low) drives the bus. */
  function RdBus(p: PidState, cur: byte, bus: byte): byte {
    if !p.rd && cur == 1 && !p.ce then Driven(p) else bus
  }

  function Rd(p: PidState, cur: byte): PidState {
    p.(rd := cur > 0)
  }

  function PcModeOf(data: byte): byte {
    match data / 4 % 4
    case 0 => ALT1
    case 1 => ALT3
    case 2 => ALT4
    case _ => ALT2
  }

  /** A byte stored at the latched address. */
  function Stored(p: PidState, data: byte): PidState {
    if !p.io then p.(ram := p.ram[p.latch := data])
    else if p.latch % 4 == 1 then p.(pa := data)
    else if p.latch % 4 == 2 then p.(pb := data)
    else if p.latch % 4 == 3 then p.(pc := data)
    else p.(paMode := if data % 2 == 1 then OUTPUT else INPUT,
            pbMode := if data / 2 % 2 == 1 then OUTPUT else INPUT,
            pcMode := PcModeOf(data),
            paInterrupt := data / 16 % 2 == 1,
            pbInterrupt := data / 32 % 2 == 1)
  }

  /** /WR: on the rising edge a selected chip stores the bus. */
  function Wr(p: PidState, cur: byte, bus: byte): PidState {
    var q := p.(wr := cur > 0);
    if !p.wr && cur == 1 && !p.ce then Stored(q, bus) else q
  }

  class Intel8155 {
    const bus: DataPort
    var addressLatch: byte
    var ioValue: bool
    var ceValue: bool
    var aleValue: bool
    var rdValue: bool
    var wrValue: bool
    var paMode: byte
    var pbMode: byte
    var pcMode: byte
    var paInterruptEnabled: bool
    var pbInterruptEnabled: bool
    var paValue: byte
    var pbValue: byte
    var pcValue: byte
    var ram: Ram256

    function View(): PidState
      reads this
    {
      PidState(addressLatch, ioValue, ceValue, aleValue, rdValue, wrValue, paValue, pbValue, pcValue,
               paMode, pbMode, pcMode, paInterruptEnabled, pbInterruptEnabled, ram)
    }

    /** The address latch is left uninitialised by the source; here it starts with any byte. */
    constructor (port: DataPort, latch: byte)
      ensures bus == port
      ensures View() == PidState(latch, false, false, false, false, false, 0, 0, 0,
                                 INPUT, INPUT, ALT1, false, false, Zeros(256))
    {
      bus := port;
      addressLatch := latch;
      ioValue, ceValue, aleValue, rdValue, wrValue := false, false, false, false, false;
      paMode, pbMode, pcMode := INPUT, INPUT, ALT1;
      paValue, pbValue, pcValue := 0, 0, 0;
      paInterruptEnabled, pbInterruptEnabled := false, false;
      ram := Zeros(256);
    }

    method InitFromState(s: PidState)
      modifies this
      ensures View() == s
    {
      SetLines(s.latch, s.io, s.ce, s.ale, s.rd, s.wr);
      SetModes(s.paMode, s.pbMode, s.pcMode, s.paInterrupt, s.pbInterrupt);
      SetPorts(s.pa, s.pb, s.pc);
      ram := s.ram;
    }

    method SetLines(latch: byte, io: bool, ce: bool, ale: bool, rd: bool, wr: bool)
      modifies this`addressLatch, this`ioValue, this`ceValue, this`aleValue, this`rdValue, this`wrValue
      ensures View() == old(View()).(latch := latch, io := io, ce := ce, ale := ale, rd := rd, wr := wr)
    {
      addressLatch, ioValue, ceValue, aleValue, rdValue, wrValue := latch, io, ce, ale, rd, wr;
    }

    method SetModes(a: byte, b: byte, c: byte, aInterrupt: bool, bInterrupt: bool)
      modifies this`paMode, this`pbMode, this`pcMode, this`paInterruptEnabled, this`pbInterruptEnabled
      ensures View() == old(View()).(paMode := a, pbMode := b, pcMode := c, paInterrupt := aInterrupt, pbInterrupt := bInterrupt)
    {
      paMode, pbMode, pcMode := a, b, c;
      paInterruptEnabled, pbInterruptEnabled := aInterrupt, bInterrupt;
    }

    method SetPorts(a: byte, b: byte, c: byte)
      modifies this`paValue, this`pbValue, this`pcValue
      ensures View() == old(View()).(pa := a, pb := b, pc := c)
    {
      paValue, pbValue, pcValue := a, b, c;
    }

    method SaveToState() returns (s: PidState)
      ensures s == View()
    {
      s := PidState(addressLatch, ioValue, ceValue, aleValue, rdValue, wrValue, paValue, pbValue, pcValue,
                    paMode, pbMode, pcMode, paInterruptEnabled, pbInterruptEnabled, ram);
    }

    method DoReset()
      modifies this
      ensures View() == PidReset(old(View()))
    {
      SetModes(INPUT, INPUT, ALT1, false, false);
      SetPorts(0, 0, 0);
      ram := Zeros(256);
    }

    method OnPinALEWritten(cur: byte)
      modifies this
      ensures View() == Ale(old(View()), cur, bus.value)
    {
      var prev := aleValue;
      aleValue := cur > 0;
      if prev && cur == 0 {
        addressLatch := bus.value;
      }
    }

    method OnPinRDLowActiveWritten(cur: byte)
      modifies this, bus
      ensures View() == Rd(old(View()), cur)
      ensures bus.value == RdBus(old(View()), cur, old(bus.value))
    {
      var prev := rdValue;
      rdValue := cur > 0;
      if !prev && cur == 1 {
        if ceValue { return; }
        var data: byte;
        if ioValue {
          match addressLatch % 4 {
            case 0 => data := 0;
            case 1 => data := paValue;
            case 2 => data := pbValue;
            case _ => data := pcValue;
          }
        } else {
          data := ram[addressLatch];
        }
        WrittenFull(bus.value, data);
        var _ := bus.Write(data, 255);
      }
    }

    method OnPinWRLowActiveWritten(cur: byte)
      modifies this
      ensures View() == Wr(old(View()), cur, bus.value)
    {
      hide Stored;
      var prev := wrValue;
      wrValue := cur > 0;
      if !prev && cur == 1 {
        if ceValue { return; }
        StoreByte(bus.value);
      }
    }

    /** A byte from the bus goes to the latched address. */
    method StoreByte(data: byte)
      modifies this`ram, this`paValue, this`pbValue, this`pcValue, this`paMode, this`pbMode, this`pcMode,
               this`paInterruptEnabled, this`pbInterruptEnabled
      ensures View() == Stored(old(View()), data)
    {
      hide PcModeOf;
      if ioValue {
        match addressLatch % 4 {
          case 0 =>
            SetModes(if data % 2 == 1 then OUTPUT else INPUT,
                     if data / 2 % 2 == 1 then OUTPUT else INPUT,
                     PcModeOf(data), data / 16 % 2 == 1, data / 32 % 2 == 1);
          case 1 => paValue := data;
          case 2 => pbValue := data;
          case _ => pcValue := data;
        }
      } else {
        ram := ram[addressLatch := data];
      }
    }

    method OnPinResetWritten(cur: byte)
      modifies this
      ensures View() == if cur == 1 then PidReset(old(View())) else old(View())
    {
      if cur == 1 {
        DoReset();
      }
    }

    method OnPinCELowActiveWritten(cur: byte)
      modifies this
      ensures View() == old(View()).(ce := cur > 0)
    {
      ceValue := cur > 0;
    }

    method OnPinIOWritten(cur: byte)
      modifies this
      ensures View() == old(View()).(io := cur > 0)
    {
      ioValue := cur > 0;
    }
  }
}
