/** The edge-triggered bus protocol behaves as a byte map: every MOVX reads the last byte written to
    that cell of the selected chip, whatever happened on the ports in between. */
module MemoryMap {
  import opened Bits
  import opened DataPorts
  import opened Pid8155
  import opened Board
  import opened Panel

  /** What Intel8049::reset does to the ports, whatever the panel has P1 show; P2 bit 6 resets both chips. */
  function AfterCpuReset(b: BoardState, p1: byte): BoardState {
    WriteP2(b.(bus := 0, p1 := p1), 255, 255)
  }

  // ----- the abstract byte map, read off the history of operations alone -----

  datatype Chip = Main | Extension {
    /** The P2 bit that drives this chip's active-low chip enable. */
    function CeBit(): (k: nat)
      ensures k < 8
    {
      if this == Main then 4 else 5
    }
  }

  datatype Cell = RamCell(a: byte) | Command | PortA | PortB | PortC

  function CellOf(io: bool, pos: byte): Cell {
    if !io then RamCell(pos)
    else match pos % 4
         case 0 => Command
         case 1 => PortA
         case 2 => PortB
         case _ => PortC
  }

  /** The value of P2 after the operations h. */
  function P2After(h: seq<BusOp>): byte {
    if h == [] then 255
    else
      match h[|h| - 1]
      case P2Full(v) => v
      case P2Low(n) => Written(P2After(h[..|h| - 1]), n, 15)
      case _ => P2After(h[..|h| - 1])
  }

  predicate Selected(h: seq<BusOp>, chip: Chip) {
    Bit(P2After(h), chip.CeBit()) == 0
  }

  predicate IoMode(h: seq<BusOp>) {
    Bit(P2After(h), 7) == 1
  }

  /** The last byte written to a cell of a chip: scan the history backwards for a store that reached
      the cell, or for a full P2 write with bit 6 set, which clears everything. */
  function LastWritten(h: seq<BusOp>, chip: Chip, cell: Cell): byte {
    if h == [] then 0
    else
      var before := h[..|h| - 1];
      match h[|h| - 1]
      case P2Full(v) => if Bit(v, 6) == 1 then 0 else LastWritten(before, chip, cell)
      case Store(pos, data) =>
        if Selected(before, chip) && CellOf(IoMode(before), pos) == cell then data
        else LastWritten(before, chip, cell)
      case _ => LastWritten(before, chip, cell)
  }

  /** What a selected chip answers; the command register is write-only. */
  function Answer(h: seq<BusOp>, chip: Chip, pos: byte): byte {
    var cell := CellOf(IoMode(h), pos);
    if cell == Command then 0 else LastWritten(h, chip, cell)
  }

  /** What MOVX A, @R yields after h: with no chip selected the address itself stays on the bus, and
      with both selected the extension drives last. */
  function ReadBack(h: seq<BusOp>, pos: byte): byte {
    if Selected(h, Extension) then Answer(h, Extension, pos)
    else if Selected(h, Main) then Answer(h, Main, pos)
    else pos
  }

  // ----- the refinement -----

  function Content(p: PidState, cell: Cell): byte
    requires cell != Command
  {
    match cell
    case RamCell(a) => p.ram[a]
    case PortA => p.pa
    case PortB => p.pb
    case PortC => p.pc
  }

  /** The modes a command sets, as the numbers of the enumerations: 0 is input and 1 output, and port C's modes 0 to 3 are
      chosen by two bits in the order 0, 2, 3, 1. */
  predicate ModesFrom(p: PidState, cmd: byte) {
    && p.paMode == cmd % 2 && p.pbMode == cmd / 2 % 2
    && p.pcMode == [0, 2, 3, 1][cmd / 4 % 4]
    && p.paInterrupt == (cmd / 16 % 2 == 1)
    && p.pbInterrupt == (cmd / 32 % 2 == 1)
  }

  /** The chip's pins mirror P2 and each of its cells holds the last byte written to it. */
  ghost predicate ChipMatches(p: PidState, h: seq<BusOp>, chip: Chip) {
    && p.ce == !Selected(h, chip)
    && p.io == IoMode(h)
    && (forall cell :: cell != Command ==> Content(p, cell) == LastWritten(h, chip, cell))
    && ModesFrom(p, LastWritten(h, chip, Command))
  }

  ghost predicate Matches(b: BoardState, h: seq<BusOp>) {
    b.p2 == P2After(h) && ChipMatches(b.pid, h, Main) && ChipMatches(b.ext, h, Extension)
  }

  function PinsFrom(p: PidState, v: byte, chip: Chip): PidState {
    (if Bit(v, 6) == 1 then PidReset(p) else p).(ce := Bit(v, chip.CeBit()) == 1, io := Bit(v, 7) == 1)
  }

  /** The board after the slots of bits 0..n-1 have run. */
  function DeliverTo(b: BoardState, value: byte, mask: byte, n: nat): BoardState {
    if n == 0 then b
    else
      var before := DeliverTo(b, value, mask, n - 1);
      if Bit(mask, n - 1) == 1 then Deliver(before, BitSignal(n - 1, Bit(value, n - 1))) else before
  }

  lemma {:induction false} DeliverBits(b: BoardState, value: byte, mask: byte, n: nat)
    ensures forall i :: 0 <= i < |Signals(value, mask, n)| ==> Signals(value, mask, n)[i].level <= 1
    ensures DeliverAll(b, Signals(value, mask, n)) == DeliverTo(b, value, mask, n)
  {
    hide Deliver, Bit;
    SignalLevels(value, mask, n);
    if n > 0 {
      DeliverBits(b, value, mask, n - 1);
      var s := Signals(value, mask, n);
      if Bit(mask, n - 1) == 1 {
        assert s[..|s| - 1] == Signals(value, mask, n - 1);
      }
    }
  }

  lemma {:induction false} LowBitsSilent(b: BoardState, value: byte, mask: byte, n: nat)
    requires n <= 4
    ensures DeliverTo(b, value, mask, n) == b
  {
    hide Bit;
    if n > 0 { LowBitsSilent(b, value, mask, n - 1); }
  }

  lemma MaskBits()
    ensures forall k :: 0 <= k < 8 ==> Bit(255, k) == 1
    ensures forall k :: 4 <= k < 8 ==> Bit(15, k) == 0
  {
    assert Bit(255, 0) == 1 && Bit(255, 1) == 1 && Bit(255, 2) == 1 && Bit(255, 3) == 1;
    assert Bit(255, 4) == 1 && Bit(255, 5) == 1 && Bit(255, 6) == 1 && Bit(255, 7) == 1;
    assert Bit(15, 4) == 0 && Bit(15, 5) == 0 && Bit(15, 6) == 0 && Bit(15, 7) == 0;
  }

  lemma {:induction false} HighBits(b: BoardState, v: byte)
    ensures DeliverTo(b, v, 255, 8) == b.(pid := PinsFrom(b.pid, v, Main), ext := PinsFrom(b.ext, v, Extension))
  {
    MaskBits();
    LowBitsSilent(b, v, 255, 4);
    HighBitsInOrder(b, v);
  }

  lemma {:induction false} HighBitsInOrder(b: BoardState, v: byte)
    requires forall k :: 0 <= k < 8 ==> Bit(255, k) == 1
    requires DeliverTo(b, v, 255, 4) == b
    ensures DeliverTo(b, v, 255, 8) == b.(pid := PinsFrom(b.pid, v, Main), ext := PinsFrom(b.ext, v, Extension))
  {
    hide Bit;
    assert DeliverTo(b, v, 255, 5) == Deliver(b, BitSignal(4, Bit(v, 4)));
    assert DeliverTo(b, v, 255, 6) == Deliver(DeliverTo(b, v, 255, 5), BitSignal(5, Bit(v, 5)));
    assert DeliverTo(b, v, 255, 7) == Deliver(DeliverTo(b, v, 255, 6), BitSignal(6, Bit(v, 6)));
    assert DeliverTo(b, v, 255, 8) == Deliver(DeliverTo(b, v, 255, 7), BitSignal(7, Bit(v, 7)));
  }

  /** A full write of P2 drives CE, IO and the reset line of both chips at once. */
  lemma P2FullEffect(b: BoardState, v: byte)
    ensures WriteP2(b, v, 255) ==
            b.(p2 := v, pid := PinsFrom(b.pid, v, Main), ext := PinsFrom(b.ext, v, Extension))
  {
    hide Deliver, Signals, Bit;
    WrittenFull(b.p2, v);
    DeliverBits(b.(p2 := v), v, 255, 8);
    HighBits(b.(p2 := v), v);
  }

  /** A write of the low nibble (MOVD and its relatives) reaches neither chip and keeps bits 4..7. */
  lemma P2LowEffect(b: BoardState, n: nibble)
    ensures WriteP2(b, n, 15) == b.(p2 := Written(b.p2, n, 15))
    ensures forall k :: 4 <= k < 8 ==> Bit(Written(b.p2, n, 15), k) == Bit(b.p2, k)
  {
    hide Deliver, Signals, Bit, Written;
    MaskBits();
    var now := Written(b.p2, n, 15);
    var b' := b.(p2 := now);
    DeliverBits(b', now, 15, 8);
    LowBitsSilent(b', now, 15, 4);
    assert DeliverTo(b', now, 15, 8) == DeliverTo(b', now, 15, 7) == DeliverTo(b', now, 15, 6)
        == DeliverTo(b', now, 15, 5) == DeliverTo(b', now, 15, 4);
    forall k | 4 <= k < 8 ensures Bit(now, k) == Bit(b.p2, k) {
      BitOfWritten(b.p2, n, 15, k);
      assert Pow2(4) == 16;
      SmallHasNoHighBits(n, 4, k);
    }
  }

  /** One MOVX read: both chips latch the address, the selected ones drive the bus, nothing else moves. */
  lemma ReadEffect(b: BoardState, pos: byte)
    ensures var b' := MovxRead(b, pos);
            && b'.pid == b.pid.(latch := pos, ale := false, rd := true)
            && b'.ext == b.ext.(latch := pos, ale := false, rd := true)
            && b'.p1 == b.p1 && b'.p2 == b.p2
            && b'.bus == if !b.ext.ce then Driven(b'.ext) else if !b.pid.ce then Driven(b'.pid) else pos
  {
  }

  /** One MOVX write: the selected chips store the byte, the others only latch the address. */
  lemma StoreEffect(b: BoardState, pos: byte, data: byte)
    ensures var b' := MovxWrite(b, pos, data);
            var pid := b.pid.(latch := pos, ale := false, wr := true);
            var ext := b.ext.(latch := pos, ale := false, wr := true);
            && b'.pid == (if b.pid.ce then pid else Stored(pid, data))
            && b'.ext == (if b.ext.ce then ext else Stored(ext, data))
            && b'.p1 == b.p1 && b'.p2 == b.p2
  {
  }

  /** The history functions after one more operation. */
  lemma {:induction false} LastAfter(h: seq<BusOp>, op: BusOp, chip: Chip, cell: Cell)
    ensures LastWritten(h + [op], chip, cell) ==
            if op.P2Full? && Bit(op.v, 6) == 1 then 0
            else if op.Store? && Selected(h, chip) && CellOf(IoMode(h), op.pos) == cell then op.data
            else LastWritten(h, chip, cell)
    ensures P2After(h + [op]) == (match op
                                  case P2Full(v) => v
                                  case P2Low(n) => Written(P2After(h), n, 15)
                                  case _ => P2After(h))
  {
    assert (h + [op])[..|h + [op]| - 1] == h;
  }

  /** A byte stored by a selected chip lands in the addressed cell and nowhere else. */
  lemma StoredContent(p: PidState, data: byte, cell: Cell)
    requires cell != Command
    ensures Content(Stored(p, data), cell) == if CellOf(p.io, p.latch) == cell then data else Content(p, cell)
    ensures Stored(p, data).ce == p.ce && Stored(p, data).io == p.io
  {
  }

  lemma StoredModes(p: PidState, data: byte, cmd: byte)
    requires ModesFrom(p, cmd)
    ensures ModesFrom(Stored(p, data), if CellOf(p.io, p.latch) == Command then data else cmd)
  {
  }

  lemma StoredMatches(p: PidState, h: seq<BusOp>, chip: Chip, pos: byte, data: byte)
    requires ChipMatches(p, h, chip)
    ensures var q := p.(latch := pos, ale := false, wr := true);
            ChipMatches(if p.ce then q else Stored(q, data), h + [Store(pos, data)], chip)
  {
    hide Bit, P2After, LastWritten, Stored, CellOf;
    var op := Store(pos, data);
    var q := p.(latch := pos, ale := false, wr := true);
    var r := if p.ce then q else Stored(q, data);
    forall cell | cell != Command ensures Content(r, cell) == LastWritten(h + [op], chip, cell) {
      assert Content(p, cell) == LastWritten(h, chip, cell);
      LastAfter(h, op, chip, cell);
      StoredContent(q, data, cell);
    }
    LastAfter(h, op, chip, Command);
    StoredContent(q, data, PortA);
    StoredModes(q, data, LastWritten(h, chip, Command));
  }

  /** The reset line clears every cell and every mode; the other pins leave them alone. */
  lemma {:induction false} PinsContent(p: PidState, v: byte, chip: Chip, cell: Cell)
    requires cell != Command
    ensures Content(PinsFrom(p, v, chip), cell) == if Bit(v, 6) == 1 then 0 else Content(p, cell)
  {
  }

  lemma {:induction false} PinsModes(p: PidState, v: byte, chip: Chip, cmd: byte)
    requires ModesFrom(p, cmd)
    ensures ModesFrom(PinsFrom(p, v, chip), if Bit(v, 6) == 1 then 0 else cmd)
  {
  }

  lemma PinsMatch(p: PidState, h: seq<BusOp>, chip: Chip, v: byte)
    requires ChipMatches(p, h, chip)
    ensures ChipMatches(PinsFrom(p, v, chip), h + [P2Full(v)], chip)
  {
    hide Bit, P2After, LastWritten, Content, CellOf, ModesFrom, PidReset;
    var r := PinsFrom(p, v, chip);
    forall cell | cell != Command ensures Content(r, cell) == LastWritten(h + [P2Full(v)], chip, cell) {
      assert Content(p, cell) == LastWritten(h, chip, cell);
      PinsContent(p, v, chip, cell);
      LastAfter(h, P2Full(v), chip, cell);
    }
    LastAfter(h, P2Full(v), chip, Command);
    PinsModes(p, v, chip, LastWritten(h, chip, Command));
  }

  /** An operation that moves neither CE, IO, RAM nor registers of a chip keeps the match. */
  predicate OnlyLatched(p: PidState, q: PidState) {
    q == p.(latch := q.latch, ale := q.ale, rd := q.rd)
  }

  lemma {:induction false} QuietMatches(p: PidState, q: PidState, h: seq<BusOp>, op: BusOp, chip: Chip)
    requires ChipMatches(p, h, chip) && !op.P2Full? && !op.Store?
    requires OnlyLatched(p, q)
    requires Bit(P2After(h + [op]), chip.CeBit()) == Bit(P2After(h), chip.CeBit())
    requires Bit(P2After(h + [op]), 7) == Bit(P2After(h), 7)
    ensures ChipMatches(q, h + [op], chip)
  {
    var h' := h + [op];
    assert h'[..|h'| - 1] == h;
    forall cell | cell != Command ensures Content(q, cell) == LastWritten(h', chip, cell) {
      assert Content(p, cell) == LastWritten(h, chip, cell);
    }
  }

  lemma StepMatches(b: BoardState, h: seq<BusOp>, op: BusOp)
    requires Matches(b, h)
    ensures Matches(ApplyBus(b, op), h + [op])
  {
    hide Matches, ApplyBus;
    match op {
      case P2Full(v) => FullStep(b, h, v);
      case Store(pos, data) => StoreStep(b, h, pos, data);
      case _ => QuietStep(b, h, op);
    }
  }

  lemma FullStep(b: BoardState, h: seq<BusOp>, v: byte)
    requires Matches(b, h)
    ensures Matches(ApplyBus(b, P2Full(v)), h + [P2Full(v)])
  {
    var h' := h + [P2Full(v)];
    assert h'[..|h'| - 1] == h;
    hide ChipMatches, WriteP2, LastWritten;
    P2FullEffect(b, v);
    PinsMatch(b.pid, h, Main, v);
    PinsMatch(b.ext, h, Extension, v);
  }

  lemma StoreStep(b: BoardState, h: seq<BusOp>, pos: byte, data: byte)
    requires Matches(b, h)
    ensures Matches(ApplyBus(b, Store(pos, data)), h + [Store(pos, data)])
  {
    var h' := h + [Store(pos, data)];
    assert h'[..|h'| - 1] == h;
    hide ChipMatches, MovxWrite, LastWritten;
    StoreEffect(b, pos, data);
    StoredMatches(b.pid, h, Main, pos, data);
    StoredMatches(b.ext, h, Extension, pos, data);
  }

  lemma QuietStep(b: BoardState, h: seq<BusOp>, op: BusOp)
    requires Matches(b, h) && !op.P2Full? && !op.Store?
    ensures Matches(ApplyBus(b, op), h + [op])
  {
    var h' := h + [op];
    assert h'[..|h'| - 1] == h;
    hide ChipMatches, ApplyBus, OnlyLatched, Bit, Written;
    var b' := ApplyBus(b, op);
    QuietEffect(b, op);
    QuietMatches(b.pid, b'.pid, h, op, Main);
    QuietMatches(b.ext, b'.ext, h, op, Extension);
  }

  lemma QuietEffect(b: BoardState, op: BusOp)
    requires !op.P2Full? && !op.Store?
    ensures var b' := ApplyBus(b, op);
            && OnlyLatched(b.pid, b'.pid) && OnlyLatched(b.ext, b'.ext)
            && b'.p2 == (if op.P2Low? then Written(b.p2, op.n, 15) else b.p2)
            && forall k :: 4 <= k < 8 ==> Bit(b'.p2, k) == Bit(b.p2, k)
  {
    hide WriteP2, MovxRead, Bit, Written, OnlyLatched;
    var b' := ApplyBus(b, op);
    if op.P2Low? {
      P2LowEffect(b, op.n);
    } else if op.Read? {
      ReadEffect(b, op.pos);
    }
    Latched(b.pid, b'.pid.latch, b'.pid.ale, b'.pid.rd);
    Latched(b.ext, b'.ext.latch, b'.ext.ale, b'.ext.rd);
  }

  lemma Latched(p: PidState, latch: byte, ale: bool, rd: bool)
    ensures OnlyLatched(p, p.(latch := latch, ale := ale, rd := rd))
  {
  }

  lemma ResetMatches(b: BoardState, p1: byte)
    ensures Matches(AfterCpuReset(b, p1), [])
  {
    hide WriteP2, Bit;
    P2FullEffect(b.(bus := 0, p1 := p1), 255);
    MaskBits();
  }

  /** Main theorem: over any run after a CPU reset, from any board, the chips hold exactly what the
      history says and their CE and IO pins equal the P2 bits. */
  lemma {:induction false} BusRefinesMap(b: BoardState, p1: byte, h: seq<BusOp>)
    ensures Matches(RunBus(AfterCpuReset(b, p1), h), h)
  {
    if h == [] {
      ResetMatches(b, p1);
    } else {
      var before := h[..|h| - 1];
      BusRefinesMap(b, p1, before);
      assert before + [h[|h| - 1]] == h;
      StepMatches(RunBus(AfterCpuReset(b, p1), before), before, h[|h| - 1]);
    }
  }

  /** A MOVX read at the end of any run delivers the byte the history prescribes. */
  lemma {:induction false} ReadsLastWritten(b: BoardState, p1: byte, h: seq<BusOp>, pos: byte)
    ensures MovxRead(RunBus(AfterCpuReset(b, p1), h), pos).bus == ReadBack(h, pos)
  {
    BusRefinesMap(b, p1, h);
    var s := RunBus(AfterCpuReset(b, p1), h);
    ReadEffect(s, pos);
    assert Matches(s, h);
    var cell := CellOf(IoMode(h), pos);
    if cell != Command {
      assert Content(s.pid, cell) == LastWritten(h, Main, cell);
      assert Content(s.ext, cell) == LastWritten(h, Extension, cell);
    }
  }

  /** A store is read back unchanged as long as no later operation stores to the same cell of the
      chip or resets the chips, however P2 was switched in between. */
  lemma {:induction false} StoreThenRead(h: seq<BusOp>, later: seq<BusOp>, chip: Chip, pos: byte, data: byte)
    requires Selected(h, chip)
    requires forall i :: 0 <= i < |later| ==> !(later[i].P2Full? && Bit(later[i].v, 6) == 1)
    requires forall i :: 0 <= i < |later| && later[i].Store? ==>
               var now := h + [Store(pos, data)] + later[..i];
               !(Selected(now, chip) && CellOf(IoMode(now), later[i].pos) == CellOf(IoMode(h), pos))
    ensures LastWritten(h + [Store(pos, data)] + later, chip, CellOf(IoMode(h), pos)) == data
    decreases |later|
  {
    hide LastWritten, Selected, IoMode, CellOf, Bit;
    var h1 := h + [Store(pos, data)];
    var all := h1 + later;
    if later == [] {
      assert all == h1;
      LastAfter(h, Store(pos, data), chip, CellOf(IoMode(h), pos));
    } else {
      var n := |later| - 1;
      var sooner := later[..n];
      assert all == h1 + sooner + [later[n]];
      forall i | 0 <= i < |sooner| && sooner[i].Store?
        ensures var now := h1 + sooner[..i];
                !(Selected(now, chip) && CellOf(IoMode(now), sooner[i].pos) == CellOf(IoMode(h), pos))
      {
        assert sooner[i] == later[i] && sooner[..i] == later[..i];
      }
      StoreThenRead(h, sooner, chip, pos, data);
      LastAfter(h1 + sooner, later[n], chip, CellOf(IoMode(h), pos));
    }
  }
}
