/** Chained ADDC is exact addition of numbers of any length, and when DA A makes it decimal addition. */
module MultiByte {
  import opened Bits
  import opened Cpu
  import opened CpuFrames
  import opened Wrappers

  /** Little-endian value of a byte sequence. */
  function Val(s: seq<byte>): nat {
    if s == [] then 0 else s[0] + 256 * Val(s[1..])
  }

  function Pow256(n: nat): nat {
    if n == 0 then 1 else 256 * Pow256(n - 1)
  }

  /** Adds y to x byte by byte from the low end: load A, ADDC, and store A, with CY fed forward. */
  function ChainAddc(g: Regs, x: seq<byte>, y: seq<byte>): (seq<byte>, Regs)
    requires |x| == |y|
    decreases |x|
  {
    if x == [] then ([], g)
    else
      var g1 := AddToAcc(g.(a := x[0]), y[0], Carry(g.psw));
      var (rest, g2) := ChainAddc(g1, x[1..], y[1..]);
      ([g1.a] + rest, g2)
  }

  /** One addition: A and the carry together hold the exact sum, AC the carry out of bit 3. */
  lemma AddToAccExact(g: Regs, value: byte, carryIn: nat)
    requires carryIn <= 1
    ensures var g' := AddToAcc(g, value, carryIn);
            && g'.a + 256 * Carry(g'.psw) == g.a + value + carryIn
            && (Aux(g'.psw) == 1 <==> g.a % 16 + value % 16 + carryIn >= 16)
            && g'.psw % 64 == g.psw % 64
            && g' == g.(a := g'.a, psw := g'.psw)
  {
    var res, half := g.a + value + carryIn, g.a % 16 + value % 16 + carryIn;
    FlagFields(g.psw, res > 255, half > 15);
    hide SetCarry, SetAux, Carry, Aux;
  }

  lemma FlagFields(psw: byte, c: bool, h: bool)
    ensures var p := SetAux(SetCarry(psw, c), h);
            Carry(p) == (if c then 1 else 0) && Aux(p) == (if h then 1 else 0) && p % 64 == psw % 64
  {
    var q := SetCarry(psw, c);
    SetCarryFields(psw, c);
    assert q % 64 == psw % 64;
    SetAuxFields(q, h);
    hide SetCarry, SetAux;
  }

  lemma LowBits(psw: byte)
    ensures psw % 128 % 64 == psw % 64
  {
    assert psw == 64 * (psw / 64) + psw % 64;
  }

  lemma WithTop(r: nat)
    requires r < 128
    ensures (128 + r) / 128 == 1 && r / 128 == 0 && (128 + r) % 64 == r % 64
  {
  }

  lemma SetCarryFields(psw: byte, c: bool)
    ensures Carry(SetCarry(psw, c)) == (if c then 1 else 0) && SetCarry(psw, c) % 64 == psw % 64
  {
    LowBits(psw);
    WithTop(psw % 128);
  }

  lemma SetAuxFields(psw: byte, h: bool)
    ensures var p := SetAux(psw, h);
            Carry(p) == Carry(psw) && Aux(p) == (if h then 1 else 0) && p % 64 == psw % 64
  {
  }

  /** For byte strings of any length and any carry in: the result and the final carry are the exact
      sum, and the PSW changes in CY and AC only. */
  lemma {:induction false} ChainExact(g: Regs, x: seq<byte>, y: seq<byte>)
    requires |x| == |y|
    ensures var (r, g') := ChainAddc(g, x, y);
            && |r| == |x|
            && Val(x) + Val(y) + Carry(g.psw) == Val(r) + (if Carry(g'.psw) == 1 then Pow256(|x|) else 0)
            && g'.psw % 64 == g.psw % 64
    decreases |x|
  {
    hide AddToAcc, Carry, Aux;
    CarryRange(g.psw);
    if x != [] {
      var g1 := AddToAcc(g.(a := x[0]), y[0], Carry(g.psw));
      AddToAccExact(g.(a := x[0]), y[0], Carry(g.psw));
      ChainExact(g1, x[1..], y[1..]);
      var (rest, g2) := ChainAddc(g1, x[1..], y[1..]);
      assert ([g1.a] + rest)[1..] == rest;
      CarryRange(g1.psw);
    }
  }

  lemma CarryRange(psw: byte)
    ensures 0 <= Carry(psw) <= 1
  {
  }

  // ----- decimal addition -----

  /** Two decimal digits in one byte. */
  predicate IsBcd(b: byte) {
    b / 16 <= 9 && b % 16 <= 9
  }

  function Bcd(b: byte): nat {
    b / 16 * 10 + b % 16
  }

  /** ADD or ADDC of two packed decimal bytes, then DA A. */
  function DecimalSum(g: Regs, y: byte, carryIn: nat): Regs
    requires carryIn <= 1
  {
    DecimalAdjust(AddToAcc(g, y, carryIn))
  }

  /** A and CY denote the decimal sum. */
  predicate SumsTo(g: Regs, total: nat) {
    IsBcd(g.a) && Bcd(g.a) + 100 * Carry(g.psw) == total
  }

  /** The new A of DA A and whether CY is set. */
  function Adjusted(a: byte, aux: bool, carry: bool): (byte, bool) {
    HighAdjusted(if a % 16 > 9 || aux then (a + 6) % 256 else a, carry)
  }

  function HighAdjusted(a: byte, carry: bool): (byte, bool) {
    var hi := a / 16 + if a / 16 > 9 || carry then 6 else 0;
    (hi % 16 * 16 + a % 16, hi > 15)
  }

  lemma AdjustIs(g: Regs)
    ensures var (a, cy) := Adjusted(g.a, Aux(g.psw) > 0, Carry(g.psw) > 0);
            DecimalAdjust(g) == g.(a := a, psw := SetCarry(g.psw, cy))
  {
    hide Aux, Carry, SetCarry;
  }

  lemma Nibbles(b: byte, h: nat, l: nat)
    requires l < 16 && b == 16 * h + l
    ensures b / 16 == h && b % 16 == l
  {
  }

  /** The result denotes the sum of the digit sums h and l. */
  predicate Denotes(r: (byte, bool), h: nat, l: nat) {
    IsBcd(r.0) && Bcd(r.0) + (if r.1 then 100 else 0) == 10 * h + l
  }

  lemma HighAdjustedIs(a: byte, up: nat, low: nat, carry: bool)
    requires up < 16 && low < 10 && a == 16 * up + low
    ensures var hi := up + if up > 9 || carry then 6 else 0;
            var digit := if hi > 15 then hi - 16 else hi;
            HighAdjusted(a, carry) == (16 * digit + low, hi > 15)
  {
    Nibbles(a, up, low);
  }

  lemma DenotesIs(digit: nat, low: nat, over: bool, h: nat, l: nat)
    requires digit < 16 && low < 10
    ensures Denotes((16 * digit + low, over), h, l)
            <==> digit <= 9 && 10 * digit + low + (if over then 100 else 0) == 10 * h + l
  {
    Nibbles(16 * digit + low, digit, low);
  }

  /** The high digit up with the low digit low already right: one carry is forgotten above 9 + 6. */
  lemma HighIs(a: byte, up: nat, low: nat, carry: bool, h: nat, l: nat)
    requires up < 16 && low < 10 && a == 16 * up + low
    ensures var hi := up + if up > 9 || carry then 6 else 0;
            var digit := if hi > 15 then hi - 16 else hi;
            Denotes(HighAdjusted(a, carry), h, l)
            <==> digit <= 9 && 10 * digit + low + (if hi > 15 then 100 else 0) == 10 * h + l
  {
    hide HighAdjusted, Denotes;
    var hi := up + if up > 9 || carry then 6 else 0;
    HighAdjustedIs(a, up, low, carry);
    DenotesIs(if hi > 15 then hi - 16 else hi, low, hi > 15, h, l);
  }

  lemma LowFits(h: nat, l: nat, a: byte, carry: bool)
    requires h <= 18 && l <= 9 && a == 16 * (if h < 16 then h else h - 16) + l && (carry <==> h >= 16)
    ensures Denotes(Adjusted(a, false, carry), h, l) <==> h < 16
  {
    var up := if h < 16 then h else h - 16;
    Nibbles(a, up, l);
    HighIs(a, up, l, carry, h, l);
    hide Denotes, HighAdjusted;
  }

  lemma LowCarries(h: nat, l: nat, a: byte, carry: bool)
    requires h <= 18 && 10 <= l <= 19 && a + (if carry then 256 else 0) == 16 * h + l
    ensures Denotes(Adjusted(a, l > 15, carry), h, l) <==> h < 15
  {
    hide Denotes, HighAdjusted;
    var up := if h < 15 then h + 1 else h - 15;
    var a1 := 16 * up + (l - 10);
    if l <= 15 { Nibbles(a, if carry then h - 16 else h, l); }
    assert a + 6 == a1 || a + 6 == a1 + 256;
    HighIs(a1, up, l - 10, carry, h, l);
  }

  /** h and l are the sums of the high and of the low digits. */
  lemma AdjustIff(h: nat, l: nat, a: byte, carry: bool)
    requires h <= 18 && l <= 19 && a + (if carry then 256 else 0) == 16 * h + l
    ensures Denotes(Adjusted(a, l > 15, carry), h, l) <==> 16 * h + l < 250
  {
    hide Denotes, Adjusted;
    if l <= 9 { LowFits(h, l, a, carry); } else { LowCarries(h, l, a, carry); }
  }

  /** DA A after an addition of packed decimal bytes gives their decimal sum exactly when the raw sum is below
      250: it forgets the carry out of the addition, and the one out of its own low digit. */
  lemma DecimalSumIff(g: Regs, y: byte, c: nat)
    requires IsBcd(g.a) && IsBcd(y) && c <= 1
    ensures SumsTo(DecimalSum(g, y, c), Bcd(g.a) + Bcd(y) + c) <==> g.a + y + c < 250
    ensures DecimalSum(g, y, c) == g.(a := DecimalSum(g, y, c).a, psw := DecimalSum(g, y, c).psw)
  {
    var h: nat, l: nat := g.a / 16 + y / 16, g.a % 16 + y % 16 + c;
    var g1 := AddToAcc(g, y, c);
    AddToAccExact(g, y, c);
    CarryRange(g1.psw);
    AdjustIs(g1);
    SetCarryFields(g1.psw, Adjusted(g1.a, l > 15, Carry(g1.psw) > 0).1);
    AuxRange(g1.psw);
    hide AddToAcc, DecimalAdjust, SetCarry, Carry, Aux, Adjusted;
    AdjustIff(h, l, g1.a, Carry(g1.psw) > 0);
  }

  lemma AuxRange(psw: byte)
    ensures 0 <= Aux(psw) <= 1
  {
  }

  /** 99 + 99 loses the carry of the addition, 99 + 61 the one of the low digit. */
  lemma DecimalSumFails(g: Regs)
    ensures var r := DecimalSum(g.(a := 0x99), 0x99, 0);
            r.a == 0x98 && Carry(r.psw) == 0 && Bcd(0x99) + Bcd(0x99) == 198
    ensures var r := DecimalSum(g.(a := 0x99), 0x61, 0);
            r.a == 0x00 && Carry(r.psw) == 0 && Bcd(0x99) + Bcd(0x61) == 160
  {
    hide DecimalSum, Carry;
    DecimalSumIs(g, 0x99, 0x98);
    DecimalSumIs(g, 0x61, 0x00);
  }

  lemma DecimalSumIs(g: Regs, y: byte, a: byte)
    requires (y == 0x99 && a == 0x98) || (y == 0x61 && a == 0x00)
    ensures var r := DecimalSum(g.(a := 0x99), y, 0); r.a == a && Carry(r.psw) == 0
  {
    hide AddToAcc, DecimalAdjust, SetCarry, Carry, Aux, Adjusted;
    var g1 := AddToAcc(g.(a := 0x99), y, 0);
    AddToAccExact(g.(a := 0x99), y, 0);
    CarryRange(g1.psw);
    AuxRange(g1.psw);
    AdjustIs(g1);
    AdjustedSums(g1.a, Aux(g1.psw) > 0);
    SetCarryFields(g1.psw, false);
  }

  lemma AdjustedSums(a: byte, aux: bool)
    ensures a == 0x32 && aux ==> Adjusted(a, aux, true) == (0x98, false)
    ensures a == 0xfa ==> Adjusted(a, aux, false) == (0x00, false)
  {
  }

  // ----- in the running processor -----

  /** The next instruction is ADD or ADDC of value v, with c for a carry. */
  predicate AddsNext(m: Machine, v: byte, c: nat) {
    && Prepared(m).Some?
    && var (i, d, p) := Prepared(m).value;
       && i.Data? && i.d.Alu? && OperandOf(p.cpu, i.d.src, d) == Some(v)
       && ((i.d.op == ADD && c == 0) || (i.d.op == ADDC && c == Carry(m.cpu.regs.psw)))
  }

  predicate AdjustsNext(m: Machine) {
    CanFetch(m) && Decode(FetchByte(m)) == Data(Unary(DA))
  }

  /** The fields of the PSW above SP. */
  predicate SameFlags(g: Regs, g': Regs) {
    g'.a == g.a && g'.psw / 8 == g.psw / 8
  }

  lemma FlagsAgree(g: Regs, g': Regs)
    requires SameFlags(g, g')
    ensures Carry(g'.psw) == Carry(g.psw) && Aux(g'.psw) == Aux(g.psw)
  {
    var f, f' := g.psw / 8, g'.psw / 8;
    assert g.psw / 128 == f / 16 && g'.psw / 128 == f' / 16;
    assert g.psw / 64 == f / 8 && g'.psw / 64 == f' / 8;
  }

  lemma PushFlags(f: Flowed)
    ensures Push(f).psw / 8 == f.psw / 8
  {
    hide Or;
    var q, sp := f.psw / 8, (Sp(f.psw) + 1) % 8;
    assert Push(f).psw == q * 8 + sp;
  }

  /** Serving an interrupt touches neither A nor the flags. */
  lemma HandleFlags(m: Machine)
    ensures SameFlags(m.cpu.regs, HandleInterrupts(m).cpu.regs)
  {
    hide HandleInterrupts, Push;
    HandleRegs(m);
    PushFlags(Still(m.cpu));
  }

  lemma HandleRegs(m: Machine)
    ensures var g, g' := m.cpu.regs, HandleInterrupts(m).cpu.regs;
            g'.a == g.a && (g'.psw == g.psw || g'.psw == Push(Still(m.cpu)).psw)
  {
    hide HandleInterrupts, Push;
    HandleFrame(m);
  }

  /** One step through ADD or ADDC is AddToAcc on A and the flags; memory is left alone, until an interrupt entry
      pushes its frame. */
  lemma AddStep(m: Machine, v: byte, c: nat)
    requires Step(m).Next? && AddsNext(m, v, c) && c <= 1
    ensures SameFlags(AddToAcc(m.cpu.regs, v, c), Step(m).m.cpu.regs)
    ensures Body(m).Some? && Body(m).value.cpu.ram == m.cpu.ram
  {
    hide Prepared, Exec, HandleInterrupts, AddToAcc, OperandOf, ExecData;
    BodyUnfold(m);
    PreparedFrame(m);
    var (i, d, p) := Prepared(m).value;
    ExecDataIs(p, i.d, d);
    AluIs(p.cpu, i.d, d, v, c);
    AddReads(m.cpu.regs, p.cpu.regs, v, c);
    HandleFlags(Body(m).value);
  }

  lemma AluIs(c: CpuState, i: DataInstr, d: byte, v: byte, carry: nat)
    requires i.Alu? && ValidData(i) && OperandOf(c, i.src, d) == Some(v) && carry <= 1
    requires (i.op == ADD && carry == 0) || (i.op == ADDC && carry == Carry(c.regs.psw))
    ensures var u, g := ExecData(c, i, d), AddToAcc(c.regs, v, carry); u.Some? && u.value.a == g.a && u.value.psw == g.psw
    ensures ExecData(c, i, d).value.ram == c.ram
  {
    hide AddToAcc, OperandOf;
  }

  /** Only A and the PSW count. */
  lemma AddReads(g: Regs, g': Regs, v: byte, c: nat)
    requires g'.a == g.a && g'.psw == g.psw && c <= 1
    ensures AddToAcc(g', v, c).a == AddToAcc(g, v, c).a && AddToAcc(g', v, c).psw == AddToAcc(g, v, c).psw
  {
    hide SetCarry, SetAux;
  }

  /** One step through DA A. */
  lemma AdjustStep(m: Machine)
    requires Step(m).Next? && AdjustsNext(m)
    ensures var g := DecimalAdjust(m.cpu.regs);
            Step(m).m.cpu.regs.a == g.a && Carry(Step(m).m.cpu.regs.psw) == Carry(g.psw)
  {
    hide Prepared, Exec, HandleInterrupts, DecimalAdjust, ExecData, Carry;
    BodyUnfold(m);
    PreparedFrame(m);
    var (i, d, p) := Prepared(m).value;
    ExecDataIs(p, i.d, d);
    DaIs(p.cpu, d);
    AdjustIs(m.cpu.regs);
    AdjustIs(p.cpu.regs);
    HandleFlags(Body(m).value);
    FlagsAgree(Body(m).value.cpu.regs, Step(m).m.cpu.regs);
  }

  lemma DaIs(c: CpuState, d: byte)
    ensures var u, g := ExecData(c, Unary(DA), d), DecimalAdjust(c.regs); u.Some? && u.value.a == g.a && u.value.psw == g.psw
  {
    hide DecimalAdjust;
  }

  /** ADD or ADDC and then DA A, run by the processor on packed decimal bytes: the decimal sum exactly when the
      raw sum is below 250. */
  lemma DecimalSteps(m: Machine, v: byte, c: nat)
    requires Step(m).Next? && AddsNext(m, v, c) && c <= 1
    requires Step(Step(m).m).Next? && AdjustsNext(Step(m).m)
    requires IsBcd(m.cpu.regs.a) && IsBcd(v)
    ensures SumsTo(Step(Step(m).m).m.cpu.regs, Bcd(m.cpu.regs.a) + Bcd(v) + c) <==> m.cpu.regs.a + v + c < 250
  {
    hide Step, AddsNext, AdjustsNext, DecimalAdjust, Carry, Aux, AddToAcc, SetCarry, Adjusted;
    var g1, g2 := AddToAcc(m.cpu.regs, v, c), Step(m).m.cpu.regs;
    AddStep(m, v, c);
    AdjustStep(Step(m).m);
    FlagsAgree(g1, g2);
    AdjustIs(g1);
    AdjustIs(g2);
    var cy := Adjusted(g1.a, Aux(g1.psw) > 0, Carry(g1.psw) > 0).1;
    SetCarryFields(g1.psw, cy);
    SetCarryFields(g2.psw, cy);
    DecimalSumIff(m.cpu.regs, v, c);
  }

  /** Instructions that can change CY. */
  predicate TouchesCarry(i: Instr) {
    match i
    case Data(Alu(op, _)) => op == ADD || op == ADDC
    case Data(Unary(u)) => u == DA || u == RLC || u == RRC
    case Data(Flag(f)) => f == ClrC || f == CplC || f == MovPswA
    case Flow(Retr) => true
    case _ => false
  }

  lemma DataCarry(c: CpuState, i: DataInstr, d: byte)
    requires ValidData(i) && ExecData(c, i, d).Some? && !TouchesCarry(Data(i))
    ensures Carry(ExecData(c, i, d).value.psw) == Carry(c.regs.psw)
  {
    hide AddToAcc, DecimalAdjust, ReadReg, OperandOf, RegAddr, Or, And, Xor, Inc, Dec, Not, SetCarry;
    if i.Flag? { FlagCarry(c, i.f); }
  }

  lemma FlagCarry(c: CpuState, f: FlagOp)
    requires !TouchesCarry(Data(Flag(f)))
    ensures Carry(ExecFlag(c, f).psw) == Carry(c.regs.psw)
  {
    SetF0Carry(c.regs.psw, false);
    SetF0Carry(c.regs.psw, true);
    hide SetF0, SetBank, Carry;
  }

  lemma SetF0Carry(psw: byte, b: bool)
    ensures Carry(SetF0(psw, b)) == Carry(psw) && Carry(SetBank(psw, b)) == Carry(psw)
  {
  }

  lemma FlowCarry(c: CpuState, w: FlowInstr, d: byte)
    requires ValidFlow(w) && ExecFlow(c, w, d).Some? && w != Retr
    ensures Carry(ExecFlow(c, w, d).value.psw) == Carry(c.regs.psw)
  {
    PushFlags(Still(c));
    PopCarry(Still(c));
    var g := c.regs;
    FlagsAgree(g, g.(psw := Push(Still(c)).psw));
    hide Push, Pop, Carry, Holds, NearTarget, FarTarget, ReadReg, RegAddr, Dec;
  }

  lemma PopCarry(f: Flowed)
    ensures Carry(Pop(f, false).psw) == Carry(f.psw)
  {
    var h, low := f.psw / 16, 8 + (f.psw + 7) % 8;
    assert Pop(f, false).psw == h * 16 + low;
    assert (h * 16 + low) / 16 == h;
  }

  /** Every other instruction leaves CY alone, and so does serving an interrupt. */
  lemma StepCarry(m: Machine)
    requires Step(m).Next? && CanFetch(m) && !TouchesCarry(Decode(FetchByte(m)))
    ensures Carry(Step(m).m.cpu.regs.psw) == Carry(m.cpu.regs.psw)
  {
    hide Prepared, Exec, HandleInterrupts, Decode, Carry, ExecData, ExecFlow, TouchesCarry;
    BodyUnfold(m);
    PreparedFrame(m);
    var (i, d, p) := Prepared(m).value;
    if i.Data? {
      ExecDataIs(p, i.d, d);
      DataCarry(p.cpu, i.d, d);
    } else if i.Flow? {
      ExecFlowIs(p, i.w, d);
      NotRetr(i);
      FlowCarry(p.cpu, i.w, d);
    } else {
      ExecFrame(p, i, d);
    }
    HandleFlags(Body(m).value);
    FlagsAgree(Body(m).value.cpu.regs, Step(m).m.cpu.regs);
  }

  lemma NotRetr(i: Instr)
    requires !TouchesCarry(i)
    ensures i != Flow(Retr)
  {
  }

  /** From step a to step b of the run no instruction touches CY. */
  ghost predicate CarryKept(ms: seq<Machine>, a: nat, b: nat) {
    a <= b < |ms| && forall i :: a <= i < b ==> CanFetch(ms[i]) && !TouchesCarry(Decode(FetchByte(ms[i])))
  }

  lemma {:induction false} KeptCarry(ms: seq<Machine>, a: nat, b: nat)
    requires IsRun(ms) && CarryKept(ms, a, b)
    ensures Carry(ms[b].cpu.regs.psw) == Carry(ms[a].cpu.regs.psw)
    decreases b
  {
    hide Step, Decode, Carry, TouchesCarry;
    if a < b {
      KeptCarry(ms, a, b - 1);
      assert Step(ms[b - 1]).Next?;
      StepCarry(ms[b - 1]);
    }
  }

  /** Steps ks of the run are ADDC of the bytes y to the bytes x, and CY is untouched in between. */
  ghost predicate AddcsAt(ms: seq<Machine>, ks: seq<nat>, x: seq<byte>, y: seq<byte>) {
    && |ks| == |x| == |y|
    && (forall j :: 0 <= j < |ks| ==> AddcAt(ms, ks[j], x[j], y[j]))
    && (forall j :: 0 < j < |ks| ==> CarryKept(ms, ks[j - 1] + 1, ks[j]))
  }

  predicate AddcAt(ms: seq<Machine>, k: nat, x: byte, y: byte) {
    k < |ms| - 1 && ms[k].cpu.regs.a == x && AddsNext(ms[k], y, Carry(ms[k].cpu.regs.psw))
  }

  /** What A holds after each of the steps. */
  function ResultsAt(ms: seq<Machine>, ks: seq<nat>): (r: seq<byte>)
    requires forall j :: 0 <= j < |ks| ==> ks[j] < |ms| - 1
    ensures |r| == |ks|
  {
    if ks == [] then [] else [ms[ks[0] + 1].cpu.regs.a] + ResultsAt(ms, ks[1..])
  }

  /** Any run of the processor that adds two numbers byte by byte with ADDC, doing in between what it likes apart
      from changing CY, has added them exactly: the results and the last carry are the sum. */
  lemma {:induction false} AddcRunExact(ms: seq<Machine>, ks: seq<nat>, x: seq<byte>, y: seq<byte>)
    requires IsRun(ms) && ks != [] && AddcsAt(ms, ks, x, y)
    ensures forall j :: 0 <= j < |ks| ==> ks[j] < |ms| - 1
    ensures Val(x) + Val(y) + Carry(ms[ks[0]].cpu.regs.psw)
            == Val(ResultsAt(ms, ks)) + Pow256(|x|) * Carry(ms[ks[|ks| - 1] + 1].cpu.regs.psw)
    decreases |ks|
  {
    hide Step, Decode, Carry, AddcAt, TouchesCarry, CarryKept, IsRun;
    AddcPlaces(ms, ks, x, y);
    var k := ks[0];
    var c, c' := Carry(ms[k].cpu.regs.psw), Carry(ms[k + 1].cpu.regs.psw);
    AddcOnce(ms, k, x[0], y[0]);
    var r := ms[k + 1].cpu.regs.a;
    assert ([r] + ResultsAt(ms, ks[1..]))[1..] == ResultsAt(ms, ks[1..]);
    if |ks| == 1 {
      assert Val(x[1..]) == Val(y[1..]) == Val(ResultsAt(ms, ks[1..])) == 0 && Pow256(1) == 256 * Pow256(0);
    } else {
      assert CarryKept(ms, ks[0] + 1, ks[1]);
      KeptCarry(ms, k + 1, ks[1]);
      AddcsLater(ms, ks, x, y);
      AddcRunExact(ms, ks[1..], x[1..], y[1..]);
      Regroup(Pow256(|x| - 1), Carry(ms[ks[|ks| - 1] + 1].cpu.regs.psw));
    }
  }

  lemma AddcPlaces(ms: seq<Machine>, ks: seq<nat>, x: seq<byte>, y: seq<byte>)
    requires AddcsAt(ms, ks, x, y)
    ensures forall j :: 0 <= j < |ks| ==> ks[j] < |ms| - 1
  {
    hide AddsNext, CarryKept;
    forall j | 0 <= j < |ks| ensures ks[j] < |ms| - 1 { assert AddcAt(ms, ks[j], x[j], y[j]); }
  }

  lemma AddcsLater(ms: seq<Machine>, ks: seq<nat>, x: seq<byte>, y: seq<byte>)
    requires AddcsAt(ms, ks, x, y) && |ks| > 1
    ensures AddcsAt(ms, ks[1..], x[1..], y[1..])
  {
    hide AddcAt, CarryKept;
    forall j | 0 <= j < |ks| - 1 ensures AddcAt(ms, ks[1..][j], x[1..][j], y[1..][j]) {
      assert AddcAt(ms, ks[j + 1], x[j + 1], y[j + 1]);
    }
    forall j | 0 < j < |ks| - 1 ensures CarryKept(ms, ks[1..][j - 1] + 1, ks[1..][j]) {
      assert CarryKept(ms, ks[j + 1 - 1] + 1, ks[j + 1]);
    }
  }

  /** One of the steps. */
  lemma AddcOnce(ms: seq<Machine>, k: nat, x: byte, y: byte)
    requires IsRun(ms) && AddcAt(ms, k, x, y)
    ensures ms[k + 1].cpu.regs.a + 256 * Carry(ms[k + 1].cpu.regs.psw) == x + y + Carry(ms[k].cpu.regs.psw)
  {
    hide Step, Carry, AddsNext, AddToAcc;
    assert Step(ms[k]).Next? && Step(ms[k]).m == ms[k + 1];
    var c := Carry(ms[k].cpu.regs.psw);
    CarryRange(ms[k].cpu.regs.psw);
    AddStep(ms[k], y, c);
    AddToAccExact(ms[k].cpu.regs, y, c);
    FlagsAgree(AddToAcc(ms[k].cpu.regs, y, c), ms[k + 1].cpu.regs);
  }

  lemma Regroup(p: nat, c: nat)
    ensures 256 * (p * c) == (256 * p) * c
  {
  }
}
