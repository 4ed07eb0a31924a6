/** What every mnemonic and directive of the assembler does, line by line. */
module Mnemonics {
  import opened Bits
  import opened Assembly
  import opened Wrappers

  // ----- the names -----

  /** The instructions with one operand, and their codes. */
  predicate OneOperand(op: string, k: byte) {
    || (op == "VZG" && k == 3) || (op == "AKO" && k == 4) || (op == "LDA" && k == 5) || (op == "ABS" && k == 6)
    || (op == "ADD" && k == 7) || (op == "SUB" && k == 8) || (op == "SPU" && k == 9) || (op == "VGL" && k == 10)
    || (op == "SPB" && k == 11) || (op == "VGR" && k == 12) || (op == "VKL" && k == 13) || (op == "UND" && k == 15)
    || (op == "LIA" && k == 19) || (op == "AIS" && k == 20) || (op == "SIU" && k == 21)
  }

  predicate NoOperand(op: string, k: byte) {
    || (op == "HLT" && k == 1) || (op == "ANZ" && k == 2) || (op == "NEG" && k == 14)
  }

  predicate OptionalOperand(op: string, k: byte) {
    || (op == "P1E" && k == 16) || (op == "P1A" && k == 17) || (op == "P2A" && k == 18)
    || (op == "P3E" && k == 22) || (op == "P4A" && k == 23) || (op == "P5A" && k == 24)
  }

  predicate Directive(op: string) {
    op == ".ORG" || op == ".DB" || op == ".EQU" || op == ".RAW"
  }

  predicate Instruction(op: string) {
    || op == "VZG" || op == "AKO" || op == "LDA" || op == "ABS" || op == "ADD" || op == "SUB"
    || op == "SPU" || op == "VGL" || op == "SPB" || op == "VGR" || op == "VKL" || op == "UND"
    || op == "LIA" || op == "AIS" || op == "SIU" || op == "HLT" || op == "ANZ" || op == "NEG"
    || op == "P1E" || op == "P1A" || op == "P2A" || op == "P3E" || op == "P4A" || op == "P5A"
  }

  // ----- what a line may do to the state -----

  /** The value v of an operand, and the state its evaluation leaves: a number, '?' where that is allowed, a constant, a label,
      or a reference that waits for its label. */
  predicate Reads(s: State, n: nat, t: Token, unknown: bool, s1: State, v: byte) {
    if t.number.Some? && 0 <= t.number.value < 256 then s1 == s && v == t.number.value
    else if t.number.Some? then s1 == s.(errors := s.errors + [OutOfRange(n, t.text)]) && v == 0
    else if unknown && t.text == "?" then s1 == s && v == 0
    else if t.text in s.consts then s1 == s && v == s.consts[t.text]
    else if t.text in s.labels then s1 == s && v == s.labels[t.text] % 256
    else
      var waiting := if t.text in s.pending then s.pending[t.text] else [];
      s1 == s.(pending := s.pending[t.text := waiting + [s.pc]]) && v == 0
  }

  /** One more word at the end. */
  predicate Appends(s: State, s1: State, w: int) {
    0 <= w < 65536 && s1 == s.(mem := s.mem + [w], pc := s.pc + 1)
  }

  /** One more word with this code and operand. */
  ghost predicate Places(s: State, s1: State, n: nat, k: byte, t: Token, unknown: bool) {
    exists r: State, v: byte :: Reads(s, n, t, unknown, r, v) && Appends(r, s1, 256 * k + v)
  }

  predicate Reports(s: State, s1: State, e: Error) {
    s1 == s.(errors := s.errors + [e])
  }

  /** The line with this operation and these parameters, and no label. */
  function Does(s: State, n: nat, op: string, params: seq<Token>): State {
    DoLine(s, n, Line("", op, params))
  }

  // ----- the table -----

  /** Name by name the letters, which tell the names apart. */
  predicate Spelt(op: string, a: char, b: char, c: char) {
    |op| == 3 && op[0] == a && op[1] == b && op[2] == c
  }

  lemma Letters()
    ensures Spelt("HLT", 'H', 'L', 'T')
    ensures Spelt("ANZ", 'A', 'N', 'Z')
    ensures Spelt("VZG", 'V', 'Z', 'G')
    ensures Spelt("AKO", 'A', 'K', 'O')
    ensures Spelt("LDA", 'L', 'D', 'A')
    ensures Spelt("ABS", 'A', 'B', 'S')
    ensures Spelt("ADD", 'A', 'D', 'D')
    ensures Spelt("SUB", 'S', 'U', 'B')
    ensures Spelt("SPU", 'S', 'P', 'U')
    ensures Spelt("VGL", 'V', 'G', 'L')
    ensures Spelt("SPB", 'S', 'P', 'B')
    ensures Spelt("VGR", 'V', 'G', 'R')
    ensures Spelt("VKL", 'V', 'K', 'L')
    ensures Spelt("NEG", 'N', 'E', 'G')
    ensures Spelt("UND", 'U', 'N', 'D')
    ensures Spelt("P1E", 'P', '1', 'E')
    ensures Spelt("P1A", 'P', '1', 'A')
    ensures Spelt("P2A", 'P', '2', 'A')
    ensures Spelt("LIA", 'L', 'I', 'A')
    ensures Spelt("AIS", 'A', 'I', 'S')
    ensures Spelt("SIU", 'S', 'I', 'U')
    ensures Spelt("P3E", 'P', '3', 'E')
    ensures Spelt("P4A", 'P', '4', 'A')
    ensures Spelt("P5A", 'P', '5', 'A')
    ensures |".DB"| == 3 && ".DB"[0] == '.' && |".ORG"| == 4 && ".ORG"[1] == 'O' && |".EQU"| == 4 && ".EQU"[1] == 'E'
    ensures |".RAW"| == 4 && ".RAW"[1] == 'R'
  {
  }

  lemma MoveOps()
    ensures Ops("VZG") == Some(OpDesc(3, OneOp))
    ensures Ops("AKO") == Some(OpDesc(4, OneOp))
    ensures Ops("LDA") == Some(OpDesc(5, OneOp))
    ensures Ops("ABS") == Some(OpDesc(6, OneOp))
    ensures Ops("ADD") == Some(OpDesc(7, OneOp))
  {
    Letters();
  }

  lemma BranchOps()
    ensures Ops("SUB") == Some(OpDesc(8, OneOp))
    ensures Ops("SPU") == Some(OpDesc(9, OneOp))
    ensures Ops("VGL") == Some(OpDesc(10, OneOp))
    ensures Ops("SPB") == Some(OpDesc(11, OneOp))
    ensures Ops("VGR") == Some(OpDesc(12, OneOp))
  {
    Letters();
  }

  lemma ByteOps()
    ensures Ops("VKL") == Some(OpDesc(13, OneOp))
    ensures Ops("UND") == Some(OpDesc(15, OneOp))
  {
    Letters();
  }

  lemma AddressOps()
    ensures Ops("LIA") == Some(OpDesc(19, OneOp))
    ensures Ops("AIS") == Some(OpDesc(20, OneOp))
  {
    Letters();
  }

  lemma JumpOps()
    ensures Ops("SIU") == Some(OpDesc(21, OneOp))
  {
    Letters();
  }

  lemma OneOperandOps(op: string, k: byte)
    requires OneOperand(op, k)
    ensures Ops(op) == Some(OpDesc(k, OneOp))
  {
    hide Ops;
    MoveOps();
    BranchOps();
    ByteOps();
    AddressOps();
    JumpOps();
  }

  lemma NoOperandOps(op: string, k: byte)
    requires NoOperand(op, k)
    ensures Ops(op) == Some(OpDesc(k, NullOp))
  {
    Letters();
  }

  lemma PortOps()
    ensures Ops("P1E") == Some(OpDesc(16, OptOp))
    ensures Ops("P1A") == Some(OpDesc(17, OptOp))
    ensures Ops("P2A") == Some(OpDesc(18, OptOp))
  {
    Letters();
  }

  lemma HighPortOps()
    ensures Ops("P3E") == Some(OpDesc(22, OptOp))
    ensures Ops("P4A") == Some(OpDesc(23, OptOp))
  {
    Letters();
  }

  lemma LastPortOps()
    ensures Ops("P5A") == Some(OpDesc(24, OptOp))
  {
    Letters();
  }

  lemma OptionalOps(op: string, k: byte)
    requires OptionalOperand(op, k)
    ensures Ops(op) == Some(OpDesc(k, OptOp))
  {
    hide Ops;
    PortOps();
    HighPortOps();
    LastPortOps();
  }

  lemma DirectiveOps()
    ensures Ops(".ORG") == Some(OpDesc(0, Org)) && Ops(".DB") == Some(OpDesc(0, Db))
    ensures Ops(".EQU") == Some(OpDesc(0, Equ)) && Ops(".RAW") == Some(OpDesc(0, Raw))
  {
    Letters();
  }

  lemma NoOps(op: string)
    requires !Instruction(op) && !Directive(op)
    ensures Ops(op).None?
  {
  }

  // ----- the lines -----

  lemma ParseReads(s: State, n: nat, t: Token, unknown: bool)
    ensures var (s1, v) := Parse(s, n, t, unknown); Reads(s, n, t, unknown, s1, v)
  {
  }

  lemma EmitAppends(s: State, k: byte, v: byte)
    ensures Appends(s, Emit(s, Word(k, v)), 256 * k + v)
  {
  }

  lemma OnePlaces(s: State, n: nat, k: byte, t: Token)
    ensures Places(s, DoOne(s, n, k, [t]), n, k, t, false)
  {
    hide Parse, Reads, Emit, Word, Appends;
    ParseReads(s, n, t, false);
    var (s1, v) := Parse(s, n, t, false);
    EmitAppends(s1, k, v);
  }

  /** An instruction with an operand: with one parameter the word is the code and the operand's value, with any other number
      nothing is placed. */
  lemma OneOperandLine(s: State, n: nat, op: string, k: byte, params: seq<Token>)
    requires OneOperand(op, k)
    ensures |params| == 1 ==> Places(s, Does(s, n, op, params), n, k, params[0], false)
    ensures |params| != 1 ==> Reports(s, Does(s, n, op, params), ParamCount(n, 1, |params|))
  {
    OneOperandOps(op, k);
    hide Ops, Places, Parse, Word, Emit, OneOperand;
    OpGiven(op, OneOp, k);
    if |params| == 1 {
      OnePlaces(s, n, k, params[0]);
      assert params == [params[0]];
    }
  }

  lemma OpGiven(op: string, h: Handler, k: byte)
    requires Ops(op) == Some(OpDesc(k, h))
    ensures op != ""
  {
  }

  /** An instruction without operand places its code even when parameters are reported. */
  lemma NoOperandLine(s: State, n: nat, op: string, k: byte, params: seq<Token>)
    requires NoOperand(op, k)
    ensures params == [] ==> Appends(s, Does(s, n, op, params), 256 * k)
    ensures params != [] ==> exists r :: Reports(s, r, NoParamsExpected(n)) && Appends(r, Does(s, n, op, params), 256 * k)
  {
    NoOperandOps(op, k);
    OpGiven(op, NullOp, k);
    hide Ops, NoOperand, Word, Emit, Appends;
    var r := if params == [] then s else Fail(s, NoParamsExpected(n));
    EmitAppends(r, k, 0);
    assert params != [] ==> Reports(s, r, NoParamsExpected(n));
  }

  /** An instruction whose operand may be left out, which is then 0. */
  lemma OptionalLine(s: State, n: nat, op: string, k: byte, params: seq<Token>)
    requires OptionalOperand(op, k)
    ensures |params| == 0 ==> Appends(s, Does(s, n, op, params), 256 * k)
    ensures |params| == 1 ==> Places(s, Does(s, n, op, params), n, k, params[0], false)
    ensures |params| > 1 ==> Reports(s, Does(s, n, op, params), ParamCount(n, 1, |params|))
  {
    OptionalOps(op, k);
    OpGiven(op, OptOp, k);
    hide Ops, OptionalOperand, Places, Word, Emit, Appends, Parse;
    if |params| == 0 { EmitAppends(s, k, 0); }
    if |params| == 1 {
      OnePlaces(s, n, k, params[0]);
      assert params == [params[0]];
    }
  }

  /** .ORG moves to its operand: what lies beyond is cut off, what is missing is zero. */
  ghost predicate Moves(s: State, s1: State, n: nat, t: Token) {
    exists r: State, v: byte ::
      && Reads(s, n, t, false, r, v)
      && s1 == r.(pc := v, mem := s1.mem) && |s1.mem| == v
      && forall i :: 0 <= i < v ==> s1.mem[i] == if i < |r.mem| then r.mem[i] else 0
  }

  lemma OrgLine(s: State, n: nat, params: seq<Token>)
    ensures |params| == 1 ==> Moves(s, Does(s, n, ".ORG", params), n, params[0])
    ensures |params| != 1 ==> Reports(s, Does(s, n, ".ORG", params), ParamCount(n, 1, |params|))
  {
    DirectiveOps();
    hide Ops, Parse, Reads;
    if |params| == 1 { ParseReads(s, n, params[0], false); }
  }

  /** .DB places its parameters one after the other; '?' is 0. */
  lemma DbLine(s: State, n: nat, params: seq<Token>, t: Token)
    ensures Does(s, n, ".DB", []) == s
    ensures Places(Does(s, n, ".DB", params), Does(s, n, ".DB", params + [t]), n, 0, t, true)
  {
    DirectiveOps();
    hide Ops, Parse, Reads, Emit, Appends;
    var before := DoDb(s, n, params);
    ParseReads(before, n, t, true);
    var (s1, v) := Parse(before, n, t, true);
    EmitAppends(s1, 0, v);
    assert (params + [t])[..|params|] == params;
  }

  /** .RAW places pairs of bytes and reports what is none. */
  lemma RawLine(s: State, n: nat, params: seq<Token>, t: Token)
    ensures Does(s, n, ".RAW", []) == s
    ensures var before, after := Does(s, n, ".RAW", params), Does(s, n, ".RAW", params + [t]);
            if t.raw.Some? && t.raw.value.0 < 256 && t.raw.value.1 < 256
            then Appends(before, after, 256 * t.raw.value.0 + t.raw.value.1)
            else Reports(before, after, BadRaw(n, t.text))
  {
    DirectiveOps();
    hide Ops, Emit, Appends, Word;
    var before := DoRaw(s, n, params);
    if t.raw.Some? && t.raw.value.0 < 256 && t.raw.value.1 < 256 { EmitAppends(before, t.raw.value.0, t.raw.value.1); }
    assert (params + [t])[..|params|] == params;
  }

  /** .EQU defines a constant, once. */
  ghost predicate Sets(s: State, s1: State, n: nat, name: string, t: Token) {
    exists r: State, v: byte :: Reads(s, n, t, false, r, v) && s1 == r.(consts := r.consts[name := v])
  }

  lemma EquLine(s: State, n: nat, params: seq<Token>)
    ensures |params| != 2 ==> Reports(s, Does(s, n, ".EQU", params), ParamCount(n, 2, |params|))
    ensures |params| == 2 && params[0].text in s.consts ==> Reports(s, Does(s, n, ".EQU", params), NameUsed(n, params[0].text))
    ensures |params| == 2 && params[0].text !in s.consts ==> Sets(s, Does(s, n, ".EQU", params), n, params[0].text, params[1])
  {
    DirectiveOps();
    hide Ops, Parse, Reads;
    if |params| == 2 { ParseReads(s, n, params[1], false); }
  }

  /** No other names are known: these and only these lines are reported for their operation. */
  lemma UnknownLine(s: State, n: nat, op: string)
    requires op != ""
    ensures !Instruction(op) && !Directive(op) <==> Reports(s, Does(s, n, op, []), UnknownMnemonic(n, op))
  {
    hide Ops, Instruction, Directive;
    if !Instruction(op) && !Directive(op) {
      NoOps(op);
    } else {
      SomeOp(op);
      WithoutParams(s, n, Ops(op).value);
      var after := Does(s, n, op, []);
      assert |after.errors| > |s.errors| ==> after.errors[|s.errors|] != UnknownMnemonic(n, op);
      hide Dispatch;
    }
  }

  /** A known operation without parameters is at most reported for their number. */
  lemma WithoutParams(s: State, n: nat, d: OpDesc)
    ensures var r := Dispatch(s, n, d, []);
            || r.errors == s.errors
            || exists k: nat :: r.errors == s.errors + [ParamCount(n, k, 0)]
  {
    hide Emit, Word;
    match d.handler {
      case Org => assert Dispatch(s, n, d, []).errors == s.errors + [ParamCount(n, 1, 0)];
      case OneOp => assert Dispatch(s, n, d, []).errors == s.errors + [ParamCount(n, 1, 0)];
      case Equ => assert Dispatch(s, n, d, []).errors == s.errors + [ParamCount(n, 2, 0)];
      case NullOp => EmitErrors(s, Word(d.opcode, 0));
      case OptOp => EmitErrors(s, Word(d.opcode, 0));
      case _ =>
    }
  }

  lemma EmitErrors(s: State, w: word)
    ensures Emit(s, w).errors == s.errors
  {
  }

  lemma SomeOp(op: string)
    requires Instruction(op) || Directive(op)
    ensures Ops(op).Some?
  {
  }

  lemma UnknownAlways(s: State, n: nat, op: string, params: seq<Token>)
    requires op != "" && !Instruction(op) && !Directive(op)
    ensures Reports(s, Does(s, n, op, params), UnknownMnemonic(n, op))
  {
    hide Ops, Instruction, Directive;
    NoOps(op);
  }

  /** A label is defined before its line is handled: a second definition is reported but counts, every waiting word takes
      the address into its low byte, and nobody waits any more. */
  predicate Defines(s: State, s1: State, name: string) {
    var waiting := if name in s.pending then s.pending[name] else [];
    && |s1.mem| == |s.mem| && s1.pc == s.pc && s1.consts == s.consts
    && (forall i :: 0 <= i < |s.mem| ==> s1.mem[i] == if i in waiting then s.mem[i] / 256 * 256 + s.pc % 256 else s.mem[i])
    && s1.labels == s.labels[name := s.pc] && s1.pending == s.pending - {name}
    && s1.errors == (if name in s.labels then s.errors + [DuplicateLabel(name)] else s.errors)
    && (s1.wild <==> s.wild || exists k :: 0 <= k < |waiting| && waiting[k] >= |s.mem|)
  }

  lemma LabelledLine(s: State, n: nat, line: Line)
    ensures line.name == "" ==> DoLine(s, n, line) == if line.op == "" then s else Does(s, n, line.op, line.params)
    ensures line.name != "" ==>
              exists s1 :: Defines(s, s1, line.name)
                           && DoLine(s, n, line) == if line.op == "" then s1 else Does(s1, n, line.op, line.params)
  {
    hide Ops, Dispatch;
    if line.name != "" { LabelDefines(s, line.name); }
    hide AddLabel;
  }

  lemma LabelDefines(s: State, name: string)
    ensures Defines(s, AddLabel(s, name, s.pc), name)
  {
  }
}
