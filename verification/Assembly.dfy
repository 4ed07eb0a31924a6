/** The one-pass assembler of src/assembler.cpp over tokenised lines, as functions on its state. */
module Assembly {
  import opened Bits
  import opened Wrappers

  /** A trimmed parameter: its text, the integer QString::toInt reads from it (base 16 after a dollar
      sign), and the two numbers the .RAW pattern finds in it. */
  datatype Token = Token(text: string, number: Option<int>, raw: Option<(nat, nat)>)

  /** A source line without its comment; an absent label or mnemonic is the empty string. */
  datatype Line = Line(name: string, op: string, params: seq<Token>)

  datatype Error =
    | DuplicateLabel(name: string)
    | UnresolvedLabel(name: string)
    | ProgramTooLarge
    | ParamCount(line: nat, expected: nat, got: nat)
    | OutOfRange(line: nat, text: string)
    | NameUsed(line: nat, name: string)
    | BadRaw(line: nat, text: string)
    | NoParamsExpected(line: nat)
    | UnknownMnemonic(line: nat, op: string)

  datatype Handler = Org | Db | Equ | Raw | NullOp | OneOp | OptOp

  /** constHandler and addressHandler do the same, so both are OneOp. */
  datatype OpDesc = OpDesc(opcode: byte, handler: Handler)

  function Ops(op: string): Option<OpDesc> {
    if op == ".ORG" then Some(OpDesc(0, Org))
    else if op == ".DB" then Some(OpDesc(0, Db))
    else if op == ".EQU" then Some(OpDesc(0, Equ))
    else if op == ".RAW" then Some(OpDesc(0, Raw))
    else if op == "HLT" then Some(OpDesc(1, NullOp))
    else if op == "ANZ" then Some(OpDesc(2, NullOp))
    else if op == "VZG" then Some(OpDesc(3, OneOp))
    else if op == "AKO" then Some(OpDesc(4, OneOp))
    else if op == "LDA" then Some(OpDesc(5, OneOp))
    else if op == "ABS" then Some(OpDesc(6, OneOp))
    else if op == "ADD" then Some(OpDesc(7, OneOp))
    else if op == "SUB" then Some(OpDesc(8, OneOp))
    else if op == "SPU" then Some(OpDesc(9, OneOp))
    else if op == "VGL" then Some(OpDesc(10, OneOp))
    else if op == "SPB" then Some(OpDesc(11, OneOp))
    else if op == "VGR" then Some(OpDesc(12, OneOp))
    else if op == "VKL" then Some(OpDesc(13, OneOp))
    else if op == "NEG" then Some(OpDesc(14, NullOp))
    else if op == "UND" then Some(OpDesc(15, OneOp))
    else if op == "P1E" then Some(OpDesc(16, OptOp))
    else if op == "P1A" then Some(OpDesc(17, OptOp))
    else if op == "P2A" then Some(OpDesc(18, OptOp))
    else if op == "LIA" then Some(OpDesc(19, OneOp))
    else if op == "AIS" then Some(OpDesc(20, OneOp))
    else if op == "SIU" then Some(OpDesc(21, OneOp))
    else if op == "P3E" then Some(OpDesc(22, OptOp))
    else if op == "P4A" then Some(OpDesc(23, OptOp))
    else if op == "P5A" then Some(OpDesc(24, OptOp))
    else None
  }

  /** wild records that a patch has been aimed outside the word memory, which the source does not check. */
  datatype State = State(
    mem: seq<word>, pc: nat, labels: map<string, nat>, consts: map<string, byte>,
    pending: map<string, seq<nat>>, errors: seq<Error>, wild: bool)

  const EMPTY: State := State([], 0, map[], map[], map[], [], false)

  function Fail(s: State, e: Error): State {
    s.(errors := s.errors + [e])
  }

  function Word(opcode: byte, low: byte): word {
    opcode * 256 + low
  }

  /** memory_[i] & 0xff00 | (0xff & address) at every listed index. */
  function Patched(mem: seq<word>, refs: seq<nat>, address: nat): (p: seq<word>)
    ensures |p| == |mem|
  {
    seq(|mem|, i requires 0 <= i < |mem| => if i in refs then Word(mem[i] / 256, address % 256) else mem[i])
  }

  /** Some index lies outside a memory of n words. */
  predicate Overruns(refs: seq<nat>, n: nat) {
    exists k :: 0 <= k < |refs| && refs[k] >= n
  }

  function RefsOf(s: State, name: string): seq<nat> {
    if name in s.pending then s.pending[name] else []
  }

  function AddLabel(s: State, name: string, address: nat): State {
    var refs := RefsOf(s, name);
    State(Patched(s.mem, refs, address), s.pc, s.labels[name := address], s.consts,
          s.pending - {name},
          if name in s.labels then s.errors + [DuplicateLabel(name)] else s.errors,
          s.wild || Overruns(refs, |s.mem|))
  }

  function AddPending(s: State, name: string, address: nat): State {
    s.(pending := s.pending[name := RefsOf(s, name) + [address]])
  }

  /** The value of an operand, recording a forward reference when it is not known yet. */
  function Parse(s: State, lineNo: nat, t: Token, allowUnknown: bool): (State, byte) {
    if t.number.Some? then
      var i := t.number.value;
      if i < 0 || i > 255 then (Fail(s, OutOfRange(lineNo, t.text)), 0) else (s, i)
    else if allowUnknown && t.text == "?" then (s, 0)
    else if t.text in s.consts then (s, s.consts[t.text])
    else if t.text in s.labels then (s, s.labels[t.text] % 256)
    else (AddPending(s, t.text, s.pc), 0)
  }

  function Emit(s: State, w: word): State {
    s.(mem := s.mem + [w], pc := s.pc + 1)
  }

  function Resized(mem: seq<word>, n: nat): seq<word> {
    if n <= |mem| then mem[..n] else mem + seq(n - |mem|, _ => 0)
  }

  function DoOrg(s: State, lineNo: nat, params: seq<Token>): State {
    if |params| != 1 then Fail(s, ParamCount(lineNo, 1, |params|))
    else
      var (s1, v) := Parse(s, lineNo, params[0], false);
      s1.(pc := v, mem := Resized(s1.mem, v))
  }

  function DoDb(s: State, lineNo: nat, params: seq<Token>): State {
    if params == [] then s
    else
      var n := |params| - 1;
      var (s1, v) := Parse(DoDb(s, lineNo, params[..n]), lineNo, params[n], true);
      Emit(s1, v)
  }

  function DoEqu(s: State, lineNo: nat, params: seq<Token>): State {
    if |params| != 2 then Fail(s, ParamCount(lineNo, 2, |params|))
    else if params[0].text in s.consts then Fail(s, NameUsed(lineNo, params[0].text))
    else
      var (s1, v) := Parse(s, lineNo, params[1], false);
      s1.(consts := s1.consts[params[0].text := v])
  }

  function RawOne(s: State, lineNo: nat, t: Token): State {
    if t.raw.None? || t.raw.value.0 > 255 || t.raw.value.1 > 255 then Fail(s, BadRaw(lineNo, t.text))
    else Emit(s, Word(t.raw.value.0, t.raw.value.1))
  }

  function DoRaw(s: State, lineNo: nat, params: seq<Token>): State {
    if params == [] then s
    else RawOne(DoRaw(s, lineNo, params[..|params| - 1]), lineNo, params[|params| - 1])
  }

  function DoNull(s: State, lineNo: nat, opcode: byte, params: seq<Token>): State {
    Emit(if params == [] then s else Fail(s, NoParamsExpected(lineNo)), Word(opcode, 0))
  }

  function DoOne(s: State, lineNo: nat, opcode: byte, params: seq<Token>): State {
    if |params| != 1 then Fail(s, ParamCount(lineNo, 1, |params|))
    else
      var (s1, v) := Parse(s, lineNo, params[0], false);
      Emit(s1, Word(opcode, v))
  }

  function DoOpt(s: State, lineNo: nat, opcode: byte, params: seq<Token>): State {
    if params == [] then Emit(s, Word(opcode, 0)) else DoOne(s, lineNo, opcode, params)
  }

  function Dispatch(s: State, lineNo: nat, d: OpDesc, params: seq<Token>): State {
    match d.handler
    case Org => DoOrg(s, lineNo, params)
    case Db => DoDb(s, lineNo, params)
    case Equ => DoEqu(s, lineNo, params)
    case Raw => DoRaw(s, lineNo, params)
    case NullOp => DoNull(s, lineNo, d.opcode, params)
    case OneOp => DoOne(s, lineNo, d.opcode, params)
    case OptOp => DoOpt(s, lineNo, d.opcode, params)
  }

  /** The state in which the rest of the line is handled: its label is already defined. */
  function Labelled(s: State, line: Line): State {
    if line.name == "" then s else AddLabel(s, line.name, s.pc)
  }

  function DoLine(s: State, lineNo: nat, line: Line): State {
    var s1 := Labelled(s, line);
    if line.op == "" then s1
    else
      var d := Ops(line.op);
      if d.None? then Fail(s1, UnknownMnemonic(lineNo, line.op)) else Dispatch(s1, lineNo, d.value, line.params)
  }

  /** The state after all lines, numbered from 1. */
  function OnePass(lines: seq<Line>): State {
    if lines == [] then EMPTY
    else DoLine(OnePass(lines[..|lines| - 1]), |lines|, lines[|lines| - 1])
  }

  /** assemble() reports no error. */
  ghost predicate Accepted(lines: seq<Line>) {
    var s := OnePass(lines);
    s.errors == [] && s.pending == map[] && s.pc <= 256
  }
}
