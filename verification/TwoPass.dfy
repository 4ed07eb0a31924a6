/** A two-pass reference assembler, and the proof that the one-pass assembler with back-patching
    computes the same words. */
module TwoPass {
  import opened Bits
  import opened Assembly
  import opened Wrappers

  // ----- the reference: lay out symbolic words, then look every label up in the finished table -----

  datatype Operand = Lit(v: byte) | Ref(name: string)

  datatype Cell = Cell(opcode: byte, operand: Operand)

  datatype Layout = Layout(cells: seq<Cell>, labels: map<string, nat>, consts: map<string, byte>)

  const NOTHING: Layout := Layout([], map[], map[])

  /** The operand of an instruction: a number, a constant defined before, or a label of the program. */
  function OperandOf(l: Layout, t: Token, allowUnknown: bool): Option<Operand> {
    if t.number.Some? then
      if 0 <= t.number.value <= 255 then Some(Lit(t.number.value)) else None
    else if allowUnknown && t.text == "?" then Some(Lit(0))
    else if t.text in l.consts then Some(Lit(l.consts[t.text]))
    else Some(Ref(t.text))
  }

  /** The operand of .ORG and .EQU has to be known at its line. */
  function KnownNow(l: Layout, t: Token): Option<byte> {
    match OperandOf(l, t, false)
    case None => None
    case Some(Lit(v)) => Some(v)
    case Some(Ref(name)) => if name in l.labels then Some(l.labels[name] % 256) else None
  }

  function Place(l: Layout, c: Cell): Layout {
    l.(cells := l.cells + [c])
  }

  function PlaceOne(l: Layout, opcode: byte, t: Token, allowUnknown: bool): Option<Layout> {
    match OperandOf(l, t, allowUnknown)
    case None => None
    case Some(o) => Some(Place(l, Cell(opcode, o)))
  }

  function PlaceBytes(l: Layout, params: seq<Token>): Option<Layout> {
    if params == [] then Some(l)
    else
      match PlaceBytes(l, params[..|params| - 1])
      case None => None
      case Some(l1) => PlaceOne(l1, 0, params[|params| - 1], true)
  }

  function PlaceRaw(l: Layout, params: seq<Token>): Option<Layout> {
    if params == [] then Some(l)
    else
      match PlaceRaw(l, params[..|params| - 1])
      case None => None
      case Some(l1) =>
        var t := params[|params| - 1];
        if t.raw.None? || t.raw.value.0 > 255 || t.raw.value.1 > 255 then None
        else Some(Place(l1, Cell(t.raw.value.0, Lit(t.raw.value.1))))
  }

  function Origin(l: Layout, v: byte): Layout {
    l.(cells := if v <= |l.cells| then l.cells[..v]
                else l.cells + seq(v - |l.cells|, _ => Cell(0, Lit(0))))
  }

  function PlaceOp(l: Layout, d: OpDesc, params: seq<Token>): Option<Layout> {
    match d.handler
    case Org =>
      if |params| != 1 || KnownNow(l, params[0]).None? then None
      else Some(Origin(l, KnownNow(l, params[0]).value))
    case Equ =>
      if |params| != 2 || params[0].text in l.consts || KnownNow(l, params[1]).None? then None
      else Some(l.(consts := l.consts[params[0].text := KnownNow(l, params[1]).value]))
    case Db => PlaceBytes(l, params)
    case Raw => PlaceRaw(l, params)
    case NullOp => if params == [] then Some(Place(l, Cell(d.opcode, Lit(0)))) else None
    case OneOp => if |params| == 1 then PlaceOne(l, d.opcode, params[0], false) else None
    case OptOp =>
      if params == [] then Some(Place(l, Cell(d.opcode, Lit(0))))
      else if |params| == 1 then PlaceOne(l, d.opcode, params[0], false) else None
  }

  /** A label names the address of the next word and may be defined once. */
  function PlaceLabel(l: Layout, name: string): Option<Layout> {
    if name == "" then Some(l)
    else if name in l.labels then None
    else Some(l.(labels := l.labels[name := |l.cells|]))
  }

  function PlaceLine(l: Layout, line: Line): Option<Layout> {
    match PlaceLabel(l, line.name)
    case None => None
    case Some(l1) =>
      if line.op == "" then Some(l1)
      else if Ops(line.op).None? then None
      else PlaceOp(l1, Ops(line.op).value, line.params)
  }

  /** First pass: sizes and symbols. */
  function LayOut(lines: seq<Line>): Option<Layout> {
    if lines == [] then Some(NOTHING)
    else
      match LayOut(lines[..|lines| - 1])
      case None => None
      case Some(l) => PlaceLine(l, lines[|lines| - 1])
  }

  predicate Resolvable(c: Cell, labels: map<string, nat>) {
    c.operand.Ref? ==> c.operand.name in labels
  }

  function CellWord(c: Cell, labels: map<string, nat>): word
    requires Resolvable(c, labels)
  {
    match c.operand
    case Lit(v) => Word(c.opcode, v)
    case Ref(name) => Word(c.opcode, labels[name] % 256)
  }

  /** Second pass: every word with its label looked up in the complete table. */
  function Assembled(l: Layout): Option<seq<word>> {
    if |l.cells| <= 256 && forall i :: 0 <= i < |l.cells| ==> Resolvable(l.cells[i], l.labels) then
      Some(seq(|l.cells|, i requires 0 <= i < |l.cells| => CellWord(l.cells[i], l.labels)))
    else None
  }

  function TwoPasses(lines: seq<Line>): Option<seq<word>> {
    match LayOut(lines)
    case None => None
    case Some(l) => Assembled(l)
  }

  // ----- conditions a programmer can check line by line -----

  /** The .ORG or .EQU on this line, if any, has an operand that is known here. */
  predicate KnownOperand(s: State, line: Line) {
    var s1 := Labelled(s, line);
    var known := (t: Token) => t.number.Some? || t.text in s1.consts || t.text in s1.labels;
    line.op != "" && Ops(line.op).Some? ==>
      match Ops(line.op).value.handler
      case Org => |line.params| == 1 ==> known(line.params[0])
      case Equ => |line.params| == 2 && line.params[0].text !in s1.consts ==> known(line.params[1])
      case _ => true
  }

  ghost predicate AllKnown(lines: seq<Line>) {
    lines != [] ==>
      AllKnown(lines[..|lines| - 1]) && KnownOperand(OnePass(lines[..|lines| - 1]), lines[|lines| - 1])
  }

  /** Defining the label of line i patches word k. */
  ghost predicate PatchesAt(lines: seq<Line>, i: nat, k: nat) {
    i < |lines| && lines[i].name != "" && k in RefsOf(OnePass(lines[..i]), lines[i].name)
  }

  /** The patch aims outside the word memory. */
  ghost predicate AimsOutside(lines: seq<Line>, i: nat, k: nat) {
    PatchesAt(lines, i, k) && k >= |OnePass(lines[..i]).mem|
  }

  /** The guard the source leaves out: the patched word exists and refers to the label. */
  ghost predicate OwnPatch(lines: seq<Line>, i: nat, k: nat)
    requires i < |lines| && LayOut(lines[..i]).Some?
  {
    var cells := LayOut(lines[..i]).value.cells;
    k < |cells| && cells[k].operand == Ref(lines[i].name)
  }

  ghost predicate OwnPatches(lines: seq<Line>) {
    forall i: nat, k: nat :: PatchesAt(lines, i, k) && LayOut(lines[..i]).Some? ==> OwnPatch(lines, i, k)
  }

  /** A backward .ORG on this line does not cut off a word that still waits for its label. */
  ghost predicate KeepsPending(s: State, lineNo: nat, line: Line) {
    Below(Labelled(s, line), DoLine(s, lineNo, line).pc)
  }

  ghost predicate NothingCut(lines: seq<Line>) {
    lines != [] ==>
      NothingCut(lines[..|lines| - 1]) && KeepsPending(OnePass(lines[..|lines| - 1]), |lines|, lines[|lines| - 1])
  }

  // ----- which words a stray patch leaves wrong, computed without looking at the memory -----

  /** The operand a word should have now; a label that is not defined yet counts as 0. */
  function Low(c: Cell, labels: map<string, nat>): byte {
    match c.operand
    case Lit(v) => v
    case Ref(name) => if name in labels then labels[name] % 256 else 0
  }

  /** Word i is wrong once the label of the line is defined: a patched word holds the label's address, any
      other word stays as it was. */
  predicate WrongNow(s: State, l: Layout, name: string, wrong: set<nat>, i: nat)
    requires i < |l.cells|
  {
    if i in RefsOf(s, name) then Low(l.cells[i], l.labels[name := |l.cells|]) != |l.cells| % 256 else i in wrong
  }

  function WrongAfter(s: State, l: Layout, name: string, wrong: set<nat>): set<nat> {
    if name == "" then wrong else set i | 0 <= i < |l.cells| && WrongNow(s, l, name, wrong, i)
  }

  function Cut(wrong: set<nat>, n: nat): set<nat> {
    set i | i in wrong && i < n
  }

  /** The words with a wrong operand after all lines: the label of the last line patches, then its .ORG cuts. */
  function Damaged(lines: seq<Line>): set<nat> {
    if lines == [] || LayOut(lines).None? then {}
    else
      var n := |lines| - 1;
      var before := lines[..n];
      Cut(WrongAfter(OnePass(before), LayOut(before).value, lines[n].name, Damaged(before)), |LayOut(lines).value.cells|)
  }

  // ----- the simulation between word memory with patch lists and symbolic cells -----

  /** Word i of the memory stands for cell c, with the right operand unless it is wrong; while its label is
      missing it waits in the label's list. */
  ghost predicate Stands(s: State, i: nat, c: Cell, wrong: set<nat>)
    requires i < |s.mem|
  {
    && s.mem[i] / 256 == c.opcode
    && (s.mem[i] % 256 == Low(c, s.labels) <==> i !in wrong)
    && (c.operand.Ref? && c.operand.name !in s.labels ==>
          c.operand.name in s.pending && i in s.pending[c.operand.name])
  }

  ghost predicate Simulates(s: State, l: Layout, wrong: set<nat>) {
    && s.errors == []
    && s.pc == |s.mem| == |l.cells|
    && s.labels == l.labels && s.consts == l.consts
    && (forall i :: 0 <= i < |l.cells| ==> Stands(s, i, l.cells[i], wrong))
    && (forall i :: i in wrong ==> i < |l.cells|)
    && (forall name :: name in s.pending ==> name !in s.labels)
  }

  /** A patch list holds only positions that refer to its name. */
  ghost predicate ListFits(s: State, cells: seq<Cell>, name: string)
    requires name in s.pending
  {
    forall i :: i in s.pending[name] ==> i < |cells| && cells[i].operand == Ref(name)
  }

  ghost predicate ListsFit(s: State, l: Layout) {
    forall name :: name in s.pending ==> ListFits(s, l.cells, name)
  }

  ghost predicate Below(s: State, n: nat) {
    forall name, k :: name in s.pending && k in s.pending[name] ==> k < n
  }

  lemma WordParts(opcode: byte, v: byte)
    ensures Word(opcode, v) / 256 == opcode && Word(opcode, v) % 256 == v
  {
  }

  /** Defining a new label patches the words in its list, which should refer to it. */
  lemma LabelSimulates(s: State, l: Layout, wrong: set<nat>, name: string)
    requires Simulates(s, l, wrong) && name !in l.labels && name != ""
    ensures Simulates(AddLabel(s, name, s.pc), l.(labels := l.labels[name := |l.cells|]), WrongAfter(s, l, name, wrong))
  {
    hide Word;
    var s', l' := AddLabel(s, name, s.pc), l.(labels := l.labels[name := |l.cells|]);
    var wrong' := WrongAfter(s, l, name, wrong);
    forall i | 0 <= i < |l.cells| ensures Stands(s', i, l'.cells[i], wrong') {
      assert Stands(s, i, l.cells[i], wrong);
      assert i in wrong' <==> WrongNow(s, l, name, wrong, i);
      WordParts(s.mem[i] / 256, |l.cells| % 256);
    }
  }

  lemma LabelKeepsLists(s: State, l: Layout, name: string)
    requires ListsFit(s, l)
    ensures ListsFit(AddLabel(s, name, s.pc), l.(labels := l.labels[name := |l.cells|]))
  {
    hide Patched;
    var s' := AddLabel(s, name, s.pc);
    forall other | other in s'.pending ensures ListFits(s', l.cells, other) {
      assert ListFits(s, l.cells, other);
    }
  }

  /** Parsing agrees with the symbolic operand, up to the patch list entry for the word about to be placed. */
  lemma ParseSimulates(s: State, l: Layout, wrong: set<nat>, lineNo: nat, t: Token, allowUnknown: bool,
                                          opcode: byte)
    requires Simulates(s, l, wrong)
    ensures var ((s1, v), o) := (Parse(s, lineNo, t, allowUnknown), OperandOf(l, t, allowUnknown));
            && (o.None? ==> s1.errors != [])
            && (o.Some? ==> Simulates(Emit(s1, Word(opcode, v)), Place(l, Cell(opcode, o.value)), wrong))
  {
    hide Word;
    if OperandOf(l, t, allowUnknown).Some? {
      EmitSimulates(s, l, wrong, t, opcode, OperandOf(l, t, allowUnknown).value, lineNo, allowUnknown);
    }
  }

  lemma EmitSimulates(s: State, l: Layout, wrong: set<nat>, t: Token, opcode: byte, o: Operand,
                                         lineNo: nat, allowUnknown: bool)
    requires Simulates(s, l, wrong) && OperandOf(l, t, allowUnknown) == Some(o)
    ensures var (s1, v) := Parse(s, lineNo, t, allowUnknown);
            Simulates(Emit(s1, Word(opcode, v)), Place(l, Cell(opcode, o)), wrong)
  {
    hide Word;
    var (s1, v) := Parse(s, lineNo, t, allowUnknown);
    var s', l' := Emit(s1, Word(opcode, v)), Place(l, Cell(opcode, o));
    WordParts(opcode, v);
    forall i | 0 <= i < |l'.cells| ensures Stands(s', i, l'.cells[i], wrong) {
      if i < |l.cells| {
        assert Stands(s, i, l.cells[i], wrong);
      } else if s1 != s {
        assert s1.pending[t.text][|RefsOf(s, t.text)|] == i;
      }
    }
  }

  lemma EmitKeepsLists(s: State, l: Layout, t: Token, opcode: byte, lineNo: nat, allowUnknown: bool)
    requires s.consts == l.consts && s.labels == l.labels && s.pc == |l.cells| && ListsFit(s, l)
    ensures var ((s1, v), o) := (Parse(s, lineNo, t, allowUnknown), OperandOf(l, t, allowUnknown));
            o.Some? ==> ListsFit(Emit(s1, Word(opcode, v)), Place(l, Cell(opcode, o.value)))
  {
    hide Word;
    var (s1, v) := Parse(s, lineNo, t, allowUnknown);
    if OperandOf(l, t, allowUnknown).Some? {
      var s', l' := Emit(s1, Word(opcode, v)), Place(l, Cell(opcode, OperandOf(l, t, allowUnknown).value));
      forall name | name in s'.pending ensures ListFits(s', l'.cells, name) {
        if name in s.pending { assert ListFits(s, l.cells, name); }
      }
    }
  }

  /** A word without a reference. */
  lemma LiteralSimulates(s: State, l: Layout, wrong: set<nat>, opcode: byte, v: byte)
    requires Simulates(s, l, wrong)
    ensures Simulates(Emit(s, Word(opcode, v)), Place(l, Cell(opcode, Lit(v))), wrong)
    ensures ListsFit(s, l) ==> ListsFit(Emit(s, Word(opcode, v)), Place(l, Cell(opcode, Lit(v))))
  {
    hide Word;
    var s', l' := Emit(s, Word(opcode, v)), Place(l, Cell(opcode, Lit(v)));
    WordParts(opcode, v);
    forall i | 0 <= i < |l'.cells| ensures Stands(s', i, l'.cells[i], wrong) {
      if i < |l.cells| { assert Stands(s, i, l.cells[i], wrong); }
    }
    forall name | name in s'.pending && ListsFit(s, l) ensures ListFits(s', l'.cells, name) {
      assert ListFits(s, l.cells, name);
    }
  }

  /** Errors are never taken back. */
  lemma ParseKeepsErrors(s: State, lineNo: nat, t: Token, allowUnknown: bool)
    ensures s.errors <= Parse(s, lineNo, t, allowUnknown).0.errors
  {
  }

  lemma {:induction false} DbKeepsErrors(s: State, lineNo: nat, params: seq<Token>)
    ensures s.errors <= DoDb(s, lineNo, params).errors
  {
    hide Parse;
    if params != [] {
      var n := |params| - 1;
      DbKeepsErrors(s, lineNo, params[..n]);
      ParseKeepsErrors(DoDb(s, lineNo, params[..n]), lineNo, params[n], true);
    }
  }

  lemma {:induction false} RawKeepsErrors(s: State, lineNo: nat, params: seq<Token>)
    ensures s.errors <= DoRaw(s, lineNo, params).errors
  {
    hide Word;
    if params != [] {
      RawKeepsErrors(s, lineNo, params[..|params| - 1]);
    }
  }

  lemma {:induction false} DbSimulates(s: State, l: Layout, wrong: set<nat>, lineNo: nat, params: seq<Token>)
    requires Simulates(s, l, wrong)
    ensures var (s', l') := (DoDb(s, lineNo, params), PlaceBytes(l, params));
            && (l'.None? ==> s'.errors != [])
            && (l'.Some? ==> Simulates(s', l'.value, wrong) && (ListsFit(s, l) ==> ListsFit(s', l'.value)))
  {
    hide Simulates, ListsFit, Parse;
    if params != [] {
      var n := |params| - 1;
      DbSimulates(s, l, wrong, lineNo, params[..n]);
      var s1 := DoDb(s, lineNo, params[..n]);
      ParseKeepsErrors(s1, lineNo, params[n], true);
      if PlaceBytes(l, params[..n]).Some? {
        var l1 := PlaceBytes(l, params[..n]).value;
        ParseSimulates(s1, l1, wrong, lineNo, params[n], true, 0);
        SameTables(s1, l1, wrong);
        if ListsFit(s, l) { EmitKeepsLists(s1, l1, params[n], 0, lineNo, true); }
      }
    }
  }

  lemma {:induction false} RawSimulates(s: State, l: Layout, wrong: set<nat>, lineNo: nat, params: seq<Token>)
    requires Simulates(s, l, wrong)
    ensures var (s', l') := (DoRaw(s, lineNo, params), PlaceRaw(l, params));
            && (l'.None? ==> s'.errors != [])
            && (l'.Some? ==> Simulates(s', l'.value, wrong) && (ListsFit(s, l) ==> ListsFit(s', l'.value)))
  {
    hide Simulates, ListsFit, Word;
    if params != [] {
      var n := |params| - 1;
      var t := params[n];
      RawSimulates(s, l, wrong, lineNo, params[..n]);
      if PlaceRaw(l, params[..n]).Some? && t.raw.Some? && t.raw.value.0 <= 255 && t.raw.value.1 <= 255 {
        LiteralSimulates(DoRaw(s, lineNo, params[..n]), PlaceRaw(l, params[..n]).value, wrong,
                         t.raw.value.0, t.raw.value.1);
      }
    }
  }

  lemma OrgSimulates(s: State, l: Layout, wrong: set<nat>, v: byte)
    requires Simulates(s, l, wrong)
    ensures Simulates(s.(pc := v, mem := Resized(s.mem, v)), Origin(l, v), Cut(wrong, v))
  {
    var s', l' := s.(pc := v, mem := Resized(s.mem, v)), Origin(l, v);
    forall i | 0 <= i < |l'.cells| ensures Stands(s', i, l'.cells[i], Cut(wrong, v)) {
      if i < |l.cells| {
        assert Stands(s, i, l.cells[i], wrong);
        assert l'.cells[i] == l.cells[i] && s'.mem[i] == s.mem[i];
      } else {
        assert l'.cells[i] == Cell(0, Lit(0)) && s'.mem[i] == 0;
      }
    }
  }

  lemma OrgKeepsLists(s: State, l: Layout, v: byte)
    requires ListsFit(s, l) && Below(s, v)
    ensures ListsFit(s.(pc := v, mem := Resized(s.mem, v)), Origin(l, v))
  {
    hide Resized;
    var l' := Origin(l, v);
    forall name | name in s.pending
      ensures forall i :: i in s.pending[name] ==> i < |l'.cells| && l'.cells[i].operand == Ref(name)
    {
      assert ListFits(s, l.cells, name);
    }
  }

  lemma EquSimulates(s: State, l: Layout, wrong: set<nat>, name: string, v: byte)
    requires Simulates(s, l, wrong)
    ensures var (s', l') := (s.(consts := s.consts[name := v]), l.(consts := l.consts[name := v]));
            Simulates(s', l', wrong) && (ListsFit(s, l) ==> ListsFit(s', l'))
  {
    var s' := s.(consts := s.consts[name := v]);
    forall i | 0 <= i < |l.cells| ensures Stands(s', i, l.cells[i], wrong) {
      assert Stands(s, i, l.cells[i], wrong);
    }
    forall other | other in s.pending && ListsFit(s, l) ensures ListFits(s', l.cells, other) {
      assert ListFits(s, l.cells, other);
    }
  }

  /** An operand known at its line is parsed to its value and leaves the state alone. */
  lemma KnownParse(s: State, l: Layout, wrong: set<nat>, lineNo: nat, t: Token)
    requires Simulates(s, l, wrong)
    requires t.number.Some? || t.text in s.consts || t.text in s.labels
    ensures var (s1, v) := Parse(s, lineNo, t, false);
            && (KnownNow(l, t).None? ==> s1.errors != [])
            && (KnownNow(l, t).Some? ==> s1 == s && v == KnownNow(l, t).value)
  {
  }

  /** An operand that is not known at its line is refused by the reference. */
  lemma UnknownRefused(s: State, l: Layout, wrong: set<nat>, t: Token)
    requires Simulates(s, l, wrong)
    requires !(t.number.Some? || t.text in s.consts || t.text in s.labels)
    ensures KnownNow(l, t).None?
  {
  }

  /** The handler's operand is known. */
  predicate Known(s: State, d: OpDesc, params: seq<Token>) {
    var known := (t: Token) => t.number.Some? || t.text in s.consts || t.text in s.labels;
    match d.handler
    case Org => |params| == 1 ==> known(params[0])
    case Equ => |params| == 2 && params[0].text !in s.consts ==> known(params[1])
    case _ => true
  }

  lemma OrgOp(s: State, l: Layout, wrong: set<nat>, lineNo: nat, params: seq<Token>)
    requires Simulates(s, l, wrong)
    ensures var (s', p) := (DoOrg(s, lineNo, params), PlaceOp(l, OpDesc(0, Org), params));
            && (p.None? ==> s'.errors != [] || !Known(s, OpDesc(0, Org), params))
            && (p.Some? ==> Known(s, OpDesc(0, Org), params) && Simulates(s', p.value, Cut(wrong, |p.value.cells|)))
            && (p.Some? && ListsFit(s, l) && Below(s, s'.pc) ==> ListsFit(s', p.value))
  {
    hide Simulates, ListsFit, Below, KnownNow, Parse, Resized, Cut;
    if |params| == 1 {
      if Known(s, OpDesc(0, Org), params) {
        KnownParse(s, l, wrong, lineNo, params[0]);
        ParseKeepsErrors(s, lineNo, params[0], false);
        if KnownNow(l, params[0]).Some? {
          var v := KnownNow(l, params[0]).value;
          OrgSimulates(s, l, wrong, v);
          if ListsFit(s, l) && Below(s, v) { OrgKeepsLists(s, l, v); }
        }
      } else {
        UnknownRefused(s, l, wrong, params[0]);
      }
    }
  }

  lemma EquOp(s: State, l: Layout, wrong: set<nat>, lineNo: nat, params: seq<Token>)
    requires Simulates(s, l, wrong)
    ensures var (s', p) := (DoEqu(s, lineNo, params), PlaceOp(l, OpDesc(0, Equ), params));
            && (p.None? ==> s'.errors != [] || !Known(s, OpDesc(0, Equ), params))
            && (p.Some? ==> Known(s, OpDesc(0, Equ), params) && Simulates(s', p.value, wrong))
            && (p.Some? && ListsFit(s, l) ==> ListsFit(s', p.value))
  {
    SameTables(s, l, wrong);
    hide Simulates, ListsFit, KnownNow, Parse;
    if |params| == 2 && params[0].text !in s.consts {
      if Known(s, OpDesc(0, Equ), params) {
        KnownParse(s, l, wrong, lineNo, params[1]);
        if KnownNow(l, params[1]).Some? {
          EquSimulates(s, l, wrong, params[0].text, KnownNow(l, params[1]).value);
        }
      } else {
        UnknownRefused(s, l, wrong, params[1]);
      }
    }
  }

  lemma SameTables(s: State, l: Layout, wrong: set<nat>)
    requires Simulates(s, l, wrong)
    ensures s.consts == l.consts && s.labels == l.labels && s.errors == [] && s.pc == |l.cells| == |s.mem|
    ensures Cut(wrong, |l.cells|) == wrong
  {
  }

  lemma OneSimulates(s: State, l: Layout, wrong: set<nat>, lineNo: nat, t: Token, opcode: byte)
    requires Simulates(s, l, wrong)
    ensures var (s', p) := (DoOne(s, lineNo, opcode, [t]), PlaceOne(l, opcode, t, false));
            && (p.None? ==> s'.errors != [])
            && (p.Some? ==> Simulates(s', p.value, wrong) && (ListsFit(s, l) ==> ListsFit(s', p.value)))
  {
    SameTables(s, l, wrong);
    hide Simulates, ListsFit, Parse, Word;
    ParseSimulates(s, l, wrong, lineNo, t, false, opcode);
    if ListsFit(s, l) { EmitKeepsLists(s, l, t, opcode, lineNo, false); }
  }

  lemma DispatchSimulates(s: State, l: Layout, wrong: set<nat>, lineNo: nat, d: OpDesc, params: seq<Token>)
    requires Simulates(s, l, wrong)
    ensures var (s', p) := (Dispatch(s, lineNo, d, params), PlaceOp(l, d, params));
            && (p.None? ==> s'.errors != [] || !Known(s, d, params))
            && (p.Some? ==> Known(s, d, params) && Simulates(s', p.value, Cut(wrong, |p.value.cells|)))
            && (p.Some? && ListsFit(s, l) && Below(s, s'.pc) ==> ListsFit(s', p.value))
  {
    hide Simulates, ListsFit, Below, DoOrg, DoEqu, DoDb, DoRaw, Parse, OperandOf, KnownNow, PlaceBytes, PlaceRaw, PlaceOne,
         Word, Origin, Cut;
    if |params| == 1 {
      assert params == [params[0]];
      OneSimulates(s, l, wrong, lineNo, params[0], d.opcode);
    }
    match d.handler {
      case Org => OrgOp(s, l, wrong, lineNo, params);
      case Equ => EquOp(s, l, wrong, lineNo, params);
      case Db => DbSimulates(s, l, wrong, lineNo, params);
      case Raw => RawSimulates(s, l, wrong, lineNo, params);
      case NullOp => LiteralSimulates(s, l, wrong, d.opcode, 0);
      case OneOp =>
      case OptOp => LiteralSimulates(s, l, wrong, d.opcode, 0);
    }
    if d.handler != Org && PlaceOp(l, d, params).Some? {
      SameTables(Dispatch(s, lineNo, d, params), PlaceOp(l, d, params).value, wrong);
    }
  }

  lemma DirectivesKeepErrors(s: State, lineNo: nat, params: seq<Token>)
    ensures s.errors <= DoOrg(s, lineNo, params).errors && s.errors <= DoEqu(s, lineNo, params).errors
  {
    hide Parse, Resized;
    if |params| == 1 { ParseKeepsErrors(s, lineNo, params[0], false); }
    if |params| == 2 { ParseKeepsErrors(s, lineNo, params[1], false); }
  }

  lemma OneKeepsErrors(s: State, lineNo: nat, opcode: byte, params: seq<Token>)
    ensures s.errors <= DoOne(s, lineNo, opcode, params).errors && s.errors <= DoOpt(s, lineNo, opcode, params).errors
    ensures s.errors <= DoNull(s, lineNo, opcode, params).errors
  {
    hide Parse, Word;
    if |params| == 1 { ParseKeepsErrors(s, lineNo, params[0], false); }
  }

  lemma DispatchKeepsErrors(s: State, lineNo: nat, d: OpDesc, params: seq<Token>)
    ensures s.errors <= Dispatch(s, lineNo, d, params).errors
  {
    hide DoDb, DoRaw, DoOrg, DoEqu, DoOne, DoOpt, DoNull;
    DbKeepsErrors(s, lineNo, params);
    RawKeepsErrors(s, lineNo, params);
    DirectivesKeepErrors(s, lineNo, params);
    OneKeepsErrors(s, lineNo, d.opcode, params);
  }

  lemma LineKeepsErrors(s: State, lineNo: nat, line: Line)
    ensures s.errors <= DoLine(s, lineNo, line).errors
    ensures Labelled(s, line).errors <= DoLine(s, lineNo, line).errors
  {
    hide Dispatch, Ops, Patched;
    if line.op != "" && Ops(line.op).Some? {
      DispatchKeepsErrors(Labelled(s, line), lineNo, Ops(line.op).value, line.params);
    }
  }

  /** One line: the reference accepts it exactly when the one-pass assembler reports nothing and knows
      the .ORG or .EQU operand, and then the simulation continues. */
  lemma LineSimulates(s: State, l: Layout, wrong: set<nat>, lineNo: nat, line: Line)
    requires Simulates(s, l, wrong)
    ensures var (s', p) := (DoLine(s, lineNo, line), PlaceLine(l, line));
            && (p.Some? <==> s'.errors == [] && KnownOperand(s, line))
            && (p.Some? ==> Simulates(s', p.value, Cut(WrongAfter(s, l, line.name, wrong), |p.value.cells|)))
            && (p.Some? && ListsFit(s, l) && KeepsPending(s, lineNo, line) ==> ListsFit(s', p.value))
  {
    SameTables(s, l, wrong);
    hide Simulates, ListsFit, Below, Dispatch, PlaceOp, Ops, Patched, Cut;
    LineKeepsErrors(s, lineNo, line);
    if PlaceLabel(l, line.name).Some? {
      var s1, l1, wrong1 := Labelled(s, line), PlaceLabel(l, line.name).value, WrongAfter(s, l, line.name, wrong);
      if line.name != "" {
        LabelSimulates(s, l, wrong, line.name);
        if ListsFit(s, l) { LabelKeepsLists(s, l, line.name); }
      }
      hide WrongAfter;
      SameTables(s1, l1, wrong1);
      if line.op != "" && Ops(line.op).Some? {
        DispatchSimulates(s1, l1, wrong1, lineNo, Ops(line.op).value, line.params);
        assert KnownOperand(s, line) <==> Known(s1, Ops(line.op).value, line.params);
        NoErrorsIn(Dispatch(s1, lineNo, Ops(line.op).value, line.params), PlaceOp(l1, Ops(line.op).value, line.params));
      }
    }
  }

  lemma NoErrorsIn(s: State, l: Option<Layout>)
    ensures forall wrong :: l.Some? && Simulates(s, l.value, wrong) ==> s.errors == []
  {
  }

  /** For every program: the reference can lay it out exactly when no line is reported and every .ORG and .EQU
      operand is known at its line, and then every word is the laid-out one, except for the damaged operands. */
  lemma {:induction false} RunSimulates(lines: seq<Line>)
    ensures LayOut(lines).Some? <==> OnePass(lines).errors == [] && AllKnown(lines)
    ensures LayOut(lines).Some? ==> Simulates(OnePass(lines), LayOut(lines).value, Damaged(lines))
    ensures LayOut(lines).Some? && NothingCut(lines) ==> ListsFit(OnePass(lines), LayOut(lines).value)
  {
    hide Simulates, ListsFit, DoLine, PlaceLine, KnownOperand, KeepsPending, WrongAfter, Cut;
    if lines == [] {
      EmptySimulates();
    } else {
      var n := |lines| - 1;
      var before := lines[..n];
      RunSimulates(before);
      LineKeepsErrors(OnePass(before), |lines|, lines[n]);
      if LayOut(before).Some? {
        LineSimulates(OnePass(before), LayOut(before).value, Damaged(before), |lines|, lines[n]);
      }
    }
  }

  lemma EmptySimulates()
    ensures Simulates(EMPTY, NOTHING, {}) && ListsFit(EMPTY, NOTHING)
  {
  }

  /** With no reference pending every word has its final operand, unless it is wrong; a name that still waits is
      undefined. */
  lemma FinalWords(s: State, l: Layout, wrong: set<nat>)
    requires Simulates(s, l, wrong)
    ensures s.pending == map[] && s.pc <= 256 ==> Assembled(l).Some? && (Assembled(l) == Some(s.mem) <==> wrong == {})
    ensures Assembled(l).Some? ==> s.pc <= 256 && forall i, name :: 0 <= i < |l.cells| && name in s.pending ==>
                                     l.cells[i].operand != Ref(name)
  {
    if s.pending == map[] {
      forall i | 0 <= i < |l.cells| ensures Resolvable(l.cells[i], l.labels) {
        assert Stands(s, i, l.cells[i], wrong);
      }
      if s.pc <= 256 { SameWords(s, l, wrong); }
    }
  }

  lemma SameWords(s: State, l: Layout, wrong: set<nat>)
    requires Simulates(s, l, wrong) && Assembled(l).Some?
    ensures Assembled(l) == Some(s.mem) <==> wrong == {}
  {
    var words := Assembled(l).value;
    forall i | 0 <= i < |l.cells| ensures words[i] == s.mem[i] <==> i !in wrong {
      assert Stands(s, i, l.cells[i], wrong);
      WordParts(l.cells[i].opcode, Low(l.cells[i], l.labels));
    }
    if wrong == {} {
      assert words == s.mem;
    } else {
      var i :| i in wrong;
      assert words[i] != s.mem[i];
    }
  }

  /** Main theorem, for every program: the one-pass assembler accepts it with every .ORG and .EQU operand known
      at its line exactly when the two-pass assembler accepts it and no reference is left waiting; and then both
      produce the same words exactly when no operand is damaged. */
  lemma {:induction false} OnePassIsTwoPass(lines: seq<Line>)
    ensures Accepted(lines) && AllKnown(lines) <==> TwoPasses(lines).Some? && OnePass(lines).pending == map[]
    ensures Accepted(lines) && AllKnown(lines) ==> (TwoPasses(lines) == Some(OnePass(lines).mem) <==> Damaged(lines) == {})
  {
    RunSimulates(lines);
    hide Simulates, AllKnown, Damaged, LayOut, OnePass, Assembled;
    if LayOut(lines).Some? {
      SameTables(OnePass(lines), LayOut(lines).value, Damaged(lines));
      FinalWords(OnePass(lines), LayOut(lines).value, Damaged(lines));
    }
  }

  /** A reference left waiting in a program of the two-pass assembler: its word was cut off and no word refers
      to it, and yet it is reported as unresolved. */
  lemma {:induction false} LeftWaiting(lines: seq<Line>, name: string)
    requires TwoPasses(lines).Some? && name in OnePass(lines).pending
    ensures !Accepted(lines) && name !in LayOut(lines).value.labels
    ensures forall c :: c in LayOut(lines).value.cells ==> c.operand != Ref(name)
  {
    RunSimulates(lines);
    FinalWords(OnePass(lines), LayOut(lines).value, Damaged(lines));
  }

  // ----- the guard the source leaves out -----

  /** A patch outside the memory happens exactly when a label is defined whose list holds such an index. */
  lemma {:induction false} WildIff(lines: seq<Line>)
    ensures OnePass(lines).wild <==> exists i: nat, k: nat :: AimsOutside(lines, i, k)
  {
    hide Dispatch, Ops, Patched;
    if lines != [] {
      var n := |lines| - 1;
      var before, s := lines[..n], OnePass(lines[..n]);
      WildIff(before);
      forall i: nat, k: nat | i < n ensures AimsOutside(lines, i, k) <==> AimsOutside(before, i, k) {
        assert lines[..i] == before[..i];
      }
      if lines[n].op != "" && Ops(lines[n].op).Some? {
        DispatchKeepsWild(Labelled(s, lines[n]), |lines|, Ops(lines[n].op).value, lines[n].params);
      }
      assert Labelled(s, lines[n]).wild <==> s.wild || exists k: nat :: AimsOutside(lines, n, k) by {
        OverrunsIs(RefsOf(s, lines[n].name), |s.mem|);
        assert forall k: nat :: AimsOutside(lines, n, k) <==>
                             lines[n].name != "" && k in RefsOf(s, lines[n].name) && k >= |s.mem|;
      }
    }
  }

  lemma OverrunsIs(refs: seq<nat>, n: nat)
    ensures Overruns(refs, n) <==> exists k :: k in refs && k >= n
  {
    if Overruns(refs, n) {
      var j :| 0 <= j < |refs| && refs[j] >= n;
      assert refs[j] in refs;
    }
  }

  lemma {:induction false} DbKeepsWild(s: State, lineNo: nat, params: seq<Token>)
    ensures DoDb(s, lineNo, params).wild == s.wild
  {
    if params != [] { DbKeepsWild(s, lineNo, params[..|params| - 1]); }
  }

  lemma {:induction false} RawKeepsWild(s: State, lineNo: nat, params: seq<Token>)
    ensures DoRaw(s, lineNo, params).wild == s.wild
  {
    hide Word;
    if params != [] { RawKeepsWild(s, lineNo, params[..|params| - 1]); }
  }

  lemma ParseKeepsWild(s: State, lineNo: nat, t: Token, allowUnknown: bool)
    ensures Parse(s, lineNo, t, allowUnknown).0.wild == s.wild
  {
  }

  lemma OneKeepsWild(s: State, lineNo: nat, opcode: byte, params: seq<Token>)
    ensures DoOne(s, lineNo, opcode, params).wild == DoOpt(s, lineNo, opcode, params).wild == s.wild
    ensures DoNull(s, lineNo, opcode, params).wild == s.wild
  {
    hide Parse, Word;
    if |params| == 1 { ParseKeepsWild(s, lineNo, params[0], false); }
  }

  lemma DirectivesKeepWild(s: State, lineNo: nat, params: seq<Token>)
    ensures DoOrg(s, lineNo, params).wild == DoEqu(s, lineNo, params).wild == s.wild
  {
    hide Parse, Resized;
    if |params| == 1 { ParseKeepsWild(s, lineNo, params[0], false); }
    if |params| == 2 { ParseKeepsWild(s, lineNo, params[1], false); }
  }

  lemma DispatchKeepsWild(s: State, lineNo: nat, d: OpDesc, params: seq<Token>)
    ensures Dispatch(s, lineNo, d, params).wild == s.wild
  {
    hide DoDb, DoRaw, DoOrg, DoEqu, DoOne, DoOpt, DoNull;
    DbKeepsWild(s, lineNo, params);
    RawKeepsWild(s, lineNo, params);
    DirectivesKeepWild(s, lineNo, params);
    OneKeepsWild(s, lineNo, d.opcode, params);
  }

  /** A patch under the guard damages nothing and stays in the memory. */
  lemma {:induction false} OwnPatchesHarmless(lines: seq<Line>)
    requires OwnPatches(lines)
    ensures LayOut(lines).Some? ==> Damaged(lines) == {} && !OnePass(lines).wild
  {
    if LayOut(lines).Some? {
      NoDamage(lines);
      WildIff(lines);
      forall i: nat, k: nat | PatchesAt(lines, i, k) ensures !AimsOutside(lines, i, k) {
        OwnStaysInside(lines, i, k);
      }
    }
  }

  lemma {:induction false} OwnStaysInside(lines: seq<Line>, i: nat, k: nat)
    requires OwnPatches(lines) && LayOut(lines).Some? && PatchesAt(lines, i, k)
    ensures !AimsOutside(lines, i, k)
  {
    LaidOutBefore(lines, i);
    RunSimulates(lines[..i]);
    assert OwnPatch(lines, i, k);
    SameTables(OnePass(lines[..i]), LayOut(lines[..i]).value, Damaged(lines[..i]));
  }

  lemma {:induction false} LaidOutBefore(lines: seq<Line>, i: nat)
    requires LayOut(lines).Some? && i <= |lines|
    ensures LayOut(lines[..i]).Some?
  {
    hide PlaceLine;
    if i == |lines| {
      assert lines[..i] == lines;
    } else {
      LaidOutBefore(lines[..|lines| - 1], i);
      assert lines[..|lines| - 1][..i] == lines[..i];
    }
  }

  lemma {:induction false} NoDamage(lines: seq<Line>)
    requires OwnPatches(lines) && LayOut(lines).Some?
    ensures Damaged(lines) == {}
  {
    hide PlaceLine, OnePass;
    if lines != [] {
      var n := |lines| - 1;
      var before := lines[..n];
      forall i: nat, k: nat | PatchesAt(before, i, k) && LayOut(before[..i]).Some? ensures OwnPatch(before, i, k) {
        assert before[..i] == lines[..i];
        assert PatchesAt(lines, i, k);
      }
      NoDamage(before);
      assert forall k :: k in RefsOf(OnePass(before), lines[n].name) && lines[n].name != "" ==> PatchesAt(lines, n, k);
    }
  }

  /** Exactly then: a patch that misses the guard writes outside the memory, or leaves a word that does not refer
      to the label with the label's address for an operand. */
  lemma {:induction false} StrayPatch(lines: seq<Line>, i: nat, k: nat)
    requires PatchesAt(lines, i, k) && LayOut(lines[..i]).Some? && !OwnPatch(lines, i, k)
    ensures AimsOutside(lines, i, k) ==> OnePass(lines).wild
    ensures !AimsOutside(lines, i, k) ==>
              var (s, l) := (OnePass(lines[..i]), LayOut(lines[..i]).value);
              && k < |l.cells| && l.cells[k].operand != Ref(lines[i].name)
              && Labelled(s, lines[i]).mem[k] == Word(l.cells[k].opcode, |l.cells| % 256)
  {
    WildIff(lines);
    RunSimulates(lines[..i]);
    var s, l := OnePass(lines[..i]), LayOut(lines[..i]).value;
    hide OnePass, LayOut, Word;
    if k < |s.mem| {
      assert Stands(s, k, l.cells[k], Damaged(lines[..i]));
    }
  }

  /** When no .ORG cuts off a waiting word, every patch meets the guard. */
  lemma {:induction false} NothingCutOwns(lines: seq<Line>)
    requires NothingCut(lines)
    ensures OwnPatches(lines)
  {
    forall i: nat, k: nat | PatchesAt(lines, i, k) && LayOut(lines[..i]).Some? ensures OwnPatch(lines, i, k) {
      CutBefore(lines, i);
      RunSimulates(lines[..i]);
      hide OnePass, LayOut;
      assert ListFits(OnePass(lines[..i]), LayOut(lines[..i]).value.cells, lines[i].name);
    }
  }

  lemma {:induction false} CutBefore(lines: seq<Line>, i: nat)
    requires NothingCut(lines) && i <= |lines|
    ensures NothingCut(lines[..i])
  {
    hide KeepsPending, OnePass;
    if i == |lines| {
      assert lines[..i] == lines;
    } else {
      CutBefore(lines[..|lines| - 1], i);
      assert lines[..|lines| - 1][..i] == lines[..i];
    }
  }

  /** Under the guard: accepted programs with known operands have the words of the two-pass assembler. */
  lemma {:induction false} GuardedIsTwoPass(lines: seq<Line>)
    requires OwnPatches(lines) && Accepted(lines) && AllKnown(lines)
    ensures TwoPasses(lines) == Some(OnePass(lines).mem) && !OnePass(lines).wild
  {
    OnePassIsTwoPass(lines);
    OwnPatchesHarmless(lines);
  }
}
