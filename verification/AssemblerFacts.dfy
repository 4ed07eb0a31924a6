/** What holds after every line of any program, where the source goes wrong, and the memory image. */
module AssemblerFacts {
  import opened Bits
  import opened Assembly
  import opened TwoPass
  import opened AssemblerObject
  import opened Pid8155
  import opened Wrappers

  // ----- bookkeeping -----

  /** The word count is the program counter, and no name is both defined and waiting. */
  ghost predicate Books(s: State) {
    s.pc == |s.mem| && forall name :: name in s.pending ==> name !in s.labels
  }

  lemma ParseBooks(s: State, lineNo: nat, t: Token, allowUnknown: bool)
    requires Books(s)
    ensures Books(Parse(s, lineNo, t, allowUnknown).0)
  {
  }

  lemma {:induction false} DbBooks(s: State, lineNo: nat, params: seq<Token>)
    requires Books(s)
    ensures Books(DoDb(s, lineNo, params))
  {
    hide Parse;
    if params != [] {
      var n := |params| - 1;
      DbBooks(s, lineNo, params[..n]);
      ParseBooks(DoDb(s, lineNo, params[..n]), lineNo, params[n], true);
    }
  }

  lemma {:induction false} RawBooks(s: State, lineNo: nat, params: seq<Token>)
    requires Books(s)
    ensures Books(DoRaw(s, lineNo, params))
  {
    hide Word;
    if params != [] {
      RawBooks(s, lineNo, params[..|params| - 1]);
    }
  }

  lemma OneBooks(s: State, lineNo: nat, opcode: byte, params: seq<Token>)
    requires Books(s)
    ensures Books(DoOne(s, lineNo, opcode, params)) && Books(DoOpt(s, lineNo, opcode, params))
  {
    hide Parse, Word;
    if |params| == 1 { ParseBooks(s, lineNo, params[0], false); }
  }

  lemma OrgEquBooks(s: State, lineNo: nat, params: seq<Token>)
    requires Books(s)
    ensures Books(DoOrg(s, lineNo, params)) && Books(DoEqu(s, lineNo, params))
  {
    hide Parse;
    if |params| == 1 { ParseBooks(s, lineNo, params[0], false); }
    if |params| == 2 { ParseBooks(s, lineNo, params[1], false); }
  }

  lemma DispatchBooks(s: State, lineNo: nat, d: OpDesc, params: seq<Token>)
    requires Books(s)
    ensures Books(Dispatch(s, lineNo, d, params))
  {
    hide DoDb, DoRaw, DoOne, DoOpt, DoOrg, DoEqu, Word;
    DbBooks(s, lineNo, params);
    RawBooks(s, lineNo, params);
    OneBooks(s, lineNo, d.opcode, params);
    OrgEquBooks(s, lineNo, params);
  }

  /** For every program at all, faulty or not, after every line. */
  lemma {:induction false} BooksAlways(lines: seq<Line>)
    ensures Books(OnePass(lines))
  {
    hide Dispatch, Ops;
    if lines != [] {
      var n := |lines| - 1;
      BooksAlways(lines[..n]);
      var s1 := Labelled(OnePass(lines[..n]), lines[n]);
      if lines[n].op != "" && Ops(lines[n].op).Some? {
        DispatchBooks(s1, |lines|, Ops(lines[n].op).value, lines[n].params);
      }
    }
  }

  lemma {:induction false} DbBelow(s: State, lineNo: nat, params: seq<Token>)
    requires Below(s, s.pc)
    ensures Below(DoDb(s, lineNo, params), DoDb(s, lineNo, params).pc)
  {
    if params != [] {
      DbBelow(s, lineNo, params[..|params| - 1]);
    }
  }

  lemma {:induction false} RawBelow(s: State, lineNo: nat, params: seq<Token>)
    requires Below(s, s.pc)
    ensures Below(DoRaw(s, lineNo, params), DoRaw(s, lineNo, params).pc)
  {
    hide Word;
    if params != [] {
      RawBelow(s, lineNo, params[..|params| - 1]);
    }
  }

  /** A word still to be found waits at the current address. */
  lemma ParseBelow(s: State, lineNo: nat, t: Token, allowUnknown: bool)
    requires Below(s, s.pc)
    ensures var s1 := Parse(s, lineNo, t, allowUnknown).0; s1.pc == s.pc && Below(s1, s.pc + 1)
    ensures t.number.Some? || t.text in s.consts || t.text in s.labels ==>
              Parse(s, lineNo, t, allowUnknown).0.pending == s.pending
  {
  }

  lemma OneBelow(s: State, lineNo: nat, opcode: byte, params: seq<Token>)
    requires Below(s, s.pc)
    ensures Below(DoOne(s, lineNo, opcode, params), DoOne(s, lineNo, opcode, params).pc)
    ensures Below(DoOpt(s, lineNo, opcode, params), DoOpt(s, lineNo, opcode, params).pc)
  {
    hide Word, Parse;
    if |params| == 1 { ParseBelow(s, lineNo, params[0], false); }
  }

  lemma OrgBelow(s: State, lineNo: nat, params: seq<Token>)
    requires Below(s, s.pc) && Known(s, OpDesc(0, Org), params) && Below(s, DoOrg(s, lineNo, params).pc)
    ensures Below(DoOrg(s, lineNo, params), DoOrg(s, lineNo, params).pc)
  {
    hide Parse, Resized;
    if |params| == 1 { ParseBelow(s, lineNo, params[0], false); }
  }

  lemma EquBelow(s: State, lineNo: nat, params: seq<Token>)
    requires Below(s, s.pc) && Known(s, OpDesc(0, Equ), params)
    ensures Below(DoEqu(s, lineNo, params), DoEqu(s, lineNo, params).pc)
  {
    hide Parse;
    if |params| == 2 { ParseBelow(s, lineNo, params[1], false); }
  }

  lemma NullBelow(s: State, lineNo: nat, opcode: byte, params: seq<Token>)
    requires Below(s, s.pc)
    ensures Below(DoNull(s, lineNo, opcode, params), DoNull(s, lineNo, opcode, params).pc)
  {
    hide Word;
  }

  /** A reference waits at the address of the word being placed, so it is below the next address; only
      an .ORG or .EQU with an unknown operand leaves one where no word follows. */
  lemma DispatchBelow(s: State, lineNo: nat, d: OpDesc, params: seq<Token>)
    requires Below(s, s.pc) && Known(s, d, params)
    requires Below(s, Dispatch(s, lineNo, d, params).pc)
    ensures Below(Dispatch(s, lineNo, d, params), Dispatch(s, lineNo, d, params).pc)
  {
    hide Below, DoDb, DoRaw, DoOrg, DoEqu, DoOne, DoOpt, DoNull;
    match d.handler {
      case Org => OrgBelow(s, lineNo, params);
      case Equ => EquBelow(s, lineNo, params);
      case Db => DbBelow(s, lineNo, params);
      case Raw => RawBelow(s, lineNo, params);
      case NullOp => NullBelow(s, lineNo, d.opcode, params);
      case _ => OneBelow(s, lineNo, d.opcode, params);
    }
  }

  /** Addresses never go back. */
  ghost predicate Forward(lines: seq<Line>) {
    lines != [] ==>
      && Forward(lines[..|lines| - 1])
      && OnePass(lines[..|lines| - 1]).pc <= OnePass(lines).pc
  }

  lemma LabelBelow(s: State, line: Line)
    requires Below(s, s.pc)
    ensures Below(Labelled(s, line), s.pc) && Labelled(s, line).pc == s.pc
  {
  }

  /** A program whose .ORG lines never go back, with known .ORG and .EQU operands, cuts nothing off, and
      every waiting reference is below the current address, whatever other errors the program has. */
  lemma {:induction false} ForwardCutsNothing(lines: seq<Line>)
    requires Forward(lines) && AllKnown(lines)
    ensures NothingCut(lines) && Below(OnePass(lines), OnePass(lines).pc)
  {
    hide Dispatch, Ops, Labelled;
    if lines != [] {
      var n := |lines| - 1;
      var s := OnePass(lines[..n]);
      ForwardCutsNothing(lines[..n]);
      LabelBelow(s, lines[n]);
      var s1 := Labelled(s, lines[n]);
      if lines[n].op != "" && Ops(lines[n].op).Some? {
        DispatchBelow(s1, |lines|, Ops(lines[n].op).value, lines[n].params);
      }
    }
  }

  /** Addresses that never go back and known operands are enough for the words of the two-pass assembler. */
  lemma {:induction false} ForwardIsTwoPass(lines: seq<Line>)
    requires Forward(lines) && AllKnown(lines) && Accepted(lines)
    ensures TwoPasses(lines) == Some(OnePass(lines).mem) && !OnePass(lines).wild
  {
    hide Forward, AllKnown, Accepted, OnePass;
    ForwardCutsNothing(lines);
    NothingCutOwns(lines);
    GuardedIsTwoPass(lines);
  }

  // ----- where the one-pass assembler goes wrong -----

  function Name(text: string): Token {
    Token(text, None, None)
  }

  function Number(text: string, n: int): Token {
    Token(text, Some(n), None)
  }

  lemma {:induction false} Append(before: seq<Line>, line: Line)
    ensures OnePass(before + [line]) == DoLine(OnePass(before), |before| + 1, line)
    ensures AllKnown(before + [line]) <==> AllKnown(before) && KnownOperand(OnePass(before), line)
    ensures NothingCut(before + [line]) <==>
              NothingCut(before) && KeepsPending(OnePass(before), |before| + 1, line)
    ensures LayOut(before).None? ==> LayOut(before + [line]).None?
    ensures LayOut(before).Some? ==> LayOut(before + [line]) == PlaceLine(LayOut(before).value, line)
  {
    hide DoLine, KnownOperand, KeepsPending, PlaceLine, Below;
    assert (before + [line])[..|before + [line]| - 1] == before;
  }

  lemma SomeOps()
    ensures Ops(".ORG") == Some(OpDesc(0, Org)) && Ops(".EQU") == Some(OpDesc(0, Equ))
    ensures Ops("LDA") == Some(OpDesc(5, OneOp)) && Ops("HLT") == Some(OpDesc(1, NullOp))
  {
    assert ".EQU"[1] != ".ORG"[1] && |".DB"| == 3;
    assert |"HLT"| == 3 && "HLT"[0] == 'H' && "LDA"[0] == 'L' && ".DB"[0] == '.';
    assert "ANZ"[0] == 'A' && "VZG"[0] == 'V' && "AKO"[0] == 'A';
  }

  /** .EQU X,L before L is known: the program is accepted, X stays 0, and defining L overwrites the
      operand of the next word; LDA 7 becomes LDA 1. */
  lemma UnknownEquCorrupts()
    ensures var lines := [Line("", ".EQU", [Name("X"), Name("L")]),
                          Line("", "LDA", [Number("7", 7)]),
                          Line("L", "HLT", [])];
            Accepted(lines) && !AllKnown(lines) && OnePass(lines).mem == [Word(5, 1), Word(1, 0)]
            && TwoPasses(lines).None?
  {
    var l1 := Line("", ".EQU", [Name("X"), Name("L")]);
    var l2 := Line("", "LDA", [Number("7", 7)]);
    var l3 := Line("L", "HLT", []);
    var s1 := State([], 0, map[], map["X" := 0], map["L" := [0]], [], false);
    var s2 := State([Word(5, 7)], 1, map[], map["X" := 0], map["L" := [0]], [], false);
    var s3 := State([Word(5, 1), Word(1, 0)], 2, map["L" := 1], map["X" := 0], map[], [], false);
    EquLine(l1, s1);
    LdaNumberLine(s1, l2, s2);
    LabelledHltLine(s2, l3, 5, 7, s3);
    hide DoLine, KnownOperand, PlaceLine, Ops, Word;
    ThreeLines(l1, l2, l3);
  }

  lemma EquLine(l1: Line, s1: State)
    requires l1 == Line("", ".EQU", [Name("X"), Name("L")])
    requires s1 == State([], 0, map[], map["X" := 0], map["L" := [0]], [], false)
    ensures DoLine(EMPTY, 1, l1) == s1 && !KnownOperand(EMPTY, l1) && PlaceLine(NOTHING, l1).None?
  {
    SomeOps();
    hide Ops;
    FirstPending("L");
    assert "L" !in EMPTY.consts && "L" !in EMPTY.labels && "X" !in EMPTY.consts;
    assert Parse(EMPTY, 1, Name("L"), false) == (EMPTY.(pending := map["L" := [0]]), 0);
    assert EMPTY.consts["X" := 0] == map["X" := 0];
    assert DoEqu(EMPTY, 1, l1.params) == s1;
  }

  lemma LdaNumberLine(s1: State, l2: Line, s2: State)
    requires s1.mem == [] && s1.pc == 0 && l2 == Line("", "LDA", [Number("7", 7)])
    requires s2 == s1.(mem := [Word(5, 7)], pc := 1)
    ensures forall n :: DoLine(s1, n, l2) == s2
    ensures KnownOperand(s1, l2) && PlaceLine(NOTHING, l2) == Some(NOTHING.(cells := [Cell(5, Lit(7))]))
  {
    SomeOps();
    hide Ops, Word;
    assert [] + [Cell(5, Lit(7))] == [Cell(5, Lit(7))];
  }

  lemma LabelOne(s: State, opcode: byte, v: byte)
    requires s.mem == [Word(opcode, v)] && s.pc == 1 && s.labels == map[] && s.errors == [] && !s.wild
    requires s.pending == map["L" := [0]] || s.pending == map["L" := [0, 0]]
    ensures AddLabel(s, "L", 1) == State([Word(opcode, 1)], 1, map["L" := 1], s.consts, map[], [], false)
  {
    hide Word;
    PatchStep0(opcode, v, RefsOf(s, "L"), 1);
    hide Patched;
    assert !Overruns(RefsOf(s, "L"), 1);
    assert s.pending - {"L"} == map[];
  }

  lemma LabelledHltLine(s: State, line: Line, opcode: byte, v: byte, s': State)
    requires s.mem == [Word(opcode, v)] && s.pc == 1 && s.labels == map[] && s.errors == [] && !s.wild
    requires s.pending == map["L" := [0]] || s.pending == map["L" := [0, 0]]
    requires line == Line("L", "HLT", [])
    requires s' == State([Word(opcode, 1), Word(1, 0)], 2, map["L" := 1], s.consts, map[], [], false)
    ensures forall n :: DoLine(s, n, line) == s'
    ensures KnownOperand(s, line)
  {
    SomeOps();
    LabelOne(s, opcode, v);
    hide Ops, Word, AddLabel;
  }

  lemma FirstPending(name: string)
    ensures AddPending(EMPTY, name, 0) == EMPTY.(pending := map[name := [0]])
  {
    assert RefsOf(EMPTY, name) + [0] == [0];
    assert EMPTY.pending[name := [0]] == map[name := [0]];
  }

  lemma PatchStep0(opcode: byte, v: byte, refs: seq<nat>, address: nat)
    requires refs == [0] || refs == [0, 0]
    ensures Patched([Word(opcode, v)], refs, address) == [Word(opcode, address % 256)]
  {
    WordParts(opcode, v);
    assert 0 in refs by { assert refs[0] == 0; }
  }

  /** The same with .ORG L: the words start at 0, and defining L overwrites the operand of the first. */
  lemma UnknownOrgCorrupts()
    ensures var lines := [Line("", ".ORG", [Name("L")]),
                          Line("", "LDA", [Number("7", 7)]),
                          Line("L", "HLT", [])];
            Accepted(lines) && !AllKnown(lines) && OnePass(lines).mem == [Word(5, 1), Word(1, 0)]
            && TwoPasses(lines).None?
  {
    var l1 := Line("", ".ORG", [Name("L")]);
    var l2 := Line("", "LDA", [Number("7", 7)]);
    var l3 := Line("L", "HLT", []);
    var s1 := State([], 0, map[], map[], map["L" := [0]], [], false);
    var s2 := State([Word(5, 7)], 1, map[], map[], map["L" := [0]], [], false);
    var s3 := State([Word(5, 1), Word(1, 0)], 2, map["L" := 1], map[], map[], [], false);
    OrgLabelLine(l1, s1);
    LdaNumberLine(s1, l2, s2);
    LabelledHltLine(s2, l3, 5, 7, s3);
    hide DoLine, KnownOperand, PlaceLine, Ops, Word;
    ThreeLines(l1, l2, l3);
  }

  lemma OrgLabelLine(l1: Line, s1: State)
    requires l1 == Line("", ".ORG", [Name("L")])
    requires s1 == State([], 0, map[], map[], map["L" := [0]], [], false)
    ensures DoLine(EMPTY, 1, l1) == s1 && !KnownOperand(EMPTY, l1) && PlaceLine(NOTHING, l1).None?
  {
    SomeOps();
    hide Ops;
    FirstPending("L");
    assert Parse(EMPTY, 1, Name("L"), false) == (EMPTY.(pending := map["L" := [0]]), 0);
    assert DoOrg(EMPTY, 1, l1.params) == s1;
  }

  lemma ThreeLines(l1: Line, l2: Line, l3: Line)
    ensures var s1 := DoLine(EMPTY, 1, l1);
            var s2 := DoLine(s1, 2, l2);
            && OnePass([l1]) == s1 && OnePass([l1, l2]) == s2 && OnePass([l1, l2, l3]) == DoLine(s2, 3, l3)
            && (AllKnown([l1, l2, l3]) <==> KnownOperand(EMPTY, l1) && KnownOperand(s1, l2) && KnownOperand(s2, l3))
            && (NothingCut([l1, l2, l3]) <==> KeepsPending(EMPTY, 1, l1) && KeepsPending(s1, 2, l2) && KeepsPending(s2, 3, l3))
    ensures LayOut([l1]) == PlaceLine(NOTHING, l1)
    ensures LayOut([l1]).None? ==> LayOut([l1, l2, l3]).None?
    ensures LayOut([l1]).Some? ==> LayOut([l1, l2]) == PlaceLine(LayOut([l1]).value, l2)
    ensures LayOut([l1, l2]).Some? ==> LayOut([l1, l2, l3]) == PlaceLine(LayOut([l1, l2]).value, l3)
  {
    hide DoLine, KnownOperand, KeepsPending, PlaceLine;
    assert [] + [l1] == [l1] && [l1] + [l2] == [l1, l2] && [l1, l2] + [l3] == [l1, l2, l3];
    Append([], l1);
    Append([l1], l2);
    Append([l1, l2], l3);
  }

  // LDA L / .ORG 0, the first two lines of four programs.

  const LDA_L: Line := Line("", "LDA", [Name("L")])
  const ORG_0: Line := Line("", ".ORG", [Number("0", 0)])
  const CUT: State := State([], 0, map[], map[], map["L" := [0]], [], false)

  /** After the two lines L waits for a word that is gone. */
  lemma CutOff(line: Line)
    ensures var s := DoLine(CUT, 3, line);
            && OnePass([LDA_L, ORG_0, line]) == s && LayOut([LDA_L, ORG_0, line]) == PlaceLine(NOTHING, line)
            && (AllKnown([LDA_L, ORG_0, line]) <==> KnownOperand(CUT, line)) && !NothingCut([LDA_L, ORG_0, line])
  {
    var s1 := State([Word(5, 0)], 1, map[], map[], map["L" := [0]], [], false);
    LdaLabelLine(s1);
    OrgZeroLine(s1);
    hide DoLine, KnownOperand, KeepsPending, PlaceLine, Ops, Word;
    ThreeLines(LDA_L, ORG_0, line);
  }

  lemma LdaLabelLine(s1: State)
    requires s1 == State([Word(5, 0)], 1, map[], map[], map["L" := [0]], [], false)
    ensures DoLine(EMPTY, 1, LDA_L) == s1 && KnownOperand(EMPTY, LDA_L)
    ensures PlaceLine(NOTHING, LDA_L) == Some(NOTHING.(cells := [Cell(5, Ref("L"))]))
  {
    SomeOps();
    hide Ops, Word;
    FirstPending("L");
    assert Parse(EMPTY, 1, Name("L"), false) == (EMPTY.(pending := map["L" := [0]]), 0);
    assert [] + [Word(5, 0)] == [Word(5, 0)] && [] + [Cell(5, Ref("L"))] == [Cell(5, Ref("L"))];
  }

  lemma OrgZeroLine(s1: State)
    requires s1 == State([Word(5, 0)], 1, map[], map[], map["L" := [0]], [], false)
    ensures DoLine(s1, 2, ORG_0) == CUT && KnownOperand(s1, ORG_0) && !KeepsPending(s1, 2, ORG_0)
    ensures PlaceLine(NOTHING.(cells := [Cell(5, Ref("L"))]), ORG_0) == Some(NOTHING)
  {
    SomeOps();
    hide Ops, Word;
    assert DoLine(s1, 2, ORG_0) == CUT;
    assert 0 in Labelled(s1, ORG_0).pending["L"] by { assert [0][0] == 0; }
  }

  /** A backward .ORG below a waiting word: the label's address is written outside the word memory. */
  lemma BackwardOrgWritesWild()
    ensures var lines := [LDA_L, ORG_0, Line("L", "", [])];
            Accepted(lines) && AllKnown(lines) && !NothingCut(lines) && OnePass(lines).wild
  {
    var l3 := Line("L", "", []);
    CutOff(l3);
    assert Overruns([0], 0) by { assert [0][0] >= 0; }
    assert AddLabel(CUT, "L", 0) == State([], 0, map["L" := 0], map[], map[], [], true);
  }

  /** The cut word is replaced by another: the program is accepted and the patch stays inside the memory, but
      LDA 7 becomes LDA 1. */
  lemma BackwardOrgCorrupts()
    ensures var lines := [LDA_L, ORG_0, Line("", "LDA", [Number("7", 7)]), Line("L", "HLT", [])];
            Accepted(lines) && AllKnown(lines) && !OnePass(lines).wild
            && OnePass(lines).mem == [Word(5, 1), Word(1, 0)]
            && TwoPasses(lines) == Some([Word(5, 7), Word(1, 0)])
  {
    var l3, l4 := Line("", "LDA", [Number("7", 7)]), Line("L", "HLT", []);
    var s3 := State([Word(5, 7)], 1, map[], map[], map["L" := [0]], [], false);
    var s4 := State([Word(5, 1), Word(1, 0)], 2, map["L" := 1], map[], map[], [], false);
    CutOff(l3);
    LdaNumberLine(CUT, l3, s3);
    LabelledHltLine(s3, l4, 5, 7, s4);
    hide DoLine, KnownOperand, PlaceLine, Ops, Word;
    FourthLine(l3, l4);
    TwoWords(Cell(5, Lit(7)), 7);
  }

  /** The cut word is replaced by one that refers to the same label: nothing goes wrong. */
  lemma BackwardOrgReused()
    ensures var lines := [LDA_L, ORG_0, LDA_L, Line("L", "HLT", [])];
            Accepted(lines) && AllKnown(lines) && !NothingCut(lines) && !OnePass(lines).wild
            && OnePass(lines).mem == [Word(5, 1), Word(1, 0)] && TwoPasses(lines) == Some(OnePass(lines).mem)
  {
    var l4 := Line("L", "HLT", []);
    var s3 := State([Word(5, 0)], 1, map[], map[], map["L" := [0, 0]], [], false);
    var s4 := State([Word(5, 1), Word(1, 0)], 2, map["L" := 1], map[], map[], [], false);
    CutOff(LDA_L);
    LdaAgainLine(s3);
    LabelledHltLine(s3, l4, 5, 0, s4);
    hide DoLine, KnownOperand, PlaceLine, Ops, Word;
    FourthLine(LDA_L, l4);
    TwoWords(Cell(5, Ref("L")), 1);
  }

  /** No word is left that refers to L, and the program is refused all the same. */
  lemma BackwardOrgRefused()
    ensures var lines := [LDA_L, ORG_0, Line("", "HLT", [])];
            !Accepted(lines) && OnePass(lines).errors == [] && TwoPasses(lines) == Some([Word(1, 0)])
  {
    var l3 := Line("", "HLT", []);
    CutOff(l3);
    HltLine(l3);
    var l := NOTHING.(cells := [Cell(1, Lit(0))]);
    hide DoLine, PlaceLine, Word, CellWord;
    assert Assembled(l).Some? && Assembled(l).value == [CellWord(l.cells[0], l.labels)];
    assert CellWord(l.cells[0], l.labels) == Word(1, 0) by { HltWord(l.labels); }
  }

  lemma HltWord(labels: map<string, nat>)
    ensures CellWord(Cell(1, Lit(0)), labels) == Word(1, 0)
  {
  }

  lemma HltLine(l3: Line)
    requires l3 == Line("", "HLT", [])
    ensures "L" in DoLine(CUT, 3, l3).pending && DoLine(CUT, 3, l3).errors == []
    ensures PlaceLine(NOTHING, l3) == Some(NOTHING.(cells := [Cell(1, Lit(0))]))
  {
    SomeOps();
    hide Ops, Word;
    assert [] + [Cell(1, Lit(0))] == [Cell(1, Lit(0))];
  }

  lemma LdaAgainLine(s3: State)
    requires s3 == State([Word(5, 0)], 1, map[], map[], map["L" := [0, 0]], [], false)
    ensures DoLine(CUT, 3, LDA_L) == s3 && KnownOperand(CUT, LDA_L)
    ensures PlaceLine(NOTHING, LDA_L) == Some(NOTHING.(cells := [Cell(5, Ref("L"))]))
  {
    SomeOps();
    hide Ops, Word;
    assert RefsOf(CUT, "L") + [0] == [0, 0];
    assert AddPending(CUT, "L", 0).pending == map["L" := [0, 0]];
    assert [] + [Word(5, 0)] == [Word(5, 0)] && [] + [Cell(5, Ref("L"))] == [Cell(5, Ref("L"))];
  }

  lemma FourthLine(l3: Line, l4: Line)
    ensures var before, lines := [LDA_L, ORG_0, l3], [LDA_L, ORG_0, l3, l4];
            && OnePass(lines) == DoLine(OnePass(before), 4, l4)
            && (AllKnown(lines) <==> AllKnown(before) && KnownOperand(OnePass(before), l4))
            && (NothingCut(lines) ==> NothingCut(before))
            && (LayOut(before).Some? ==> LayOut(lines) == PlaceLine(LayOut(before).value, l4))
  {
    hide DoLine, KnownOperand, KeepsPending, PlaceLine;
    assert [LDA_L, ORG_0, l3] + [l4] == [LDA_L, ORG_0, l3, l4];
    Append([LDA_L, ORG_0, l3], l4);
  }

  /** The layout after L HLT at address 1, and its words. */
  lemma TwoWords(c: Cell, low: byte)
    requires c == Cell(5, Lit(low)) || (c == Cell(5, Ref("L")) && low == 1)
    ensures var l := PlaceLine(NOTHING.(cells := [c]), Line("L", "HLT", []));
            l.Some? && Assembled(l.value) == Some([Word(5, low), Word(1, 0)])
  {
    SomeOps();
    hide Ops, Word;
    var l := Layout([c, Cell(1, Lit(0))], map["L" := 1], map[]);
    assert [c] + [Cell(1, Lit(0))] == [c, Cell(1, Lit(0))];
    assert PlaceLine(NOTHING.(cells := [c]), Line("L", "HLT", [])) == Some(l);
    assert Assembled(l).Some? && Assembled(l).value == [Word(5, low), Word(1, 0)];
  }

  // ----- the memory image -----

  /** The assembler window copies the image into the main chip's RAM and, if there is more, the extension's. */
  method Upload(code: seq<byte>, pid: Intel8155, ext: Intel8155)
    requires (|code| == 256 || |code| == 512) && pid != ext
    modifies pid`ram, ext`ram
    ensures pid.ram == code[..256]
    ensures ext.ram == if |code| > 256 then code[256..] else old(ext.ram)
  {
    CopyTo(code[..256], pid);
    if |code| > 256 {
      CopyTo(code[256..], ext);
    }
  }

  method CopyTo(bytes: seq<byte>, chip: Intel8155)
    requires |bytes| == 256
    modifies chip`ram
    ensures chip.ram == bytes
  {
    var i := 0;
    while i < 256
      invariant 0 <= i <= 256
      invariant forall k :: 0 <= k < i ==> chip.ram[k] == bytes[k]
    {
      chip.ram := chip.ram[i := bytes[i]];
      i := i + 1;
    }
  }

  /** The word the processor reads at place i of the two chips. */
  function WordAt(main: Ram256, ext: Ram256, i: nat): nat
    requires i < 256
  {
    var ram, a := if i < 128 then main else ext, 2 * (i % 128);
    var high: int, low: int := ram[a], ram[a + 1];
    high * 256 + low
  }

  /** The words of an image: as many as one chip or both hold, zero beyond the program. */
  function Places(mem: seq<word>): nat {
    if |mem| > 127 then 256 else 128
  }

  function PaddedWord(mem: seq<word>, i: nat): word {
    if i < |mem| then mem[i] else 0
  }

  /** The button of the assembler window, for a processor that stands still meanwhile. */
  method OnAssembleClicked(source: seq<Line>, pid: Intel8155, ext: Intel8155) returns (errors: seq<Error>)
    requires pid != ext
    modifies pid`ram, ext`ram
    ensures errors == [] <==> Accepted(source)
    ensures errors != [] ==> pid.ram == old(pid.ram) && ext.ram == old(ext.ram)
    ensures errors == [] ==>
              |OnePass(source).mem| <= 256
              && (forall i :: 0 <= i < Places(OnePass(source).mem) ==>
                    WordAt(pid.ram, ext.ram, i) == PaddedWord(OnePass(source).mem, i))
              && (|OnePass(source).mem| <= 127 ==> ext.ram == old(ext.ram))
    ensures errors == [] && AllKnown(source) && OwnPatches(source) ==>
              TwoPasses(source) == Some(OnePass(source).mem) && !OnePass(source).wild
  {
    hide OnePass, AllKnown, OwnPatches, TwoPasses, Word, WordAt, ImageByte;
    var assembler := new Assembler(source);
    errors := assembler.Assemble();
    BooksAlways(source);
    if errors != [] { return; }
    if AllKnown(source) && OwnPatches(source) { GuardedIsTwoPass(source); }
    var code := assembler.Code();
    Upload(code, pid, ext);
    forall i | 0 <= i < Places(assembler.memory)
      ensures WordAt(pid.ram, ext.ram, i) == PaddedWord(assembler.memory, i)
    {
      OnChips(code, assembler.memory, pid.ram, ext.ram, i);
    }
  }

  /** Where place i of the image lies. */
  lemma PlaceOf(code: seq<byte>, i: nat)
    requires 2 * i + 1 < |code| && (|code| == 256 || |code| == 512)
    ensures 2 * i == 256 * (i / 128) + 2 * (i % 128) && i < 256
    ensures i < 128 ==> code[..256][2 * (i % 128)] == code[2 * i] && code[..256][2 * (i % 128) + 1] == code[2 * i + 1]
    ensures i >= 128 ==> code[256..][2 * (i % 128)] == code[2 * i] && code[256..][2 * (i % 128) + 1] == code[2 * i + 1]
  {
  }

  lemma OnChips(code: seq<byte>, mem: seq<word>, main: Ram256, ext: Ram256, i: nat)
    requires |mem| <= 256 && i < Places(mem) && |code| == 2 * Places(mem)
    requires forall k :: 0 <= k < |code| ==> code[k] == ImageByte(mem, k)
    requires main == code[..256] && (|code| > 256 ==> ext == code[256..])
    ensures WordAt(main, ext, i) == PaddedWord(mem, i)
  {
    hide ImageByte;
    PlaceOf(code, i);
    WordPlacement(mem, i);
  }

  /** Word i of an image lies on chip i / 128 at address 2 * (i % 128), high byte first, and beyond the words
      there are zeros. */
  lemma WordPlacement(mem: seq<word>, i: nat)
    requires |mem| <= 256 && i < Places(mem)
    ensures var k := 256 * (i / 128) + 2 * (i % 128);
            ImageByte(mem, k) * 256 + ImageByte(mem, k + 1) == PaddedWord(mem, i)
    ensures i / 128 < Places(mem) / 128
  {
    var k := 256 * (i / 128) + 2 * (i % 128);
    assert k == 2 * i && k / 2 == i && (k + 1) / 2 == i && (k + 1) % 2 == 1;
  }
}
