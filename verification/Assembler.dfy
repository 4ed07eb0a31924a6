/** The assembler object: each handler updates the fields in place and is proved against module Assembly. */
module AssemblerObject {
  import opened Bits
  import opened Assembly

  class Assembler {
    const text: seq<Line>
    var labels: map<string, nat>
    var consts: map<string, byte>
    var pendingReferences: map<string, seq<nat>>
    var errors: seq<Error>
    var memory: seq<word>
    var pc: nat
    ghost var wild: bool

    ghost function View(): State
      reads this
    {
      State(memory, pc, labels, consts, pendingReferences, errors, wild)
    }

    constructor (source: seq<Line>)
      ensures text == source && View() == EMPTY
    {
      text := source;
      labels, consts, pendingReferences := map[], map[], map[];
      errors, memory, pc := [], [], 0;
      wild := false;
    }

    method Report(e: Error)
      modifies this`errors
      ensures View() == Fail(old(View()), e)
    {
      errors := errors + [e];
    }

    method AddTheLabel(name: string, address: nat)
      modifies this`errors, this`labels, this`memory, this`pendingReferences, this`wild
      ensures View() == AddLabel(old(View()), name, address)
    {
      hide Word;
      if name in labels {
        errors := errors + [DuplicateLabel(name)];
      }
      labels := labels[name := address];
      var refs := if name in pendingReferences then pendingReferences[name] else [];
      PatchWords(refs, address);
      pendingReferences := pendingReferences - {name};
    }

    /** Fills in the low byte of every word that waits for the label. */
    method PatchWords(refs: seq<nat>, address: nat)
      modifies this`memory, this`wild
      ensures memory == Patched(old(memory), refs, address)
      ensures wild == (old(wild) || Overruns(refs, |old(memory)|))
    {
      hide Word, Patched, Overruns;
      NoOverrun(|memory|);
      var k := 0;
      NothingPatched(memory, address);
      while k < |refs|
        invariant 0 <= k <= |refs|
        invariant memory == Patched(old(memory), refs[..k], address)
        invariant wild == (old(wild) || Overruns(refs[..k], |old(memory)|))
      {
        var i := refs[k];
        assert refs[..k + 1] == refs[..k] + [i];
        OverrunStep(refs[..k], i, |old(memory)|);
        PatchStep(old(memory), refs[..k], i, address);
        if i < |memory| {
          memory := memory[i := Word(memory[i] / 256, address % 256)];
        } else {
          wild := true;
        }
        k := k + 1;
      }
      assert refs[..k] == refs;
    }

    method AddPendingReference(name: string, address: nat)
      modifies this`pendingReferences
      ensures View() == AddPending(old(View()), name, address)
    {
      var pendingRefs := if name in pendingReferences then pendingReferences[name] else [];
      pendingReferences := pendingReferences[name := pendingRefs + [address]];
    }

    method CheckParamSize(lineNo: nat, expected: nat, params: seq<Token>) returns (ok: bool)
      modifies this`errors
      ensures ok == (|params| == expected)
      ensures View() == if ok then old(View()) else Fail(old(View()), ParamCount(lineNo, expected, |params|))
    {
      ok := |params| == expected;
      if !ok {
        Report(ParamCount(lineNo, expected, |params|));
      }
    }

    method ParseOperand(lineNo: nat, t: Token, allowUnknown: bool) returns (v: byte)
      modifies this`errors, this`pendingReferences
      ensures (View(), v) == Parse(old(View()), lineNo, t, allowUnknown)
    {
      hide Fail, AddPending;
      if t.number.Some? {
        var i := t.number.value;
        if i < 0 || i > 255 {
          Report(OutOfRange(lineNo, t.text));
          i := 0;
        }
        return i;
      }
      if allowUnknown && t.text == "?" {
        return 0;
      }
      if t.text in consts {
        return consts[t.text];
      }
      if t.text in labels {
        return labels[t.text] % 256;
      }
      AddPendingReference(t.text, pc);
      return 0;
    }

    method Push(w: word)
      modifies this`memory, this`pc
      ensures View() == Emit(old(View()), w)
    {
      memory := memory + [w];
      pc := pc + 1;
    }

    method OrgHandler(lineNo: nat, params: seq<Token>)
      modifies this
      ensures View() == DoOrg(old(View()), lineNo, params)
    {
      hide Parse, Fail;
      var ok := CheckParamSize(lineNo, 1, params);
      if !ok { return; }
      pc := ParseOperand(lineNo, params[0], false);
      memory := Resized(memory, pc);
    }

    method DataHandler(lineNo: nat, params: seq<Token>)
      modifies this
      ensures View() == DoDb(old(View()), lineNo, params)
    {
      hide Parse, Emit;
      var k := 0;
      while k < |params|
        invariant 0 <= k <= |params|
        invariant View() == DoDb(old(View()), lineNo, params[..k])
      {
        assert params[..k + 1][..k] == params[..k];
        var val := ParseOperand(lineNo, params[k], true);
        Push(val);
        k := k + 1;
      }
      assert params[..k] == params;
    }

    method EquHandler(lineNo: nat, params: seq<Token>)
      modifies this
      ensures View() == DoEqu(old(View()), lineNo, params)
    {
      hide Parse, Fail;
      var ok := CheckParamSize(lineNo, 2, params);
      if !ok { return; }
      var name := params[0].text;
      if name in consts {
        Report(NameUsed(lineNo, name));
        return;
      }
      var val := ParseOperand(lineNo, params[1], false);
      consts := consts[name := val];
    }

    method RawHandler(lineNo: nat, params: seq<Token>)
      modifies this
      ensures View() == DoRaw(old(View()), lineNo, params)
    {
      hide Fail, Emit, Word;
      var k := 0;
      while k < |params|
        invariant 0 <= k <= |params|
        invariant View() == DoRaw(old(View()), lineNo, params[..k])
      {
        assert params[..k + 1][..k] == params[..k];
        var t := params[k];
        if t.raw.None? || t.raw.value.0 > 255 || t.raw.value.1 > 255 {
          Report(BadRaw(lineNo, t.text));
        } else {
          Push(Word(t.raw.value.0, t.raw.value.1));
        }
        k := k + 1;
      }
      assert params[..k] == params;
    }

    method NullHandler(lineNo: nat, opcode: byte, params: seq<Token>)
      modifies this
      ensures View() == DoNull(old(View()), lineNo, opcode, params)
    {
      hide Fail, Emit, Word;
      if |params| > 0 {
        Report(NoParamsExpected(lineNo));
      }
      Push(Word(opcode, 0));
    }

    /** constHandler and addressHandler. */
    method OperandHandler(lineNo: nat, opcode: byte, params: seq<Token>)
      modifies this
      ensures View() == DoOne(old(View()), lineNo, opcode, params)
    {
      hide Parse, Fail, Emit, Word;
      var ok := CheckParamSize(lineNo, 1, params);
      if !ok { return; }
      var i := ParseOperand(lineNo, params[0], false);
      Push(Word(opcode, i));
    }

    method OptConstHandler(lineNo: nat, opcode: byte, params: seq<Token>)
      modifies this
      ensures View() == DoOpt(old(View()), lineNo, opcode, params)
    {
      hide DoOne, Emit, Word;
      if |params| != 0 {
        OperandHandler(lineNo, opcode, params);
      } else {
        Push(Word(opcode, 0));
      }
    }

    method HandleLine(lineNo: nat, line: Line)
      modifies this
      ensures View() == DoLine(old(View()), lineNo, line)
    {
      hide Ops, AddLabel, Fail, DoOrg, DoDb, DoEqu, DoRaw, DoNull, DoOne, DoOpt;
      if line.name != "" {
        AddTheLabel(line.name, pc);
      }
      if line.op == "" { return; }
      var d := Ops(line.op);
      if d.None? {
        Report(UnknownMnemonic(lineNo, line.op));
        return;
      }
      match d.value.handler {
        case Org => OrgHandler(lineNo, line.params);
        case Db => DataHandler(lineNo, line.params);
        case Equ => EquHandler(lineNo, line.params);
        case Raw => RawHandler(lineNo, line.params);
        case NullOp => NullHandler(lineNo, d.value.opcode, line.params);
        case OneOp => OperandHandler(lineNo, d.value.opcode, line.params);
        case OptOp => OptConstHandler(lineNo, d.value.opcode, line.params);
      }
    }

    /** Assembles the text. One error per unresolved label is appended in the table's own order. */
    method Assemble() returns (result: seq<Error>)
      modifies this
      ensures View() == OnePass(text).(errors := result) && OnePass(text).errors <= result
      ensures var tail := result[|OnePass(text).errors|..];
              && (forall name :: name in OnePass(text).pending <==> UnresolvedLabel(name) in tail)
              && (ProgramTooLarge in tail <==> OnePass(text).pc > 256)
              && |tail| == |OnePass(text).pending| + (if OnePass(text).pc > 256 then 1 else 0)
      ensures result == [] <==> Accepted(text)
    {
      hide OnePass;
      HandleLines();
      ghost var s := OnePass(text);
      ReportPending();
      ghost var tail := errors[|s.errors|..];
      if pc > 256 {
        Report(ProgramTooLarge);
        assert errors[|s.errors|..] == tail + [ProgramTooLarge];
      }
      result := errors;
      assert forall name :: name in s.pending <==> UnresolvedLabel(name) in tail;
      assert result == [] ==> s.errors == [] && tail == [];
      assert tail != [] ==> tail[0] in tail;
    }

    method HandleLines()
      modifies this
      ensures View() == OnePass(text)
    {
      hide DoLine;
      labels, consts, pendingReferences := map[], map[], map[];
      errors, memory, pc := [], [], 0;
      wild := false;
      var i := 0;
      while i < |text|
        invariant 0 <= i <= |text|
        invariant View() == OnePass(text[..i])
      {
        assert text[..i + 1][..i] == text[..i];
        HandleLine(i + 1, text[i]);
        i := i + 1;
      }
      assert text[..i] == text;
    }

    /** code(): big-endian words, padded with zeros to one chip or, beyond 127 words, to two. */
    method Code() returns (code: seq<byte>)
      requires pc == |memory| <= 256
      ensures |code| == if pc > 127 then 512 else 256
      ensures forall k :: 0 <= k < |code| ==> code[k] == ImageByte(memory, k)
    {
      code := Zeros(if pc > 127 then 512 else 256);
      var i := 0;
      while i < pc
        invariant 0 <= i <= pc
        invariant |code| == if pc > 127 then 512 else 256
        invariant forall k :: 0 <= k < |code| ==> code[k] == if k < 2 * i then ImageByte(memory, k) else 0
      {
        code := code[2 * i := memory[i] / 256];
        code := code[2 * i + 1 := memory[i] % 256];
        assert ImageByte(memory, 2 * i) == memory[i] / 256 && ImageByte(memory, 2 * i + 1) == memory[i] % 256;
        i := i + 1;
      }
    }

    /** One error for every name that is still waiting. */
    method ReportPending()
      modifies this`errors
      ensures old(errors) <= errors
      ensures forall e :: e in errors[|old(errors)|..] <==> e.UnresolvedLabel? && e.name in pendingReferences
      ensures |errors| == |old(errors)| + |pendingReferences|
    {
      var names := pendingReferences.Keys;
      while names != {}
        invariant names <= pendingReferences.Keys && old(errors) <= errors
        invariant |errors| + |names| == |old(errors)| + |pendingReferences.Keys|
        invariant forall e :: e in errors[|old(errors)|..] <==>
                    e.UnresolvedLabel? && e.name in pendingReferences && e.name !in names
        decreases |names|
      {
        var name :| name in names;
        ghost var tail := errors[|old(errors)|..];
        errors := errors + [UnresolvedLabel(name)];
        assert errors[|old(errors)|..] == tail + [UnresolvedLabel(name)];
        names := names - {name};
      }
    }
  }

  /** Byte k of the image of the words. */
  function ImageByte(mem: seq<word>, k: nat): byte {
    if k / 2 >= |mem| then 0 else if k % 2 == 0 then mem[k / 2] / 256 else mem[k / 2] % 256
  }

  lemma HighByteKept(w: word, address: nat)
    ensures Word(Word(w / 256, address % 256) / 256, address % 256) == Word(w / 256, address % 256)
  {
  }

  lemma NoOverrun(n: nat)
    ensures !Overruns([], n)
  {
  }

  lemma OverrunStep(refs: seq<nat>, r: nat, n: nat)
    ensures Overruns(refs + [r], n) <==> Overruns(refs, n) || r >= n
  {
    if Overruns(refs, n) {
      var k :| 0 <= k < |refs| && refs[k] >= n;
      assert (refs + [r])[k] >= n;
    }
    if r >= n {
      assert (refs + [r])[|refs|] >= n;
    }
  }

  lemma NothingPatched(mem: seq<word>, address: nat)
    ensures Patched(mem, [], address) == mem
  {
  }

  /** Patching one more index, which may already have been patched. */
  lemma PatchStep(mem: seq<word>, refs: seq<nat>, r: nat, address: nat)
    ensures var p := Patched(mem, refs, address);
            Patched(mem, refs + [r], address) ==
            if r < |mem| then p[r := Word(p[r] / 256, address % 256)] else p
  {
    hide Word;
    if r < |mem| {
      HighByteKept(mem[r], address);
    }
  }
}
