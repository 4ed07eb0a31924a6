/** The byte-wide port of src/emulation/dataport.cpp and the bit signals it emits. */
module DataPorts {
  import opened Bits

  /** One bitKWritten(level) notification. */
  datatype BitSignal = BitSignal(bit: nat, level: nat)

  /** The value a port holds after write(value, mask). */
  function Written(old_: byte, value: byte, mask: byte): byte {
    Or(And(old_, Not(mask)), value)
  }

  /** The notifications for bits 0..n-1 of a port that now holds value, in emission order. */
  function Signals(value: byte, mask: byte, n: nat): seq<BitSignal> {
    if n == 0 then []
    else if Bit(mask, n - 1) == 1 then Signals(value, mask, n - 1) + [BitSignal(n - 1, Bit(value, n - 1))]
    else Signals(value, mask, n - 1)
  }

  class DataPort {
    var value: byte

    constructor ()
      ensures value == 0
    {
      value := 0;
    }

    /** The new value, which valueWritten is about to announce. */
    method Store(v: byte, mask: byte)
      modifies this
      ensures value == Written(old(value), v, mask)
    {
      value := Or(And(value, Not(mask)), v);
    }

    /** A write that no listener answers with another one: the bit notifications are returned as a list in
        emission order and delivered by the board. On P1 the panel does answer, see Wiring.PortP1. */
    method Write(v: byte, mask: byte) returns (signals: seq<BitSignal>)
      modifies this
      ensures value == Written(old(value), v, mask)
      ensures signals == Signals(value, mask, 8)
    {
      Store(v, mask);
      signals := Notify(value, mask);
    }

    /** The bit loop at the end of write. */
    static method Notify(value: byte, mask: byte) returns (signals: seq<BitSignal>)
      ensures signals == Signals(value, mask, 8)
    {
      hide Bit;
      signals := [];
      for bit := 0 to 8
        invariant signals == Signals(value, mask, bit)
      {
        if Bit(mask, bit) == 1 {
          signals := signals + [BitSignal(bit, Bit(value, bit))];
        }
      }
    }
  }

  /** A full-width write stores the value. */
  lemma WrittenFull(old_: byte, value: byte)
    ensures Written(old_, value, 255) == value
  {
    AndZero(old_, 8);
    assert Pow2(8) == 256;
    OrZeroLeft(value, 8);
  }

  lemma {:induction false} BitOfNot(x: byte, k: nat)
    requires k < 8
    ensures Bit(Not(x), k) == 1 - Bit(x, k)
  {
    assert Pow2(8) == 256;
    BitOfComplement(x, 8, k);
  }

  lemma {:induction false} BitOfComplement(x: nat, n: nat, k: nat)
    requires x < Pow2(n) && k < n
    ensures Bit(Pow2(n) - 1 - x, k) == 1 - Bit(x, k)
  {
    var c := Pow2(n) - 1 - x;
    assert c % 2 == 1 - x % 2 && c / 2 == Pow2(n - 1) - 1 - x / 2;
    if k > 0 { BitOfComplement(x / 2, n - 1, k - 1); }
  }

  /** Bit k after a masked write: the written bit inside the mask; outside it the written bit is
      still ORed into the old one, because the source does not mask the value. */
  lemma {:induction false} BitOfWritten(old_: byte, value: byte, mask: byte, k: nat)
    requires k < 8
    ensures Bit(Written(old_, value, mask), k) ==
            if Bit(mask, k) == 1 || Bit(value, k) == 1 then Bit(value, k) else Bit(old_, k)
  {
    BitOfBitwise(OrOp, And(old_, Not(mask)), value, 8, k);
    BitOfBitwise(AndOp, old_, Not(mask), 8, k);
    BitOfNot(mask, k);
  }

  /** Bit k is notified exactly when the mask contains it, and with the level the port now has. */
  lemma {:induction false} SignalledExactly(value: byte, mask: byte, n: nat, k: nat, level: nat)
    ensures BitSignal(k, level) in Signals(value, mask, n) <==>
            k < n && Bit(mask, k) == 1 && level == Bit(value, k)
  {
    hide Bit;
    if n > 0 { SignalledExactly(value, mask, n - 1, k, level); }
  }

  /** The bits of the notifications ascend and stay below n. */
  predicate Ascends(s: seq<BitSignal>, n: nat) {
    (forall i :: 0 <= i < |s| ==> s[i].bit < n) && forall i, j :: 0 <= i < j < |s| ==> s[i].bit < s[j].bit
  }

  lemma {:induction false} SignalsAscend(value: byte, mask: byte, n: nat)
    ensures Ascends(Signals(value, mask, n), n)
  {
    hide Bit;
    if n > 0 { SignalsAscend(value, mask, n - 1); }
  }

  /** A listener that mirrored bit k before a write still mirrors it afterwards, unless the write
      raises a bit that its own mask excludes: then the port changes and nobody is told. */
  lemma {:induction false} MirrorKeptIff(old_: byte, value: byte, mask: byte, k: nat)
    requires k < 8
    ensures var now := Written(old_, value, mask);
            var mirror := if BitSignal(k, Bit(now, k)) in Signals(now, mask, 8) then Bit(now, k) else Bit(old_, k);
            mirror == Bit(now, k) <==> !(Bit(mask, k) == 0 && Bit(value, k) == 1 && Bit(old_, k) == 0)
  {
    var now := Written(old_, value, mask);
    BitOfWritten(old_, value, mask, k);
    SignalledExactly(now, mask, 8, k, Bit(now, k));
  }
}
