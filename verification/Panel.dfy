/** The switches and keys of src/ui/panel/panelwindow.cpp, as the processor meets them on P1 and P2. */
module Panel {
  import opened Bits
  import opened Wrappers

  type nibble = x: int | 0 <= x < 16

  /** The key mask of each row of the matrix; a row has four columns. */
  type Keys = s: seq<nibble> | |s| == 6 witness [0, 0, 0, 0, 0, 0]

  /** What the user does: the switches and keys that hold during an instruction, and whether the switches have been
      operated just before it. */
  datatype Input = Input(switches: byte, keys: Keys, touched: bool)

  /** The input of the current instruction; with none left no panel is connected. */
  function Current(inputs: seq<Input>): Option<Input> {
    if inputs == [] then None else Some(inputs[0])
  }

  function Coming(inputs: seq<Input>): seq<Input> {
    if inputs == [] then [] else inputs[1..]
  }

  /** The byte that operating the switches puts on P1 before the coming instruction. */
  function Turned(inputs: seq<Input>): Option<byte> {
    var now := Current(Coming(inputs));
    if now.Some? && now.value.touched then Some(now.value.switches) else None
  }

  /** The first of the bits from k up that is 0; row 0 when there is none. */
  function RowFrom(mask: byte, k: nat): (row: nat)
    requires k <= 8
    ensures row < 8
    decreases 8 - k
  {
    if k == 8 then 0 else if Bit(mask, k) == 0 then k else RowFrom(mask, k + 1)
  }

  /** The row that port C of the main chip selects. */
  function Row(mask: byte): (row: nat)
    ensures row < 8
  {
    RowFrom(mask, 0)
  }

  /** The row is the lowest 0 of the mask. */
  lemma RowIsLowest(mask: byte, k: nat)
    requires k < 8 && Bit(mask, k) == 0 && forall j :: 0 <= j < k ==> Bit(mask, j) == 1
    ensures Row(mask) == k
  {
    RowSkips(mask, 0, k);
  }

  lemma RowSkips(mask: byte, j: nat, k: nat)
    requires j <= k < 8 && Bit(mask, k) == 0 && forall i :: j <= i < k ==> Bit(mask, i) == 1
    ensures RowFrom(mask, j) == k
    decreases k - j
  {
    hide Bit;
    if j < k { RowSkips(mask, j + 1, k); }
  }

  /** The panel's side of the two connections; the inputs are those the user has still to make. */
  class PanelWindow {
    var inputs: seq<Input>
    var pinProgValue: byte
    var inPort1ValueWritten: bool

    /** Before its window is created the panel is connected to nothing. */
    constructor ()
      ensures inputs == [] && pinProgValue == 0 && !inPort1ValueWritten
    {
      inputs, pinProgValue, inPort1ValueWritten := [], 0, false;
    }

    /** The scan for the selected row. */
    static method SelectedRow(mask: byte) returns (row: nat)
      ensures row == Row(mask)
    {
      hide Bit;
      row := 0;
      var i := 0;
      while i < 8
        invariant 0 <= i <= 8 && RowFrom(mask, 0) == RowFrom(mask, i)
      {
        if Bit(mask, i) == 0 { return i; }
        i := i + 1;
      }
    }
  }
}
