/**
 * The worksheet the report writes into, reduced to what it holds: a value per
 * cell. Cells are addressed by zero-based (row, column), so the A1-style
 * address `A3` is (2, 0). Formats, widths, page setup and the workbook's
 * serialisation are not part of this model.
 */
module Sheet {

  /** A cell address: (row, column), both zero-based. */
  type Pos = (nat, nat)

  /** What a cell can hold: a text, an amount in cents or a rate in millionths. */
  datatype Cell = Text(text: string) | Money(cents: int) | Rate(millionths: int)

  class Worksheet {
    var cells: map<Pos, Cell>

    constructor ()
      ensures cells == map[]
    {
      cells := map[];
    }

    /** Writes `value` into one cell, replacing what it held. */
    method Write(row: nat, col: nat, value: Cell)
      modifies this
      ensures cells == old(cells)[(row, col) := value]
    {
      cells := cells[(row, col) := value];
    }
  }
}
