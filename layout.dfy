/**
 * The cells the report writes, as a function of the invoices it is given.
 * The sheet is built the way `generate_excel` builds it, write after write:
 * the title, date and company lines, the header row, then one block per
 * partner (a partner row, one row per invoice, a total row and a blank row)
 * from row 7 on. The lemmas locate every part of the layout in the finished
 * sheet.
 */
module Layout {
  import opened Invoices
  import opened Labels
  import opened Sheet
  import opened Grouping

  /** The header row: row 7 of the sheet, zero-based. */
  const HeaderRow: nat := 6
  const FirstDataRow: nat := 7
  const DatePrefix: string := "Fecha: "
  const Company: string := "Empresa-Sucursal: Ing. Ramón Russo"
  const TotalText: string := "Total"

  type Cells = map<Pos, Cell>

  /** The eight cells of an invoice's row, by column. */
  function InvoiceCells(partner: string, inv: Invoice): (cells: seq<Cell>)
    ensures |cells| == Columns
  {
    [Text(partner), Text(inv.name), Text(DocumentType(inv.moveType)),
     Text(OrElse(inv.paymentTerm, NoPaymentTerm)), Text(OrElse(inv.salesperson, NoSalesperson)),
     Money(inv.amount), Rate(RateValue(inv)), Text(inv.currency)]
  }

  /** The value written in column `col` of an invoice's row. */
  function InvoiceCell(partner: string, inv: Invoice, col: nat): Cell
    requires col < Columns
  {
    InvoiceCells(partner, inv)[col]
  }

  /** The header row's cells, by column. */
  function HeaderCells(kind: ReportKind): (cells: seq<Cell>)
    ensures |cells| == Columns
  {
    seq(Columns, c requires 0 <= c < Columns => Text(Headers(kind)[c]))
  }

  /** `sheet` after writing the first `n` of `cells` along `row`, from column 0 on. */
  function WriteRow(sheet: Cells, row: nat, cells: seq<Cell>, n: nat): Cells
    requires n <= |cells|
  {
    if n == 0 then sheet else WriteRow(sheet, row, cells, n - 1)[(row, n - 1) := cells[n - 1]]
  }

  /** `sheet` after writing one row per invoice of `group`, the first at `row`. */
  function WriteInvoices(sheet: Cells, partner: string, group: seq<Invoice>, row: nat): Cells
  {
    if group == [] then sheet
    else
      var init := group[..|group| - 1];
      WriteRow(WriteInvoices(sheet, partner, init, row), row + |init|, InvoiceCells(partner, group[|group| - 1]), Columns)
  }

  /**
   * `sheet` after writing a partner's block at `row`: the partner's name,
   * its invoices on the rows below, then "Total" and the group's sum.
   */
  function WriteBlock(sheet: Cells, partner: string, group: seq<Invoice>, row: nat): Cells
  {
    var totalRow := row + 1 + |group|;
    WriteInvoices(sheet[(row, 0) := Text(partner)], partner, group, row + 1)
      [(totalRow, 4) := Text(TotalText)][(totalRow, 5) := Money(Sum(group))]
  }

  /** One entry of `grouped_invoices.items()`: a partner name and its invoices. */
  datatype PartnerGroup = PartnerGroup(partner: string, invoices: seq<Invoice>)

  /** The entries for `partners`, in that order. */
  function GroupsOf(invoices: seq<Invoice>, partners: seq<string>): seq<PartnerGroup>
  {
    seq(|partners|, g requires 0 <= g < |partners| => PartnerGroup(partners[g], InvoicesOf(invoices, partners[g])))
  }

  /** The items of the grouping dictionary, in insertion order. */
  function PartnerGroups(invoices: seq<Invoice>): seq<PartnerGroup>
  {
    GroupsOf(invoices, PartnerOrder(invoices))
  }

  /** The row after the blocks of `groups`: each block takes its invoices plus three rows. */
  function RowAfter(groups: seq<PartnerGroup>): nat
  {
    if groups == [] then FirstDataRow
    else RowAfter(groups[..|groups| - 1]) + |groups[|groups| - 1].invoices| + 3
  }

  /** `sheet` after writing the blocks of `groups`, one below the other from `FirstDataRow` on. */
  function WriteBlocks(sheet: Cells, groups: seq<PartnerGroup>): Cells
  {
    if groups == [] then sheet
    else
      var init, last := groups[..|groups| - 1], groups[|groups| - 1];
      WriteBlock(WriteBlocks(sheet, init), last.partner, last.invoices, RowAfter(init))
  }

  /** Everything above the data: title (A1), date (A3), company (A4), then the headers. */
  function Preamble(invoices: seq<Invoice>): Cells
  {
    var kind := KindOf(invoices);
    WriteRow(TopLines(Title(kind), DatePrefix + DateText(invoices)), HeaderRow, HeaderCells(kind), Columns)
  }

  /** The title (A1), date (A3) and company (A4) lines. */
  function TopLines(title: string, date: string): Cells
  {
    map[(0, 0) := Text(title), (2, 0) := Text(date), (3, 0) := Text(Company)]
  }

  /** The whole sheet the report writes for `invoices`. */
  function Report(invoices: seq<Invoice>): Cells
  {
    WriteBlocks(Preamble(invoices), PartnerGroups(invoices))
  }

  /** The first row of the `g`-th partner's block. */
  function BlockStart(invoices: seq<Invoice>, g: nat): nat
    requires g <= |PartnerGroups(invoices)|
  {
    RowAfter(PartnerGroups(invoices)[..g])
  }

  /**
   * The cells of a block of `n` invoices starting at `row`: the partner
   * alone at `row`, eight columns on each of the rows `row + 1` to `row + n`,
   * and columns 4 and 5 of row `row + n + 1`.
   */
  predicate InBlock(n: nat, row: nat, r: nat, c: nat)
  {
    (r == row && c == 0) || (row < r <= row + n && c < Columns) || (r == row + n + 1 && (c == 4 || c == 5))
  }

  /**
   * What each cell of a partner's block holds: the partner's name, then
   * the `t`-th invoice on the `t`-th row below it, then "Total" and the sum
   * of the group's amounts.
   */
  function BlockCell(partner: string, group: seq<Invoice>, row: nat, r: nat, c: nat): Cell
    requires InBlock(|group|, row, r, c)
  {
    if r == row then Text(partner)
    else if r <= row + |group| then InvoiceCell(partner, group[r - row - 1], c)
    else if c == 4 then Text(TotalText)
    else Money(Sum(group))
  }

  // ---------------------------------------------------------------------
  // What each kind of write changes, cell by cell

  /** Writing a row adds columns 0 to n-1 of that row, holding the first n cells, and changes nothing else. */
  lemma {:induction false} WriteRowAt(sheet: Cells, row: nat, cells: seq<Cell>, n: nat, r: nat, c: nat)
    requires n <= |cells|
    ensures (r, c) in WriteRow(sheet, row, cells, n) <==> (r, c) in sheet || (r == row && c < n)
    ensures (r, c) in WriteRow(sheet, row, cells, n) ==>
      WriteRow(sheet, row, cells, n)[(r, c)] == if r == row && c < n then cells[c] else sheet[(r, c)]
  {
    if n > 0 {
      WriteRowAt(sheet, row, cells, n - 1, r, c);
    }
  }

  /** Writing a group's invoices fills eight columns of one row per invoice, in order, and changes nothing else. */
  lemma {:induction false} WriteInvoicesAt(sheet: Cells, partner: string, group: seq<Invoice>, row: nat, r: nat, c: nat)
    ensures (r, c) in WriteInvoices(sheet, partner, group, row) <==>
      (r, c) in sheet || (row <= r < row + |group| && c < Columns)
    ensures (r, c) in WriteInvoices(sheet, partner, group, row) ==>
      WriteInvoices(sheet, partner, group, row)[(r, c)] ==
        if row <= r < row + |group| && c < Columns then InvoiceCell(partner, group[r - row], c) else sheet[(r, c)]
  {
    if group != [] {
      var init := group[..|group| - 1];
      WriteInvoicesAt(sheet, partner, init, row, r, c);
      WriteRowAt(WriteInvoices(sheet, partner, init, row), row + |init|, InvoiceCells(partner, group[|group| - 1]), Columns, r, c);
      if row <= r < row + |init| {
        assert init[r - row] == group[r - row];
      }
    }
  }

  /** Writing a block adds exactly the block's cells, with the values `BlockCell` gives. */
  lemma WriteBlockAt(sheet: Cells, partner: string, group: seq<Invoice>, row: nat, r: nat, c: nat)
    ensures (r, c) in WriteBlock(sheet, partner, group, row) <==> (r, c) in sheet || InBlock(|group|, row, r, c)
    ensures (r, c) in WriteBlock(sheet, partner, group, row) ==>
      WriteBlock(sheet, partner, group, row)[(r, c)] ==
        if InBlock(|group|, row, r, c) then BlockCell(partner, group, row, r, c) else sheet[(r, c)]
  {
    WriteInvoicesAt(sheet[(row, 0) := Text(partner)], partner, group, row + 1, r, c);
  }

  /** `RowAfter` grows with the prefix of groups it covers. */
  lemma {:induction false} RowAfterPrefix(groups: seq<PartnerGroup>, g: nat)
    requires g <= |groups|
    ensures FirstDataRow <= RowAfter(groups[..g]) <= RowAfter(groups)
    decreases |groups|
  {
    if g < |groups| {
      var init := groups[..|groups| - 1];
      assert init[..g] == groups[..g];
      RowAfterPrefix(init, g);
    } else {
      assert groups[..g] == groups;
      if groups != [] {
        RowAfterPrefix(groups[..|groups| - 1], 0);
      }
    }
  }

  /** The `g`-th block takes its invoices plus three rows. */
  lemma RowAfterStep(groups: seq<PartnerGroup>, g: nat)
    requires g < |groups|
    ensures RowAfter(groups[..g + 1]) == RowAfter(groups[..g]) + |groups[g].invoices| + 3
  {
    assert groups[..g + 1][..g] == groups[..g];
  }

  /**
   * Writing the blocks adds cells between `FirstDataRow` and two rows before
   * `RowAfter` only: the last row of each block stays empty.
   */
  lemma {:induction false} WriteBlocksRows(sheet: Cells, groups: seq<PartnerGroup>, r: nat, c: nat)
    ensures FirstDataRow <= RowAfter(groups)
    ensures (r, c) in sheet ==> (r, c) in WriteBlocks(sheet, groups)
    ensures (r, c) in WriteBlocks(sheet, groups) && (r, c) !in sheet ==> FirstDataRow <= r && r + 2 <= RowAfter(groups)
    ensures r < FirstDataRow || RowAfter(groups) <= r + 1 ==>
      ((r, c) in WriteBlocks(sheet, groups) <==> (r, c) in sheet) &&
      ((r, c) in sheet ==> WriteBlocks(sheet, groups)[(r, c)] == sheet[(r, c)])
  {
    if groups != [] {
      var init, last := groups[..|groups| - 1], groups[|groups| - 1];
      WriteBlocksRows(sheet, init, r, c);
      WriteBlockAt(WriteBlocks(sheet, init), last.partner, last.invoices, RowAfter(init), r, c);
    }
  }

  /**
   * Inside the rows of the `g`-th block, the blocks written over `sheet`
   * hold that block's cells and `sheet`'s own.
   */
  lemma {:induction false} WriteBlocksAtBlock(sheet: Cells, groups: seq<PartnerGroup>, g: nat, r: nat, c: nat)
    requires g < |groups|
    requires RowAfter(groups[..g]) <= r < RowAfter(groups[..g + 1])
    ensures var item, start := groups[g], RowAfter(groups[..g]);
      && ((r, c) in WriteBlocks(sheet, groups) <==> (r, c) in sheet || InBlock(|item.invoices|, start, r, c))
      && ((r, c) in WriteBlocks(sheet, groups) ==>
           WriteBlocks(sheet, groups)[(r, c)] ==
             if InBlock(|item.invoices|, start, r, c) then BlockCell(item.partner, item.invoices, start, r, c)
             else sheet[(r, c)])
    decreases |groups|
  {
    var init, last := groups[..|groups| - 1], groups[|groups| - 1];
    WriteBlockAt(WriteBlocks(sheet, init), last.partner, last.invoices, RowAfter(init), r, c);
    if g == |groups| - 1 {
      assert groups[..g] == init;
      WriteBlocksRows(sheet, init, r, c);
    } else {
      assert init[..g] == groups[..g] && init[..g + 1] == groups[..g + 1] && init[g] == groups[g];
      WriteBlocksAtBlock(sheet, init, g, r, c);
      RowAfterPrefix(init, g + 1);
    }
  }

  /** All the invoices of `groups`, group after group. */
  function Flatten(groups: seq<PartnerGroup>): seq<Invoice>
  {
    if groups == [] then [] else Flatten(groups[..|groups| - 1]) + groups[|groups| - 1].invoices
  }

  /** Each block takes its invoices plus three rows. */
  lemma {:induction false} RowAfterCount(groups: seq<PartnerGroup>)
    ensures RowAfter(groups) == FirstDataRow + |Flatten(groups)| + 3 * |groups|
  {
    if groups != [] {
      RowAfterCount(groups[..|groups| - 1]);
    }
  }

  /** Flattening the dictionary's items concatenates the groups in key order. */
  lemma {:induction false} FlattenGroupsOf(invoices: seq<Invoice>, partners: seq<string>)
    ensures Flatten(GroupsOf(invoices, partners)) == ConcatGroups(invoices, partners)
  {
    if partners != [] {
      var init := partners[..|partners| - 1];
      assert GroupsOf(invoices, partners)[..|partners| - 1] == GroupsOf(invoices, init);
      FlattenGroupsOf(invoices, init);
    }
  }

  /** The sum of the totals written for `groups`. */
  function SumOfTotals(groups: seq<PartnerGroup>): int
  {
    if groups == [] then 0 else SumOfTotals(groups[..|groups| - 1]) + Sum(groups[|groups| - 1].invoices)
  }

  lemma {:induction false} SumOfTotalsIsSumOfFlatten(groups: seq<PartnerGroup>)
    ensures SumOfTotals(groups) == Sum(Flatten(groups))
  {
    if groups != [] {
      var init := groups[..|groups| - 1];
      SumOfTotalsIsSumOfFlatten(init);
      SumAppend(Flatten(init), groups[|groups| - 1].invoices);
    }
  }

  // ---------------------------------------------------------------------
  // The finished sheet

  /** Above the data rows: the title, date and company lines and the eight headers. */
  lemma PreambleAt(invoices: seq<Invoice>, r: nat, c: nat)
    ensures (r, c) in Preamble(invoices) <==> (r, c) in {(0, 0), (2, 0), (3, 0)} || (r == HeaderRow && c < Columns)
    ensures r == HeaderRow && c < Columns ==> Preamble(invoices)[(r, c)] == Text(Headers(KindOf(invoices))[c])
  {
    var kind := KindOf(invoices);
    var top := TopLines(Title(kind), DatePrefix + DateText(invoices));
    TopLinesAt(Title(kind), DatePrefix + DateText(invoices), r, c);
    WriteRowAt(top, HeaderRow, HeaderCells(kind), Columns, r, c);
  }

  lemma TopLinesAt(title: string, date: string, r: nat, c: nat)
    ensures (r, c) in TopLines(title, date) <==> (r, c) in {(0, 0), (2, 0), (3, 0)}
    ensures TopLines(title, date)[(0, 0)] == Text(title)
    ensures TopLines(title, date)[(2, 0)] == Text(date)
    ensures TopLines(title, date)[(3, 0)] == Text(Company)
  {
  }

  /** The title, date and company lines of the preamble. */
  lemma PreambleLines(invoices: seq<Invoice>)
    ensures (0, 0) in Preamble(invoices) && Preamble(invoices)[(0, 0)] == Text(Title(KindOf(invoices)))
    ensures (2, 0) in Preamble(invoices) && Preamble(invoices)[(2, 0)] == Text(DatePrefix + DateText(invoices))
    ensures (3, 0) in Preamble(invoices) && Preamble(invoices)[(3, 0)] == Text(Company)
  {
    var kind := KindOf(invoices);
    var top := TopLines(Title(kind), DatePrefix + DateText(invoices));
    TopLinesAt(Title(kind), DatePrefix + DateText(invoices), 0, 0);
    WriteRowAt(top, HeaderRow, HeaderCells(kind), Columns, 0, 0);
    WriteRowAt(top, HeaderRow, HeaderCells(kind), Columns, 2, 0);
    WriteRowAt(top, HeaderRow, HeaderCells(kind), Columns, 3, 0);
  }

  /** Above `FirstDataRow` the finished sheet is the preamble: no block writes there. */
  lemma ReportAbove(invoices: seq<Invoice>, r: nat, c: nat)
    requires r < FirstDataRow
    ensures (r, c) in Report(invoices) <==> (r, c) in Preamble(invoices)
    ensures (r, c) in Report(invoices) ==> Report(invoices)[(r, c)] == Preamble(invoices)[(r, c)]
  {
    WriteBlocksRows(Preamble(invoices), PartnerGroups(invoices), r, c);
  }

  /** The header row is row 6 and holds exactly the eight headers, in columns 0 to 7. */
  lemma ReportHeader(invoices: seq<Invoice>)
    ensures forall c: nat :: (HeaderRow, c) in Report(invoices) <==> c < Columns
    ensures forall c :: 0 <= c < Columns ==> Report(invoices)[(HeaderRow, c)] == Text(Headers(KindOf(invoices))[c])
  {
    forall c: nat
      ensures (HeaderRow, c) in Report(invoices) <==> c < Columns
      ensures c < Columns ==> Report(invoices)[(HeaderRow, c)] == Text(Headers(KindOf(invoices))[c])
    {
      PreambleAt(invoices, HeaderRow, c);
      ReportAbove(invoices, HeaderRow, c);
    }
  }

  /** The title is in A1, the date line in A3 and the company in A4. */
  lemma ReportTopLines(invoices: seq<Invoice>)
    ensures (0, 0) in Report(invoices) && Report(invoices)[(0, 0)] == Text(Title(KindOf(invoices)))
    ensures (2, 0) in Report(invoices) && Report(invoices)[(2, 0)] == Text(DatePrefix + DateText(invoices))
    ensures (3, 0) in Report(invoices) && Report(invoices)[(3, 0)] == Text(Company)
  {
    PreambleLines(invoices);
    ReportAbove(invoices, 0, 0);
    ReportAbove(invoices, 2, 0);
    ReportAbove(invoices, 3, 0);
  }

  /**
   * The first header reads 'Cliente', 'Proveedor' or 'Partner' according to
   * the first invoice's move type alone.
   */
  lemma ReportPartnerColumn(invoices: seq<Invoice>)
    ensures (HeaderRow, 0) in Report(invoices)
    ensures Report(invoices)[(HeaderRow, 0)] == Text("Cliente") <==>
      |invoices| > 0 && invoices[0].moveType in {OutInvoice, OutRefund}
    ensures Report(invoices)[(HeaderRow, 0)] == Text("Proveedor") <==>
      |invoices| > 0 && invoices[0].moveType in {InInvoice, InRefund}
    ensures Report(invoices)[(HeaderRow, 0)] == Text("Partner") <==>
      |invoices| == 0 || invoices[0].moveType !in {OutInvoice, OutRefund, InInvoice, InRefund}
  {
    PreambleAt(invoices, HeaderRow, 0);
    ReportAbove(invoices, HeaderRow, 0);
  }

  /** The items of the dictionary pair each key, in insertion order, with its group. */
  lemma PartnerGroupsItems(invoices: seq<Invoice>, g: nat)
    requires g < |PartnerOrder(invoices)|
    ensures |PartnerGroups(invoices)| == |PartnerOrder(invoices)|
    ensures PartnerGroups(invoices)[g] == PartnerGroup(PartnerOrder(invoices)[g], InvoicesOf(invoices, PartnerOrder(invoices)[g]))
  {
  }

  /**
   * The `g`-th partner's block in the finished sheet. The block takes the
   * group's invoices plus three rows, and on those rows the sheet holds
   * exactly the block's cells: the partner's name alone on the first row,
   * the partner's invoices in input order over the eight columns of the next
   * rows, "Total" and the sum of the group's amounts in columns 4 and 5 of
   * the total row, and an empty last row.
   */
  lemma ReportBlock(invoices: seq<Invoice>, g: nat, r: nat, c: nat)
    requires g < |PartnerGroups(invoices)|
    requires BlockStart(invoices, g) <= r < BlockStart(invoices, g) + |PartnerGroups(invoices)[g].invoices| + 3
    ensures var item, start := PartnerGroups(invoices)[g], BlockStart(invoices, g);
      && BlockStart(invoices, g + 1) == start + |item.invoices| + 3
      && ((r, c) in Report(invoices) <==> InBlock(|item.invoices|, start, r, c))
      && ((r, c) in Report(invoices) ==> Report(invoices)[(r, c)] == BlockCell(item.partner, item.invoices, start, r, c))
  {
    var groups := PartnerGroups(invoices);
    RowAfterStep(groups, g);
    RowAfterPrefix(groups, g);
    PreambleAt(invoices, r, c);
    WriteBlocksAtBlock(Preamble(invoices), groups, g, r, c);
  }

  /** Blocks never share a row: each block ends before the next one starts. */
  lemma BlocksDisjoint(invoices: seq<Invoice>, g: nat, h: nat)
    requires g < h <= |PartnerGroups(invoices)|
    ensures BlockStart(invoices, g) + |PartnerGroups(invoices)[g].invoices| + 3 <= BlockStart(invoices, h)
  {
    var groups := PartnerGroups(invoices);
    RowAfterStep(groups, g);
    assert groups[..h][..g + 1] == groups[..g + 1];
    RowAfterPrefix(groups[..h], g + 1);
  }

  /**
   * Data starts at row 7 and the rows below the headers are used by the
   * blocks only; the blocks end after the invoices plus three rows per
   * partner, the last of which stays empty.
   */
  lemma ReportRows(invoices: seq<Invoice>)
    ensures BlockStart(invoices, 0) == FirstDataRow
    ensures BlockStart(invoices, |PartnerGroups(invoices)|) ==
      FirstDataRow + |invoices| + 3 * |PartnerOrder(invoices)|
    ensures forall r: nat, c: nat :: (r, c) in Report(invoices) ==>
      r in {0, 2, 3, HeaderRow} || (FirstDataRow <= r && r + 2 <= BlockStart(invoices, |PartnerGroups(invoices)|))
  {
    var groups := PartnerGroups(invoices);
    assert groups[..0] == [] && groups[..|groups|] == groups;
    RowAfterCount(groups);
    FlattenGroupsOf(invoices, PartnerOrder(invoices));
    GroupsArePermutation(invoices);
    forall r: nat, c: nat | (r, c) in Report(invoices)
      ensures r in {0, 2, 3, HeaderRow} || (FirstDataRow <= r && r + 2 <= RowAfter(groups))
    {
      PreambleAt(invoices, r, c);
      WriteBlocksRows(Preamble(invoices), groups, r, c);
    }
  }

  /** The partners' totals add up to the total of all the invoices. */
  lemma TotalsAddUp(invoices: seq<Invoice>)
    ensures SumOfTotals(PartnerGroups(invoices)) == Sum(invoices)
  {
    SumOfTotalsIsSumOfFlatten(PartnerGroups(invoices));
    FlattenGroupsOf(invoices, PartnerOrder(invoices));
    GroupsArePermutation(invoices);
    SumPermutation(ConcatGroups(invoices, PartnerOrder(invoices)), invoices);
  }

  /**
   * What an invoice's row says: 'Factura' only for customer and vendor
   * invoices, and the fallbacks for a missing payment term, salesperson or
   * rate.
   */
  lemma InvoiceCellValues(partner: string, inv: Invoice)
    ensures InvoiceCell(partner, inv, 0) == Text(partner) && InvoiceCell(partner, inv, 1) == Text(inv.name)
    ensures InvoiceCell(partner, inv, 2) == Text("Factura") <==> inv.moveType in {OutInvoice, InInvoice}
    ensures inv.moveType !in {OutInvoice, InInvoice} ==> InvoiceCell(partner, inv, 2) == Text("Sin definir")
    ensures inv.paymentTerm.None? || inv.paymentTerm.value == "" ==>
      InvoiceCell(partner, inv, 3) == Text(NoPaymentTerm)
    ensures inv.paymentTerm.Some? && inv.paymentTerm.value != "" ==>
      InvoiceCell(partner, inv, 3) == Text(inv.paymentTerm.value)
    ensures inv.salesperson.None? || inv.salesperson.value == "" ==>
      InvoiceCell(partner, inv, 4) == Text(NoSalesperson)
    ensures inv.salesperson.Some? && inv.salesperson.value != "" ==>
      InvoiceCell(partner, inv, 4) == Text(inv.salesperson.value)
    ensures InvoiceCell(partner, inv, 5) == Money(inv.amount)
    ensures inv.rate.None? || inv.rate.value == 0 ==> InvoiceCell(partner, inv, 6) == Rate(UnitRate)
    ensures inv.rate.Some? && inv.rate.value != 0 ==> InvoiceCell(partner, inv, 6) == Rate(inv.rate.value)
    ensures InvoiceCell(partner, inv, 7) == Text(inv.currency)
  {
  }
}
