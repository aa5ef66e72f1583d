/**
 * The two entry points: `generate_excel`, which writes the sheet cell by
 * cell into a worksheet, and `action_print_invoices_report`, which drops the
 * draft invoices and refuses to print when none is left.
 */
module Report {
  import opened Wrappers
  import opened Invoices
  import opened Labels
  import opened Sheet
  import opened Grouping
  import opened Layout

  /** The message of the validation error raised when every invoice is a draft. */
  const NoConfirmedInvoices: string := "No hay facturas confirmadas para imprimir."

  /** The test `filtered` applies: the invoice is not a draft. */
  predicate NotDraft(inv: Invoice)
  {
    inv.state != Draft
  }

  /** `records.filtered(lambda inv: inv.state != 'draft')`. */
  function Confirmed(records: seq<Invoice>): seq<Invoice>
  {
    Filter(records, NotDraft)
  }

  /**
   * The confirmed invoices are the records that are not drafts, in their
   * order: picked at strictly increasing positions, and a position is picked
   * exactly when its record is not a draft. Each confirmed invoice occurs as
   * often as in the records.
   */
  lemma ConfirmedSelection(records: seq<Invoice>)
    ensures var picked := FilterIndices(records, NotDraft);
      && |picked| == |Confirmed(records)|
      && (forall t :: 0 <= t < |picked| ==> picked[t] < |records| && Confirmed(records)[t] == records[picked[t]])
      && (forall t, u :: 0 <= t < u < |picked| ==> picked[t] < picked[u])
      && (forall i :: 0 <= i < |records| ==> (records[i].state != Draft <==> i in picked))
    ensures forall x :: multiset(Confirmed(records))[x] == if x.state != Draft then multiset(records)[x] else 0
  {
    FilterIsOrderedSelection(records, NotDraft);
    forall x ensures multiset(Confirmed(records))[x] == if x.state != Draft then multiset(records)[x] else 0 {
      FilterCount(records, NotDraft, x);
    }
  }

  /** Nothing is left to print exactly when every record is a draft. */
  lemma ConfirmedEmptyIffAllDraft(records: seq<Invoice>)
    ensures Confirmed(records) == [] <==> forall i :: 0 <= i < |records| ==> records[i].state == Draft
  {
    var picked := FilterIndices(records, NotDraft);
    FilterIsOrderedSelection(records, NotDraft);
    if Confirmed(records) != [] {
      assert picked[0] in picked;
      assert records[picked[0]].state != Draft;
    }
    forall i | 0 <= i < |records| && records[i].state != Draft
      ensures Confirmed(records) != []
    {
      assert i in picked;
    }
  }

  /**
   * Every invoice the printed report lists is one of the records and not a
   * draft, and it is listed under its own partner.
   */
  lemma ReportListsNoDraft(records: seq<Invoice>, g: nat, t: nat)
    requires g < |PartnerGroups(Confirmed(records))|
    requires t < |PartnerGroups(Confirmed(records))[g].invoices|
    ensures var item := PartnerGroups(Confirmed(records))[g];
      && item.invoices[t] in records
      && item.invoices[t].state != Draft
      && item.invoices[t].partnerName == item.partner
  {
    var confirmed := Confirmed(records);
    var partner := PartnerOrder(confirmed)[g];
    var x := InvoicesOf(confirmed, partner)[t];
    InvoicesOfIsFilter(confirmed, partner);
    FilterCount(confirmed, HasPartner(partner), x);
    FilterCount(records, NotDraft, x);
  }

  /** Eight writes along a row are `WriteRow` over the eight cells. */
  lemma WriteEightCells(sheet: Cells, row: nat, cells: seq<Cell>)
    requires |cells| == Columns
    ensures WriteRow(sheet, row, cells, Columns) ==
      sheet[(row, 0) := cells[0]][(row, 1) := cells[1]][(row, 2) := cells[2]][(row, 3) := cells[3]]
        [(row, 4) := cells[4]][(row, 5) := cells[5]][(row, 6) := cells[6]][(row, 7) := cells[7]]
  {
    assert WriteRow(sheet, row, cells, 1) == sheet[(row, 0) := cells[0]];
    assert WriteRow(sheet, row, cells, 2) == WriteRow(sheet, row, cells, 1)[(row, 1) := cells[1]];
    assert WriteRow(sheet, row, cells, 3) == WriteRow(sheet, row, cells, 2)[(row, 2) := cells[2]];
    assert WriteRow(sheet, row, cells, 4) == WriteRow(sheet, row, cells, 3)[(row, 3) := cells[3]];
    assert WriteRow(sheet, row, cells, 5) == WriteRow(sheet, row, cells, 4)[(row, 4) := cells[4]];
    assert WriteRow(sheet, row, cells, 6) == WriteRow(sheet, row, cells, 5)[(row, 5) := cells[5]];
    assert WriteRow(sheet, row, cells, 7) == WriteRow(sheet, row, cells, 6)[(row, 6) := cells[6]];
  }

  /** Writing one more invoice row extends `WriteInvoices` by that row. */
  lemma WriteInvoicesStep(sheet: Cells, partner: string, group: seq<Invoice>, row: nat, k: nat)
    requires k < |group|
    ensures WriteInvoices(sheet, partner, group[..k + 1], row) ==
      WriteRow(WriteInvoices(sheet, partner, group[..k], row), row + k, InvoiceCells(partner, group[k]), Columns)
  {
    assert group[..k + 1][..k] == group[..k];
  }

  /** Writing one more block extends `WriteBlocks` by that block, and moves `RowAfter` past it. */
  lemma WriteBlocksStep(sheet: Cells, groups: seq<PartnerGroup>, i: nat)
    requires i < |groups|
    ensures WriteBlocks(sheet, groups[..i + 1]) ==
      WriteBlock(WriteBlocks(sheet, groups[..i]), groups[i].partner, groups[i].invoices, RowAfter(groups[..i]))
    ensures RowAfter(groups[..i + 1]) == RowAfter(groups[..i]) + |groups[i].invoices| + 3
  {
    assert groups[..i + 1][..i] == groups[..i];
  }

  /** The eight writes of one invoice's row, from the partner name to the currency. */
  method WriteInvoiceRow(sheet: Worksheet, row: nat, partner: string, factura: Invoice)
    modifies sheet
    ensures sheet.cells == WriteRow(old(sheet.cells), row, InvoiceCells(partner, factura), Columns)
  {
    ghost var before := sheet.cells;
    sheet.Write(row, 0, Text(partner));
    sheet.Write(row, 1, Text(factura.name));
    sheet.Write(row, 2, Text(DocumentType(factura.moveType)));
    sheet.Write(row, 3, Text(OrElse(factura.paymentTerm, NoPaymentTerm)));
    sheet.Write(row, 4, Text(OrElse(factura.salesperson, NoSalesperson)));
    sheet.Write(row, 5, Money(factura.amount));
    sheet.Write(row, 6, Rate(RateValue(factura)));
    sheet.Write(row, 7, Text(factura.currency));
    WriteEightCells(before, row, InvoiceCells(partner, factura));
  }

  /**
   * One partner's block, starting at `row`: the partner name, a row per
   * invoice, and the total under the amounts. `next` is where the loop goes
   * on: two rows below the total.
   */
  method WritePartnerBlock(sheet: Worksheet, partner: string, facturas: seq<Invoice>, row: nat) returns (next: nat)
    modifies sheet
    ensures sheet.cells == WriteBlock(old(sheet.cells), partner, facturas, row)
    ensures next == row + |facturas| + 3
  {
    sheet.Write(row, 0, Text(partner));
    ghost var named := sheet.cells;
    next := row + 1;
    for k := 0 to |facturas|
      invariant next == row + 1 + k
      invariant sheet.cells == WriteInvoices(named, partner, facturas[..k], row + 1)
    {
      WriteInvoiceRow(sheet, next, partner, facturas[k]);
      WriteInvoicesStep(named, partner, facturas, row + 1, k);
      next := next + 1;
    }
    assert facturas[..|facturas|] == facturas;
    var total := Sum(facturas);
    sheet.Write(next, 4, Text(TotalText));
    sheet.Write(next, 5, Money(total));
    next := next + 2;
  }

  /**
   * The loop over `grouped_invoices.items()`: one block per key, in key
   * order, each starting where the previous one left the row.
   */
  method WriteBlocksInto(sheet: Worksheet, order: seq<string>, groups: map<string, seq<Invoice>>, ghost items: seq<PartnerGroup>)
    requires |items| == |order|
    requires forall i :: 0 <= i < |order| ==> order[i] in groups && items[i] == PartnerGroup(order[i], groups[order[i]])
    modifies sheet
    ensures sheet.cells == WriteBlocks(old(sheet.cells), items)
  {
    ghost var above := sheet.cells;
    assert items[..0] == [];
    var row := FirstDataRow;
    for i := 0 to |order|
      invariant sheet.cells == WriteBlocks(above, items[..i])
      invariant row == RowAfter(items[..i])
    {
      var partner := order[i];
      var facturas := groups[partner];
      WriteBlocksStep(above, items, i);
      row := WritePartnerBlock(sheet, partner, facturas, row);
    }
    assert items[..|order|] == items;
  }

  /**
   * A new worksheet with the lines above the data: the title in A1, the date
   * in A3, the company in A4 and the column headers in row 7 (index 6).
   */
  method WritePreamble(invoices: seq<Invoice>) returns (sheet: Worksheet)
    ensures fresh(sheet)
    ensures sheet.cells == Preamble(invoices)
  {
    sheet := new Worksheet();
    var kind := KindOf(invoices);
    var title := Title(kind);
    sheet.Write(0, 0, Text(title));
    var date := DateText(invoices);
    sheet.Write(2, 0, Text(DatePrefix + date));
    sheet.Write(3, 0, Text(Company));
    ghost var top := sheet.cells;
    assert top == TopLines(title, DatePrefix + date);

    var headers := Headers(kind);
    for col := 0 to |headers|
      invariant sheet.cells == WriteRow(top, HeaderRow, HeaderCells(kind), col)
    {
      sheet.Write(HeaderRow, col, Text(headers[col]));
    }
  }

  /**
   * `generate_excel`: writes the title, date, company and header lines,
   * groups the invoices by partner, then writes each partner's block and
   * moves two rows down after its total. The cells it leaves are `Report`.
   */
  method GenerateExcel(invoices: seq<Invoice>) returns (cells: Cells)
    ensures cells == Report(invoices)
  {
    var sheet := WritePreamble(invoices);
    var order, groups := GroupByPartner(invoices);
    forall i | 0 <= i < |order|
      ensures order[i] in groups && PartnerGroups(invoices)[i] == PartnerGroup(order[i], groups[order[i]])
    {
      PartnerGroupsItems(invoices, i);
    }
    assert |PartnerGroups(invoices)| == |order|;
    WriteBlocksInto(sheet, order, groups, PartnerGroups(invoices));
    cells := sheet.cells;
  }

  /**
   * `action_print_invoices_report`: keeps the records that are not drafts;
   * when none is left it fails with the validation message, otherwise it
   * returns the sheet `generate_excel` writes for them.
   */
  method PrintInvoicesReport(records: seq<Invoice>) returns (result: Result<Cells, string>)
    ensures result.Err? <==> forall i :: 0 <= i < |records| ==> records[i].state == Draft
    ensures result.Err? ==> result.error == NoConfirmedInvoices
    ensures result.Ok? ==> result.value == Report(Confirmed(records))
  {
    var confirmed := Confirmed(records);
    ConfirmedEmptyIffAllDraft(records);
    if confirmed == [] {
      return Err(NoConfirmedInvoices);
    }
    var cells := GenerateExcel(confirmed);
    return Ok(cells);
  }
}
