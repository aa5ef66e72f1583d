# Invoice report of `account.move`

A Dafny model of the invoice report that the Odoo module adds to `account.move`:

- `action_print_invoices_report` drops the draft invoices from the selection. When none is left it raises a validation error. Otherwise it asks `generate_excel` for the spreadsheet.
- `generate_excel` writes that spreadsheet cell by cell:
  - a title, a date line and a company line;
  - a header row whose first column names the partner role (customer, vendor or plain partner);
  - then one block per partner. A block is the partner's name, one row per invoice over eight columns, and a "Total" row. The next block starts two rows further down.

Modules:

- `Invoices` (`invoices.dfy`): the invoice record, the order-preserving selection `Filter`, and the amount total `Sum`.
- `Labels` (`labels.dfy`): the texts chosen by conditional expressions. These are the title and partner column picked by the first invoice's move type, the date line, the document type, and the fallbacks of `name or default`.
- `Sheet` (`worksheet.dfy`): the worksheet as a class whose `cells` map `(row, column)` to a value, with a `Write` method.
- `Grouping` (`grouping.dfy`): `grouped_invoices`. It is built in place by a loop, `GroupByPartner`, and proved against its specification. The specification is the distinct partner names in order of first appearance (`PartnerOrder`), each with its invoices in input order (`InvoicesOf`).
- `Layout` (`layout.dfy`): the finished sheet as a function, `Report`. It is a fold of cell writes in the order `generate_excel` makes them. The lemmas here state, cell by cell, what the sheet holds.
- `Report` (`report.dfy`): `generate_excel` as imperative code over a `Worksheet`, proved to leave exactly `Report(invoices)`, and `action_print_invoices_report` with its error path.

Cells are zero-based `(row, column)` pairs, so the A1-style `A3` is `(2, 0)`. Amounts are integers in cents. Exchange rates are integers in millionths, so 1.0 is `1_000_000`. A relational name (`partner_id.name`, `invoice_payment_term_id.name`, `invoice_user_id.name`, `currency_id.name`) is read as a string. It is an `Option` where the relation may be empty.

## Model

| member | source | states |
|---|---|---|
| Invoices.Filter | models/report_facturas.py:140 | the selection is no longer than the records and every selected invoice passes the test |
| Invoices.FilterIsOrderedSelection | models/report_facturas.py:140 | the selection takes records at strictly increasing positions, and a position is taken exactly when its record passes the test |
| Invoices.FilterCount | models/report_facturas.py:140 | an invoice occurs in the selection as often as in the records if it passes the test, and otherwise not at all; it is selected iff it is a record that passes |
| Invoices.Sum | models/report_facturas.py:84 | defined as the left-to-right total of `amount` over a sequence; characterised by `Invoices.SumAppend` and `Invoices.SumPermutation`, and used for each block total in `Layout.BlockCell` |
| Invoices.SumAppend | models/report_facturas.py:84 | the total of two consecutive runs of invoices is the sum of their totals |
| Invoices.SumPermutation | models/report_facturas.py:84 | two sequences holding the same invoices, in any order, have the same total |
| Labels.KindOf | models/report_facturas.py:29-37 | customer documents first give the customer report and vendor documents the vendor report; the general report is chosen iff the selection is empty or the first move type is neither |
| Labels.KindDependsOnFirstOnly | models/report_facturas.py:29-37 | two selections whose first invoices share a move type get the same report flavour |
| Labels.Title | models/report_facturas.py:29-37 | defined as the title of each flavour (lines 30, 33, 36); `Layout.ReportTopLines` places the title of `KindOf(invoices)` in A1 |
| Labels.PartnerColumn | models/report_facturas.py:29-37 | the partner column reads 'Cliente', 'Proveedor' or 'Partner' exactly for the customer, vendor or general flavour |
| Labels.Headers | models/report_facturas.py:50-53 | there are eight headers and the first is the partner column label |
| Labels.DateText | models/report_facturas.py:43 | the date is the first invoice's date when there is one, and 'N/A' when the selection is empty or has no date |
| Labels.DocumentType | models/report_facturas.py:75 | 'Factura' exactly for customer and vendor invoices; 'Sin definir' for refunds and every other type |
| Labels.OrElse | models/report_facturas.py:76-77 | a present, non-empty name is kept; a missing or empty one gives the default |
| Labels.RateValue | models/report_facturas.py:79 | a present non-zero rate is kept; a missing or zero rate becomes 1.0; the written rate is never 0 |
| Sheet.Worksheet.constructor | models/report_facturas.py:15-16 | a new worksheet has no cells |
| Sheet.Worksheet.Write | models/report_facturas.py:46 | a write sets one cell and leaves every other cell as it was |
| Grouping.PartnerOrder | models/report_facturas.py:58-62 | defined as the partner names in order, each kept at its first appearance; characterised by `Grouping.PartnerOrderKeys` and `Grouping.PartnerOrderFirstAppearance`, and produced by `Grouping.GroupByPartner` |
| Grouping.InvoicesOf | models/report_facturas.py:58-62 | every invoice of a partner's group carries that partner's name |
| Grouping.InvoicesOfIsFilter | models/report_facturas.py:58-62 | a partner's group is the order-preserving selection of the invoices carrying its name |
| Grouping.InvoicesOfSnoc | models/report_facturas.py:59-62 | appending an invoice extends its own partner's group by it and leaves every other group unchanged |
| Grouping.PartnerOrderKeys | models/report_facturas.py:58-62 | the keys have no duplicates, every invoice's partner is a key, and every key is some invoice's partner |
| Grouping.PartnerOrderFirstAppearance | models/report_facturas.py:58-66 | keys come in order of first appearance: if key a precedes key b, every invoice of b is preceded by an invoice of a |
| Grouping.GroupNonEmptyIffKey | models/report_facturas.py:58-62 | a partner's group is non-empty iff the partner is a key |
| Grouping.InvoiceInExactlyOneGroup | models/report_facturas.py:58-62 | each invoice is in the group keyed by its partner name and in no other group |
| Grouping.GroupKeepsInputOrder | models/report_facturas.py:59-62 | a group picks the invoices of its partner at strictly increasing input positions, and picks a position iff the invoice there has that partner |
| Grouping.ConcatGroupsCount | models/report_facturas.py:58-62 | concatenating the groups of distinct names counts each invoice as often as the input does if its partner is among them, else zero |
| Grouping.GroupsArePermutation | models/report_facturas.py:58-62 | the groups, concatenated in key order, are a permutation of the input |
| Grouping.GroupedSoFarStep | models/report_facturas.py:59-62 | handling one more invoice (new key on first sight, then append) keeps the keys and lists equal to the grouping of the invoices seen so far |
| Grouping.GroupByPartner | models/report_facturas.py:58-62 | the loop ends with the keys in first-appearance order, exactly those keys in the dictionary, and under each key that partner's invoices in input order |
| Layout.InvoiceCells | models/report_facturas.py:73-80 | defined as the eight cells written for one invoice, in column order; there are always eight of them, and `Layout.InvoiceCellValues` states each cell and its fallback |
| Layout.WriteBlock | models/report_facturas.py:67-87 | defined as one partner's block written over a sheet at a given row; characterised by `Layout.WriteBlockAt` and written by `Report.WritePartnerBlock` |
| Layout.RowAfter | models/report_facturas.py:65-87 | defined as the value of the `row` counter after a sequence of blocks; characterised by `Layout.RowAfterPrefix`, `Layout.RowAfterStep` and `Layout.RowAfterCount` |
| Layout.BlockCell | models/report_facturas.py:66-87 | defined as what each cell of a block holds (the partner, an invoice cell, "Total" or the group's sum); `Layout.WriteBlockAt` and `Layout.ReportBlock` show that the written cells equal it |
| Layout.Preamble | models/report_facturas.py:39-55 | defined as the title, date, company and header writes on an empty sheet; characterised by `Layout.PreambleAt` and `Layout.PreambleLines`, and written by `Report.WritePreamble` |
| Layout.Report | models/report_facturas.py:12-105 | defined as every partner's block written below the preamble; characterised by `Layout.ReportBlock`, `Layout.ReportRows`, `Layout.ReportHeader`, `Layout.ReportTopLines` and `Layout.BlocksDisjoint`, and left by `Report.GenerateExcel` |
| Layout.WriteRowAt | models/report_facturas.py:54-55 | writing a row adds columns 0 to n-1 of that row with the given values, and changes no other cell |
| Layout.WriteInvoicesAt | models/report_facturas.py:72-81 | writing a group fills the eight columns of one row per invoice, the t-th invoice on the t-th row, and changes no other cell |
| Layout.WriteBlockAt | models/report_facturas.py:66-87 | a block adds exactly the partner cell, the invoice rows and the two total cells, with the values `BlockCell` gives |
| Layout.RowAfterPrefix | models/report_facturas.py:65-87 | the row counter never goes below row 7 and only grows from block to block |
| Layout.RowAfterStep | models/report_facturas.py:69-87 | a block of n invoices moves the row counter n + 3 rows down |
| Layout.WriteBlocksRows | models/report_facturas.py:64-87 | the blocks write only between row 7 and two rows before the final counter, keep every earlier cell, and leave the cells outside that range untouched |
| Layout.WriteBlocksAtBlock | models/report_facturas.py:64-87 | within the rows of the g-th block, the sheet holds that block's cells and what was there before, and nothing from other blocks |
| Layout.RowAfterCount | models/report_facturas.py:65-87 | the final counter is 7 plus the number of invoices plus three rows per partner |
| Layout.FlattenGroupsOf | models/report_facturas.py:66 | reading the dictionary's items in order gives the groups one after the other |
| Layout.SumOfTotalsIsSumOfFlatten | models/report_facturas.py:84-86 | the per-partner totals add up to the total of all the listed invoices |
| Layout.TopLinesAt | models/report_facturas.py:40-47 | the top lines are A1, A3 and A4 only, holding the title, the date line and the company |
| Layout.PreambleAt | models/report_facturas.py:39-55 | above the data the sheet has only A1, A3, A4 and columns 0 to 7 of row 6, and the header cells are the eight headers |
| Layout.PreambleLines | models/report_facturas.py:39-47 | A1 holds the title, A3 'Fecha: ' and the date, A4 the company |
| Layout.ReportAbove | models/report_facturas.py:65 | the blocks never write above row 7, so the finished sheet there is the preamble |
| Layout.ReportHeader | models/report_facturas.py:50-55 | in the finished sheet, row 6 holds exactly the eight headers, in columns 0 to 7 |
| Layout.ReportTopLines | models/report_facturas.py:39-47 | in the finished sheet, A1 holds the flavour's title, A3 the date line and A4 the company |
| Layout.ReportPartnerColumn | models/report_facturas.py:29-55 | the first header reads 'Cliente', 'Proveedor' or 'Partner' exactly when the first invoice is a customer document, a vendor document, or neither / there is none |
| Layout.PartnerGroupsItems | models/report_facturas.py:66 | the g-th item pairs the g-th key with that partner's group |
| Layout.ReportBlock | models/report_facturas.py:64-87 | the g-th block takes its invoices plus three rows; on those rows the finished sheet holds exactly the partner name, the invoice rows in input order, "Total" and the group's sum, and an empty last row |
| Layout.BlocksDisjoint | models/report_facturas.py:65-87 | each block ends before any later block starts, so no two blocks share a row |
| Layout.ReportRows | models/report_facturas.py:65-87 | data starts at row 7, ends at 7 plus the invoices plus three rows per partner, and every cell is in rows 0, 2, 3, 6 or in that data range |
| Layout.TotalsAddUp | models/report_facturas.py:84-86 | the partners' totals add up to the total of all the invoices |
| Layout.InvoiceCellValues | models/report_facturas.py:73-80 | an invoice row holds partner, number, document type, payment term or 'No definido', salesperson or 'Sin Vendedor', amount, rate or 1.0, and currency |
| Report.Confirmed | models/report_facturas.py:140 | defined as the records that are not drafts, selected in order; characterised by `Report.ConfirmedSelection` and `Report.ConfirmedEmptyIffAllDraft` |
| Report.ConfirmedSelection | models/report_facturas.py:140 | the confirmed invoices are the non-draft records in their order, each as often as in the records |
| Report.ConfirmedEmptyIffAllDraft | models/report_facturas.py:140-143 | nothing is left to print exactly when every record is a draft |
| Report.ReportListsNoDraft | models/report_facturas.py:140-146 | every invoice the printed report lists is one of the records, is not a draft, and is listed under its own partner |
| Report.WriteEightCells | models/report_facturas.py:73-80 | the eight writes along an invoice row are the row write of its eight cells |
| Report.WriteInvoicesStep | models/report_facturas.py:72-81 | one more pass of the invoice loop extends the written group by one row |
| Report.WriteBlocksStep | models/report_facturas.py:66-87 | one more pass of the partner loop adds that partner's block and moves the counter past it |
| Report.WriteInvoiceRow | models/report_facturas.py:73-80 | the eight writes leave the sheet with the invoice's row written |
| Report.WritePartnerBlock | models/report_facturas.py:67-87 | the partner's block is written at the counter, and the counter ends n + 3 rows further down |
| Report.WriteBlocksInto | models/report_facturas.py:65-87 | the loop over the items writes every partner's block in key order |
| Report.WritePreamble | models/report_facturas.py:28-55 | a new sheet ends up holding exactly the title, date, company and header lines |
| Report.GenerateExcel | models/report_facturas.py:12-105 | the cells written are exactly `Report(invoices)`, about which the `Layout` lemmas state the layout |
| Report.PrintInvoicesReport | models/report_facturas.py:137-146 | it fails with the validation message iff every record is a draft, and otherwise returns the report of the non-draft records |

## Left out

- Formatting through the spreadsheet library is not modelled. This covers cell formats, colours, column widths, landscape mode and page fitting (models/report_facturas.py:18-26, 89-100). These calls do not change which cell holds which value.
- `merge_range('A1:H1', …)` is modelled as a write of the title into A1. The merge of B1 to H1 is formatting.
- Closing the workbook and reading its bytes (models/report_facturas.py:102-105) is replaced by returning the cell map.
- `convert_xlsx_to_pdf` is not modelled. It writes temporary files and runs an external LibreOffice process (models/report_facturas.py:107-135).
- The PDF attachment, its base64 encoding and the returned download URL (models/report_facturas.py:147-161) are not modelled. `Report.PrintInvoicesReport` returns the cells instead, and the raised `ValidationError` is its `Err` result.
- Date formatting with `strftime('%Y-%m-%d')` is not modelled. An invoice date is the already formatted text.
- Amounts and rates are floats in the source. Here they are exact integers, in cents and millionths.
- Layout.TotalsAddUp: this is exact integer arithmetic. Floating-point rounding in Python's `sum` is not captured.
- ORM recordsets are modelled as sequences and `filtered` as `Invoices.Filter`.
- Relational lookups through the record cache are modelled as plain values.
- An invoice without a partner (whose `partner_id.name` reads as `False`) is not modelled. Partner names are always strings.
- The cell formats passed to each `write` are not stored in the worksheet model.
