/**
 * The texts of the report that are chosen by a conditional expression: the
 * title and the partner column (from the first invoice's move type), the
 * date line, the document type of an invoice and the fallbacks written for
 * missing fields.
 */
module Labels {
  import opened Wrappers
  import opened Invoices

  /** Which of the three report flavours the first invoice selects. */
  datatype ReportKind = Customers | Vendors | General

  /**
   * Customer documents select the customer report, vendor documents the
   * vendor report; anything else, and an empty selection, the general one.
   * Only the first invoice is looked at.
   */
  function KindOf(invoices: seq<Invoice>): (kind: ReportKind)
    ensures |invoices| > 0 && invoices[0].moveType in {OutInvoice, OutRefund} ==> kind == Customers
    ensures |invoices| > 0 && invoices[0].moveType in {InInvoice, InRefund} ==> kind == Vendors
    ensures kind == General <==>
      (|invoices| == 0 || invoices[0].moveType !in {OutInvoice, OutRefund, InInvoice, InRefund})
  {
    if |invoices| > 0 && invoices[0].moveType in {OutInvoice, OutRefund} then Customers
    else if |invoices| > 0 && invoices[0].moveType in {InInvoice, InRefund} then Vendors
    else General
  }

  /** Two selections whose first invoices have the same move type get the same flavour. */
  lemma KindDependsOnFirstOnly(a: seq<Invoice>, b: seq<Invoice>)
    requires |a| > 0 && |b| > 0 && a[0].moveType == b[0].moveType
    ensures KindOf(a) == KindOf(b)
  {
  }

  /** The report's title, one per flavour. */
  function Title(kind: ReportKind): string
  {
    match kind
    case Customers => "Análisis de Facturas de Clientes - ANALISIS DE FACTURACION DE CLIENTES IRR"
    case Vendors => "Análisis de Facturas de Proveedores - ANALISIS DE FACTURACION DE PROVEEDORES IRR"
    case General => "Análisis de Facturas - REPORTE GENERAL"
  }

  /** The label of the partner column: customer, vendor or plain partner. */
  function PartnerColumn(kind: ReportKind): (column: string)
    ensures column == "Cliente" <==> kind == Customers
    ensures column == "Proveedor" <==> kind == Vendors
    ensures column == "Partner" <==> kind == General
  {
    match kind
    case Customers => "Cliente"
    case Vendors => "Proveedor"
    case General => "Partner"
  }

  /** The number of columns of the table. */
  const Columns: nat := 8

  /**
   * The column headers: the partner column label, then the fixed labels
   * 'Comprobante', 'Tipo de Documento', 'Condición de Pago', 'Vendedor',
   * 'Importe', 'Cotización Total' and 'Moneda'. Only the first one depends
   * on the flavour.
   */
  function Headers(kind: ReportKind): (headers: seq<string>)
    ensures |headers| == Columns
    ensures headers[0] == PartnerColumn(kind)
  {
    [PartnerColumn(kind), "Comprobante", "Tipo de Documento", "Condición de Pago",
     "Vendedor", "Importe", "Cotización Total", "Moneda"]
  }

  /** The text shown when the first invoice has no date (or there is none). */
  const NoDate: string := "N/A"

  /** The date of the first invoice, or `NoDate`. */
  function DateText(invoices: seq<Invoice>): (text: string)
    ensures |invoices| > 0 && invoices[0].invoiceDate.Some? ==> text == invoices[0].invoiceDate.value
    ensures |invoices| == 0 || invoices[0].invoiceDate.None? ==> text == NoDate
  {
    if |invoices| > 0 && invoices[0].invoiceDate.Some? then invoices[0].invoiceDate.value else NoDate
  }

  /** 'Factura' for an invoice proper (customer or vendor); every other type is undefined. */
  function DocumentType(moveType: string): (text: string)
    ensures text == "Factura" <==> moveType == OutInvoice || moveType == InInvoice
    ensures text != "Factura" ==> text == "Sin definir"
  {
    if moveType in {OutInvoice, InInvoice} then "Factura" else "Sin definir"
  }

  /**
   * Python's `name or default` on a relational name: a missing relation
   * reads as `False` and an empty name as `''`, and both are falsy.
   */
  function OrElse(value: Option<string>, default: string): (text: string)
    ensures value.Some? && value.value != "" ==> text == value.value
    ensures value.None? || value.value == "" ==> text == default
  {
    match value
    case Some(v) => if v != "" then v else default
    case None => default
  }

  const NoPaymentTerm: string := "No definido"
  const NoSalesperson: string := "Sin Vendedor"

  /** The exchange rate 1.0, in millionths. */
  const UnitRate: int := 1_000_000

  /**
   * The rate written for an invoice: `computed_currency_rate or 1.0`, so a
   * missing rate and a zero rate both become 1.0. The written rate is never 0.
   */
  function RateValue(inv: Invoice): (rate: int)
    ensures rate != 0
    ensures inv.rate.Some? && inv.rate.value != 0 ==> rate == inv.rate.value
    ensures inv.rate.None? || inv.rate.value == 0 ==> rate == UnitRate
  {
    match inv.rate
    case Some(r) => if r != 0 then r else UnitRate
    case None => UnitRate
  }
}
