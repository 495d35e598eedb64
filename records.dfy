/**
  The host records a complaint refers to, reduced to the fields the complaint
  workflow reads or writes: sales and their lines, customer invoices and
  their lines, field-value dictionaries, and the records an action produces.
*/
module Records {
  import opened Wrappers

  /** Names of the origin models a complaint may point to. */
  const SaleModel: string := "sale.sale"
  const SaleLineModel: string := "sale.line"
  const InvoiceModel: string := "account.invoice"
  const InvoiceLineModel: string := "account.invoice.line"

  /** The `type` of a sale line; only `ProductLine` (type 'line') carries a real quantity. */
  datatype LineType = ProductLine | SubtotalLine | TitleLine | CommentLine

  datatype SaleLine = SaleLine(sale: nat, lineType: LineType, quantity: real, unitPrice: real)

  /** A sale; `origin` is the complaint a return sale was created for. */
  datatype Sale = Sale(id: nat, party: nat, lines: seq<SaleLine>, origin: Option<nat>)

  datatype InvoiceLine = InvoiceLine(invoice: nat, quantity: real, unitPrice: real)

  datatype Invoice = Invoice(id: nat, party: nat, lines: seq<InvoiceLine>)

  /** The record a complaint's `origin` reference points to; a line carries the sale or invoice it belongs to. */
  datatype Origin =
    | SaleOrigin(sale: Sale)
    | SaleLineOrigin(saleLine: SaleLine, parentSale: Sale)
    | InvoiceOrigin(invoice: Invoice)
    | InvoiceLineOrigin(invoiceLine: InvoiceLine, parentInvoice: Invoice)

  /** The model name of the complaint's origin (`on_change_with_origin_model`); None without an origin. */
  function OriginModel(o: Option<Origin>): (r: Option<string>)
    ensures o.None? <==> r.None?
    ensures r.Some? ==> r.value in {SaleModel, SaleLineModel, InvoiceModel, InvoiceLineModel}
  {
    match o
    case None => None
    case Some(SaleOrigin(_)) => Some(SaleModel)
    case Some(SaleLineOrigin(_, _)) => Some(SaleLineModel)
    case Some(InvoiceOrigin(_)) => Some(InvoiceModel)
    case Some(InvoiceLineOrigin(_, _)) => Some(InvoiceLineModel)
  }

  /** A field value in a values dictionary, as handed to `create` or `copy`. */
  datatype Value = Null | Number(x: real) | Text(s: string)

  /** Python truthiness of a field value. */
  predicate Truthy(v: Value) {
    match v
    case Null => false
    case Number(x) => x != 0.0
    case Text(s) => s != ""
  }

  /** A values dictionary: field name to value. */
  type Values = map<string, Value>

  /** The record an action produces: a return sale or a credit note created from a values dictionary. */
  datatype Record =
    | SaleRecord(sale: Sale)
    | InvoiceRecord(id: nat, values: Values, lines: seq<Values>)

  /** The model (Python class) of a produced record. */
  function RecordModel(r: Record): (model: string) {
    match r
    case SaleRecord(_) => SaleModel
    case InvoiceRecord(_, _, _) => InvoiceModel
  }

  /** The user errors the complaint workflow raises. */
  datatype Error =
    | DeleteDraft(reference: Option<string>)  // a complaint outside draft cannot be deleted
    | DeleteResult(action: nat)               // an action with a result cannot be deleted
    | MissingKey(key: string)                 // `del values[key]` on a dictionary without it
    | NoResult                                // an action's `do` produced nothing, so `save` fails
    | NoHandler                               // an action with an empty kind has no `do_` method to call
}
