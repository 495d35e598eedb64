/**
  What an action's `do` produces, stated on values: the return sale of
  `do_sale_return` and the credit note of `do_credit_note`. The copies and
  creations the host framework performs (`Sale.copy`, `Line.copy`,
  `Invoice.create`, the `_credit` methods) appear as plain functions or as
  parameters; the imperative steps of `do` are methods of `Complaints.Action`
  proved equal to these functions.
*/
module Remedies {
  import opened Wrappers
  import opened Records
  import opened ActionsDomain

  /** The action's quantity and unit price; None means "keep the line's own". */
  datatype Overrides = Overrides(quantity: Option<real>, unitPrice: Option<real>)

  const NoOverrides: Overrides := Overrides(None, None)

  /** `chosen or all`: an empty selection of lines on the action stands for every line of the origin. */
  function ChosenOrAll<T>(chosen: seq<T>, all: seq<T>): (r: seq<T>) {
    if chosen != [] then chosen else all
  }

  // ---------------------------------------------------------------------------
  // Sale return

  /** `Line.copy(line, default)`: the line attached to the return sale, with any override the action sets. */
  function CopySaleLine(l: SaleLine, saleId: nat, o: Overrides): (r: SaleLine) {
    l.(sale := saleId,
       quantity := if o.quantity.Some? then o.quantity.value else l.quantity,
       unitPrice := if o.unitPrice.Some? then o.unitPrice.value else l.unitPrice)
  }

  /** `Sale.copy` with no lines, then `Line.copy` of the selected lines into the copy. */
  function CopiedSale(s: Sale, lines: seq<SaleLine>, o: Overrides, returnId: nat): (r: Sale) {
    s.(id := returnId, lines := seq(|lines|, i requires 0 <= i < |lines| => CopySaleLine(lines[i], returnId, o)))
  }

  /** A line as it goes back: a product line with its quantity negated, any other line as it is. */
  function Returned(l: SaleLine): (r: SaleLine) {
    if l.lineType == ProductLine then l.(quantity := l.quantity * -1.0) else l
  }

  function ReturnedLines(ls: seq<SaleLine>): (r: seq<SaleLine>) {
    seq(|ls|, i requires 0 <= i < |ls| => Returned(ls[i]))
  }

  /** The return sale built from a copy: linked to the complaint, every line returned. */
  function ReturnSale(s: Sale, lines: seq<SaleLine>, o: Overrides, complaintId: nat, returnId: nat): (r: Sale) {
    var copy := CopiedSale(s, lines, o, returnId);
    copy.(origin := Some(complaintId), lines := ReturnedLines(copy.lines))
  }

  /**
    The result of `do_sale_return` for a complaint origin: from a sale, the
    chosen lines (all when none are chosen) with no override; from a sale
    line, that line with the action's overrides; from anything else, nothing.
  */
  function SaleReturnOf(origin: Option<Origin>, chosen: seq<SaleLine>, o: Overrides,
                        complaintId: nat, returnId: nat): (r: Option<Sale>)
  {
    match origin
    case Some(SaleOrigin(s)) => Some(ReturnSale(s, ChosenOrAll(chosen, s.lines), NoOverrides, complaintId, returnId))
    case Some(SaleLineOrigin(l, s)) => Some(ReturnSale(s, [l], o, complaintId, returnId))
    case _ => None
  }

  /** A sale origin: the return holds one line per chosen line (every line when none is chosen), product quantities negated, overrides ignored. */
  lemma SaleReturnFromSale(s: Sale, chosen: seq<SaleLine>, o: Overrides, complaintId: nat, returnId: nat)
    ensures var r := SaleReturnOf(Some(SaleOrigin(s)), chosen, o, complaintId, returnId);
      var lines := if chosen == [] then s.lines else chosen;
      && r.Some?
      && r.value.id == returnId && r.value.party == s.party && r.value.origin == Some(complaintId)
      && |r.value.lines| == |lines|
      && forall k :: 0 <= k < |lines| ==>
           r.value.lines[k] == lines[k].(sale := returnId,
                                         quantity := if lines[k].lineType == ProductLine
                                                     then -lines[k].quantity else lines[k].quantity)
  {
  }

  /** A sale-line origin: the return holds that one line, with the action's quantity and price where given, its quantity negated if it is a product line. */
  lemma SaleReturnFromLine(l: SaleLine, s: Sale, chosen: seq<SaleLine>, o: Overrides, complaintId: nat, returnId: nat)
    ensures var r := SaleReturnOf(Some(SaleLineOrigin(l, s)), chosen, o, complaintId, returnId);
      var q := if o.quantity.Some? then o.quantity.value else l.quantity;
      && r.Some?
      && r.value.id == returnId && r.value.party == s.party && r.value.origin == Some(complaintId)
      && |r.value.lines| == 1
      && r.value.lines[0].sale == returnId
      && r.value.lines[0].lineType == l.lineType
      && r.value.lines[0].quantity == (if l.lineType == ProductLine then -q else q)
      && r.value.lines[0].unitPrice == (if o.unitPrice.Some? then o.unitPrice.value else l.unitPrice)
  {
  }

  /** An invoice or a missing origin yields no return sale. */
  lemma NoSaleReturnWithoutSaleOrigin(origin: Option<Origin>, chosen: seq<SaleLine>, o: Overrides, complaintId: nat, returnId: nat)
    ensures (SaleReturnOf(origin, chosen, o, complaintId, returnId).Some?
             <==> origin.Some? && (origin.value.SaleOrigin? || origin.value.SaleLineOrigin?))
  {
  }

  /** The total quantity of the product lines of a sale. */
  function ProductQuantity(ls: seq<SaleLine>): (q: real) {
    if ls == [] then 0.0
    else (if ls[0].lineType == ProductLine then ls[0].quantity else 0.0) + ProductQuantity(ls[1..])
  }

  /** Returning lines negates their total product quantity. */
  lemma {:induction false} ReturnNegatesProductQuantity(ls: seq<SaleLine>)
    ensures ProductQuantity(ReturnedLines(ls)) == -ProductQuantity(ls)
  {
    if ls != [] {
      assert ReturnedLines(ls)[1..] == ReturnedLines(ls[1..]);
      ReturnNegatesProductQuantity(ls[1..]);
    }
  }

  // ---------------------------------------------------------------------------
  // Credit note

  /**
    The host invoice module's `_credit` methods: the values of a credit note
    for an invoice and for one of its lines. Their content is not part of this
    model.
  */
  datatype Crediting = Crediting(invoice: Invoice -> Values, line: InvoiceLine -> Values)

  /** The credit values of each selected line, in order. */
  function CreditLines(lines: seq<InvoiceLine>, cr: Crediting): (r: seq<Values>) {
    seq(|lines|, i requires 0 <= i < |lines| => cr.line(lines[i]))
  }

  /** The action's quantity and unit price written into the first line's values where given. */
  function OverrideFirst(lv: seq<Values>, o: Overrides): (r: seq<Values>)
    requires lv != []
  {
    var withQuantity := if o.quantity.Some? then lv[0]["quantity" := Number(o.quantity.value)] else lv[0];
    var withPrice := if o.unitPrice.Some? then withQuantity["unit_price" := Number(o.unitPrice.value)] else withQuantity;
    lv[0 := withPrice]
  }

  /** The credit note created from the invoice's credit values with the given lines and without taxes. */
  function CreditNoteFrom(inv: Invoice, lv: seq<Values>, cr: Crediting, creditId: nat): (r: Result<Option<Record>, Error>) {
    var values := cr.invoice(inv);
    if "taxes" !in values then Failure(MissingKey("taxes"))
    else Success(Some(InvoiceRecord(creditId, values - {"taxes", "lines"}, lv)))
  }

  /**
    The result of `do_credit_note` for a complaint origin: from an invoice,
    the chosen lines (all when none are chosen); from an invoice line, that
    line with the action's overrides; from anything else, nothing.
  */
  function CreditNoteOf(origin: Option<Origin>, chosen: seq<InvoiceLine>, o: Overrides,
                        creditId: nat, cr: Crediting): (r: Result<Option<Record>, Error>)
  {
    match origin
    case Some(InvoiceOrigin(inv)) => CreditNoteFrom(inv, CreditLines(ChosenOrAll(chosen, inv.lines), cr), cr, creditId)
    case Some(InvoiceLineOrigin(l, inv)) => CreditNoteFrom(inv, OverrideFirst(CreditLines([l], cr), o), cr, creditId)
    case _ => Success(None)
  }

  /** An invoice origin: one credited line per chosen line (every line when none is chosen), overrides ignored, taxes dropped. */
  lemma CreditNoteFromInvoice(inv: Invoice, chosen: seq<InvoiceLine>, o: Overrides, creditId: nat, cr: Crediting)
    ensures var r := CreditNoteOf(Some(InvoiceOrigin(inv)), chosen, o, creditId, cr);
      var lines := if chosen == [] then inv.lines else chosen;
      var values := cr.invoice(inv);
      && ("taxes" !in values ==> r == Failure(MissingKey("taxes")))
      && ("taxes" in values ==>
            && r.Success? && r.value.Some? && r.value.value.InvoiceRecord?
            && r.value.value.id == creditId
            && "taxes" !in r.value.value.values
            && (forall f :: f != "taxes" && f != "lines" ==>
                  (f in r.value.value.values <==> f in values)
                  && (f in values ==> r.value.value.values[f] == values[f]))
            && |r.value.value.lines| == |lines|
            && forall k :: 0 <= k < |lines| ==> r.value.value.lines[k] == cr.line(lines[k]))
  {
  }

  /** An invoice-line origin: exactly that line is credited, with the action's quantity and price where given. */
  lemma CreditNoteFromLine(l: InvoiceLine, inv: Invoice, chosen: seq<InvoiceLine>, o: Overrides, creditId: nat, cr: Crediting)
    ensures var r := CreditNoteOf(Some(InvoiceLineOrigin(l, inv)), chosen, o, creditId, cr);
      var lv := cr.line(l);
      && ("taxes" !in cr.invoice(inv) ==> r == Failure(MissingKey("taxes")))
      && ("taxes" in cr.invoice(inv) ==>
            && r.Success? && r.value.Some? && r.value.value.InvoiceRecord?
            && |r.value.value.lines| == 1
            && var line := r.value.value.lines[0];
            && (forall f :: f != "quantity" && f != "unit_price" ==>
                  (f in line <==> f in lv) && (f in lv ==> line[f] == lv[f]))
            && (o.quantity.Some? ==> "quantity" in line && line["quantity"] == Number(o.quantity.value))
            && (o.quantity.None? ==> ("quantity" in line <==> "quantity" in lv)
                                     && ("quantity" in lv ==> line["quantity"] == lv["quantity"]))
            && (o.unitPrice.Some? ==> "unit_price" in line && line["unit_price"] == Number(o.unitPrice.value))
            && (o.unitPrice.None? ==> ("unit_price" in line <==> "unit_price" in lv)
                                      && ("unit_price" in lv ==> line["unit_price"] == lv["unit_price"])))
  {
  }

  // ---------------------------------------------------------------------------
  // Dispatch

  /** `Action.do`: run `do_<action>` for the action's kind. */
  function ActionEffect(kind: ActionKind, saleLines: seq<SaleLine>, invoiceLines: seq<InvoiceLine>, o: Overrides,
                        origin: Option<Origin>, complaintId: nat, newId: nat, cr: Crediting): (r: Result<Option<Record>, Error>)
  {
    match kind
    case SaleReturn =>
      Success(match SaleReturnOf(origin, saleLines, o, complaintId, newId)
              case Some(s) => Some(SaleRecord(s))
              case None => None)
    case CreditNote => CreditNoteOf(origin, invoiceLines, o, newId, cr)
  }

  /**
    An action produces a record exactly when its kind is one the origin's
    model admits (a credit note can still fail on missing taxes); the record
    is a sale for a return and an invoice for a credit note.
  */
  lemma AllowedActionProducesRecord(kind: ActionKind, saleLines: seq<SaleLine>, invoiceLines: seq<InvoiceLine>,
                                    o: Overrides, origin: Option<Origin>, complaintId: nat, newId: nat, cr: Crediting)
    ensures var e := ActionEffect(kind, saleLines, invoiceLines, o, origin, complaintId, newId, cr);
      && (kind in AllowedActions(OriginModel(origin)) <==> e.Failure? || e.value.Some?)
      && (e.Failure? ==> kind == CreditNote && e.error == MissingKey("taxes"))
      && (e.Success? && e.value.Some? ==>
            RecordModel(e.value.value) == (if kind == SaleReturn then SaleModel else InvoiceModel))
  {
    var allowed := AllowedActions(OriginModel(origin));
    match origin
    case None =>
      assert allowed == [];
    case Some(org) =>
      assert |allowed| == 1;
  }
}
