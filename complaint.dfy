/**
  Customer complaints and their remediation actions: running an action
  (`Action.do`), processing approved complaints (`Complaint.process`), the
  delete guards, and the reference handling of `create` and `copy`.
*/
module Complaints {
  import opened Wrappers
  import opened Records
  import opened ActionsDomain
  import opened Remedies
  import opened ComplaintWorkflow

  /**
    A remediation action of a complaint. Only `result` is written by the
    complaint workflow; the other fields hold what the user entered.
  */
  class Action {
    const id: nat
    const kind: Option<ActionKind>        // None: the `action` selection was left empty
    const saleLines: seq<SaleLine>        // empty: every line of the origin sale
    const invoiceLines: seq<InvoiceLine>  // empty: every line of the origin invoice
    const quantity: Option<real>
    const unitPrice: Option<real>
    var result: Option<Record>

    constructor (id: nat, kind: Option<ActionKind>, saleLines: seq<SaleLine>, invoiceLines: seq<InvoiceLine>,
                 quantity: Option<real>, unitPrice: Option<real>)
      ensures this.id == id && this.kind == kind
      ensures this.saleLines == saleLines && this.invoiceLines == invoiceLines
      ensures this.quantity == quantity && this.unitPrice == unitPrice
      ensures result == None
    {
      this.id := id;
      this.kind := kind;
      this.saleLines := saleLines;
      this.invoiceLines := invoiceLines;
      this.quantity := quantity;
      this.unitPrice := unitPrice;
      result := None;
    }

    /** What `do` yields for this action on a complaint with the given origin; `newId` is the id the new record gets. */
    function Effect(origin: Option<Origin>, complaintId: nat, newId: nat, cr: Crediting): (r: Result<Option<Record>, Error>) {
      match kind
      case None => Failure(NoHandler)
      case Some(k) => ActionEffect(k, saleLines, invoiceLines, Overrides(quantity, unitPrice), origin, complaintId, newId, cr)
    }

    /**
      `do`: dispatch on the action's kind. An empty kind names no `do_`
      method, so the lookup raises.
    */
    method Do(origin: Option<Origin>, complaintId: nat, newId: nat, cr: Crediting) returns (r: Result<Option<Record>, Error>)
      ensures r == Effect(origin, complaintId, newId, cr)
      ensures kind.None? ==> r == Failure(NoHandler)
    {
      match kind {
        case None =>
          r := Failure(NoHandler);
        case Some(SaleReturn) =>
          var sale := DoSaleReturn(origin, complaintId, newId);
          r := Success(if sale.Some? then Some(SaleRecord(sale.value)) else None);
        case Some(CreditNote) =>
          r := DoCreditNote(origin, newId, cr);
      }
    }

    /**
      `do_sale_return`: copy the sale without lines, copy the selected lines
      into it, link it to the complaint, then negate the quantity of each
      product line in place.
    */
    method DoSaleReturn(origin: Option<Origin>, complaintId: nat, returnId: nat) returns (r: Option<Sale>)
      ensures r == SaleReturnOf(origin, saleLines, Overrides(quantity, unitPrice), complaintId, returnId)
    {
      var sale: Sale;
      var lines: seq<SaleLine>;
      var overrides := NoOverrides;
      match origin {
        case Some(SaleOrigin(s)) =>
          sale := s;
          lines := if saleLines != [] then saleLines else s.lines;
        case Some(SaleLineOrigin(l, s)) =>
          sale := s;
          lines := [l];
          overrides := Overrides(quantity, unitPrice);
        case _ =>
          return None;
      }
      var returnSale := CopiedSale(sale, lines, overrides, returnId);
      returnSale := returnSale.(origin := Some(complaintId));
      var returned := returnSale.lines;
      var i := 0;
      while i < |returned|
        invariant 0 <= i <= |returned| == |returnSale.lines|
        invariant forall k :: 0 <= k < i ==> returned[k] == Returned(returnSale.lines[k])
        invariant forall k :: i <= k < |returned| ==> returned[k] == returnSale.lines[k]
      {
        if returned[i].lineType == ProductLine {
          returned := returned[i := returned[i].(quantity := returned[i].quantity * -1.0)];
        }
        i := i + 1;
      }
      assert returned == ReturnedLines(returnSale.lines);
      returnSale := returnSale.(lines := returned);
      r := Some(returnSale);
    }

    /**
      `do_credit_note`: take the invoice's credit values, collect the credit
      values of the selected lines, override the first line's quantity and
      price for a line origin, drop the taxes and create the credit note.
    */
    method DoCreditNote(origin: Option<Origin>, creditId: nat, cr: Crediting) returns (r: Result<Option<Record>, Error>)
      ensures r == CreditNoteOf(origin, invoiceLines, Overrides(quantity, unitPrice), creditId, cr)
    {
      var invoice: Invoice;
      var lines: seq<InvoiceLine>;
      match origin {
        case Some(InvoiceOrigin(inv)) =>
          invoice := inv;
          lines := if invoiceLines != [] then invoiceLines else inv.lines;
        case Some(InvoiceLineOrigin(l, inv)) =>
          invoice := inv;
          lines := [l];
        case _ =>
          return Success(None);
      }
      var values := cr.invoice(invoice);
      var linesValues: seq<Values> := [];
      var i := 0;
      while i < |lines|
        invariant 0 <= i <= |lines| && |linesValues| == i
        invariant forall k :: 0 <= k < i ==> linesValues[k] == cr.line(lines[k])
      {
        linesValues := linesValues + [cr.line(lines[i])];
        i := i + 1;
      }
      assert linesValues == CreditLines(lines, cr);
      ghost var o := Overrides(quantity, unitPrice);
      if origin.value.InvoiceLineOrigin? {
        var first := linesValues[0];
        if quantity.Some? {
          first := first["quantity" := Number(quantity.value)];
        }
        if unitPrice.Some? {
          first := first["unit_price" := Number(unitPrice.value)];
        }
        linesValues := linesValues[0 := first];
        assert linesValues == OverrideFirst(CreditLines(lines, cr), o);
      }
      if "taxes" !in values {
        return Failure(MissingKey("taxes"));
      }
      values := values - {"taxes"};
      assert values - {"lines"} == cr.invoice(invoice) - {"taxes", "lines"};
      r := Success(Some(InvoiceRecord(creditId, values - {"lines"}, linesValues)));
    }
  }

  /** A complaint as `process` and `delete` see it. */
  datatype Complaint = Complaint(id: nat, reference: Option<string>, state: State,
                                 origin: Option<Origin>, actions: seq<Action>)

  // ---------------------------------------------------------------------------
  // Processing

  /** The (complaint, action) pairs of a batch: complaint by complaint, each complaint's actions in order. */
  function Pairs(complaints: seq<Complaint>): (ps: seq<(Complaint, Action)>) {
    if complaints == [] then []
    else
      var c := complaints[0];
      seq(|c.actions|, j requires 0 <= j < |c.actions| => (c, c.actions[j])) + Pairs(complaints[1..])
  }

  /** Each pair joins a complaint of the batch with one of its own actions. */
  lemma {:induction false} PairsBelong(complaints: seq<Complaint>, k: int)
    requires 0 <= k < |Pairs(complaints)|
    ensures Pairs(complaints)[k].0 in complaints
    ensures Pairs(complaints)[k].1 in Pairs(complaints)[k].0.actions
  {
    var c := complaints[0];
    if k >= |c.actions| {
      PairsBelong(complaints[1..], k - |c.actions|);
    }
  }

  ghost function ActionsIn(ps: seq<(Complaint, Action)>): (s: set<Action>) {
    set p | p in ps :: p.1
  }

  /** No action object occurs twice in the batch. */
  predicate DistinctActions(ps: seq<(Complaint, Action)>) {
    forall k, m :: 0 <= k < m < |ps| ==> ps[k].1 != ps[m].1
  }

  /** The outcome of `do` for the k-th pair; record ids are drawn from `firstId` by position. */
  function EffectAt(ps: seq<(Complaint, Action)>, k: int, firstId: nat, cr: Crediting): (r: Result<Option<Record>, Error>)
    requires 0 <= k < |ps|
  {
    ps[k].1.Effect(ps[k].0.origin, ps[k].0.id, firstId + k, cr)
  }

  predicate Produces(e: Result<Option<Record>, Error>) {
    e.Success? && e.value.Some?
  }

  /** Which actions of the batch are pending, that is, still without a result. */
  ghost function PendingOf(ps: seq<(Complaint, Action)>): (r: seq<bool>)
    reads ActionsIn(ps)
    ensures |r| == |ps| && forall m :: 0 <= m < |ps| ==> r[m] == ps[m].1.result.None?
  {
    seq(|ps|, m requires 0 <= m < |ps| reads ActionsIn(ps) => ps[m].1.result.None?)
  }

  /** Every pending action among the first `k` pairs runs without raising. */
  ghost predicate SucceedUpTo(ps: seq<(Complaint, Action)>, pending: seq<bool>, k: nat, firstId: nat, cr: Crediting)
    requires k <= |ps| == |pending|
  {
    forall m :: 0 <= m < k && pending[m] ==> EffectAt(ps, m, firstId, cr).Success?
  }

  /** Every pending action among the first `k` pairs produces a record. */
  ghost predicate ProduceUpTo(ps: seq<(Complaint, Action)>, pending: seq<bool>, k: nat, firstId: nat, cr: Crediting)
    requires k <= |ps| == |pending|
  {
    forall m :: 0 <= m < k && pending[m] ==> Produces(EffectAt(ps, m, firstId, cr))
  }

  /** Every pending action among the first `k` pairs has been collected. */
  ghost predicate PlacedUpTo(ps: seq<(Complaint, Action)>, pending: seq<bool>, k: nat, place: map<Action, (nat, string, nat)>)
    requires k <= |ps| == |pending|
  {
    forall m :: 0 <= m < k && pending[m] ==> ps[m].1 in place && place[ps[m].1].0 == m
  }

  /**
    The records collected from the first `k` pairs, grouped by model:
    `results[c]` and `acted[c]` are parallel lists, and `place` tells for each
    collected action its pair index, its model and its position. Every action
    collected was pending and its own `do` produced the record beside it.
  */
  ghost predicate Collected(ps: seq<(Complaint, Action)>, pending: seq<bool>, k: nat, firstId: nat, cr: Crediting,
                            results: map<string, seq<Record>>, acted: map<string, seq<Action>>,
                            place: map<Action, (nat, string, nat)>)
    requires |ps| == |pending|
  {
    && results.Keys == acted.Keys
    && (forall c :: c in results ==> |results[c]| == |acted[c]|)
    && (forall a :: a in place ==>
          && place[a].0 < k && place[a].0 < |ps| && ps[place[a].0].1 == a && pending[place[a].0]
          && place[a].1 in acted && place[a].2 < |acted[place[a].1]| && acted[place[a].1][place[a].2] == a
          && EffectAt(ps, place[a].0, firstId, cr) == Success(Some(results[place[a].1][place[a].2])))
    && (forall c, t :: c in acted && 0 <= t < |acted[c]| ==>
          acted[c][t] in place && place[acted[c][t]].1 == c && place[acted[c][t]].2 == t)
  }

  /**
    The state of the first loop of `process` after the first `k` pairs: the
    records are collected, no `do` raised, and either every pending action
    produced a record and was collected, or the one at `noResultAt` produced
    nothing.
  */
  ghost predicate Progress(ps: seq<(Complaint, Action)>, pending: seq<bool>, k: nat, firstId: nat, cr: Crediting,
                           noResult: bool, noResultAt: nat,
                           results: map<string, seq<Record>>, acted: map<string, seq<Action>>,
                           place: map<Action, (nat, string, nat)>)
  {
    && k <= |ps| == |pending|
    && Collected(ps, pending, k, firstId, cr, results, acted, place)
    && SucceedUpTo(ps, pending, k, firstId, cr)
    && (!noResult ==> ProduceUpTo(ps, pending, k, firstId, cr) && PlacedUpTo(ps, pending, k, place))
    && (noResult ==> noResultAt < k && pending[noResultAt] && EffectAt(ps, noResultAt, firstId, cr) == Success(None))
  }

  /** A pair whose action already has a result is skipped. */
  lemma ProgressSkip(ps: seq<(Complaint, Action)>, pending: seq<bool>, k: nat, firstId: nat, cr: Crediting,
                     noResult: bool, noResultAt: nat,
                     results: map<string, seq<Record>>, acted: map<string, seq<Action>>,
                     place: map<Action, (nat, string, nat)>)
    requires k < |ps| == |pending| && !pending[k]
    requires Progress(ps, pending, k, firstId, cr, noResult, noResultAt, results, acted, place)
    ensures Progress(ps, pending, k + 1, firstId, cr, noResult, noResultAt, results, acted, place)
  {
  }

  /** A pending action whose `do` produced nothing is remembered. */
  lemma ProgressNone(ps: seq<(Complaint, Action)>, pending: seq<bool>, k: nat, firstId: nat, cr: Crediting,
                     noResult: bool, noResultAt: nat,
                     results: map<string, seq<Record>>, acted: map<string, seq<Action>>,
                     place: map<Action, (nat, string, nat)>)
    requires k < |ps| == |pending| && pending[k]
    requires EffectAt(ps, k, firstId, cr) == Success(None)
    requires Progress(ps, pending, k, firstId, cr, noResult, noResultAt, results, acted, place)
    ensures Progress(ps, pending, k + 1, firstId, cr, true, k, results, acted, place)
  {
  }

  /** A pending action whose `do` produced a record is collected under the record's model. */
  lemma ProgressSome(ps: seq<(Complaint, Action)>, pending: seq<bool>, k: nat, firstId: nat, cr: Crediting,
                     noResult: bool, noResultAt: nat,
                     results: map<string, seq<Record>>, acted: map<string, seq<Action>>,
                     place: map<Action, (nat, string, nat)>, record: Record)
    requires k < |ps| == |pending| && DistinctActions(ps) && pending[k]
    requires EffectAt(ps, k, firstId, cr) == Success(Some(record))
    requires Progress(ps, pending, k, firstId, cr, noResult, noResultAt, results, acted, place)
    ensures var c := RecordModel(record);
      var recs := if c in results then results[c] else [];
      var acts := if c in acted then acted[c] else [];
      Progress(ps, pending, k + 1, firstId, cr, noResult, noResultAt,
               results[c := recs + [record]], acted[c := acts + [ps[k].1]], place[ps[k].1 := (k, c, |acts|)])
  {
    var c := RecordModel(record);
    var acts := if c in acted then acted[c] else [];
    CollectOne(ps, pending, k, firstId, cr, results, acted, place, record);
    if !noResult {
      PlaceOne(ps, pending, k, place, c, |acts|);
    }
  }

  /** Appending the record of the pending k-th pair keeps the grouping. */
  lemma CollectOne(ps: seq<(Complaint, Action)>, pending: seq<bool>, k: nat, firstId: nat, cr: Crediting,
                   results: map<string, seq<Record>>, acted: map<string, seq<Action>>,
                   place: map<Action, (nat, string, nat)>, record: Record)
    requires k < |ps| == |pending| && DistinctActions(ps) && pending[k]
    requires Collected(ps, pending, k, firstId, cr, results, acted, place)
    requires EffectAt(ps, k, firstId, cr) == Success(Some(record))
    ensures var c := RecordModel(record);
      var recs := if c in results then results[c] else [];
      var acts := if c in acted then acted[c] else [];
      && ps[k].1 !in place
      && Collected(ps, pending, k + 1, firstId, cr, results[c := recs + [record]], acted[c := acts + [ps[k].1]],
                   place[ps[k].1 := (k, c, |acts|)])
  {
    var a := ps[k].1;
    var c := RecordModel(record);
    var recs := if c in results then results[c] else [];
    var acts := if c in acted then acted[c] else [];
    var results', acted', place' := results[c := recs + [record]], acted[c := acts + [a]], place[a := (k, c, |acts|)];
    assert a !in place;
    forall b | b in place'
      ensures && place'[b].0 < k + 1 && place'[b].0 < |ps| && ps[place'[b].0].1 == b && pending[place'[b].0]
              && place'[b].1 in acted' && place'[b].2 < |acted'[place'[b].1]| && acted'[place'[b].1][place'[b].2] == b
              && EffectAt(ps, place'[b].0, firstId, cr) == Success(Some(results'[place'[b].1][place'[b].2]))
    {
      if b != a {
        assert place'[b] == place[b];
      }
    }
    forall c', t | c' in acted' && 0 <= t < |acted'[c']|
      ensures acted'[c'][t] in place' && place'[acted'[c'][t]].1 == c' && place'[acted'[c'][t]].2 == t
    {
      if c' != c || t < |acts| {
        assert acted'[c'][t] == acted[c'][t];
      }
    }
  }

  /** Collecting the pending k-th action keeps every earlier pending action collected. */
  lemma PlaceOne(ps: seq<(Complaint, Action)>, pending: seq<bool>, k: nat,
                 place: map<Action, (nat, string, nat)>, c: string, t: nat)
    requires k < |ps| == |pending| && DistinctActions(ps)
    requires PlacedUpTo(ps, pending, k, place)
    ensures PlacedUpTo(ps, pending, k + 1, place[ps[k].1 := (k, c, t)])
  {
  }

  /**
    The first loop of `process`: run `do` for every action without a result,
    in order, and collect each new record, with its action, under the record's
    model. An error raised by `do` stops the loop; a `do` that produced
    nothing is remembered, since saving its "record" fails afterwards.
  */
  method CollectResults(ps: seq<(Complaint, Action)>, ghost pending: seq<bool>, firstId: nat, cr: Crediting)
    returns (failure: Option<Error>, results: map<string, seq<Record>>, acted: map<string, seq<Action>>,
             ghost place: map<Action, (nat, string, nat)>)
    requires DistinctActions(ps)
    requires |pending| == |ps| && forall m :: 0 <= m < |ps| ==> pending[m] == ps[m].1.result.None?
    ensures failure.None? <==> ProduceUpTo(ps, pending, |ps|, firstId, cr)
    ensures failure.Some? ==>
      || (exists m :: 0 <= m < |ps| && pending[m] && EffectAt(ps, m, firstId, cr) == Failure(failure.value)
                      && SucceedUpTo(ps, pending, m, firstId, cr))
      || (failure.value == NoResult && SucceedUpTo(ps, pending, |ps|, firstId, cr))
    ensures failure.None? ==> Collected(ps, pending, |ps|, firstId, cr, results, acted, place)
    ensures failure.None? ==> PlacedUpTo(ps, pending, |ps|, place)
  {
    results, acted, place := map[], map[], map[];
    var noResult := false;
    ghost var noResultAt := 0;
    var k := 0;
    while k < |ps|
      invariant Progress(ps, pending, k, firstId, cr, noResult, noResultAt, results, acted, place)
    {
      var complaint := ps[k].0;
      var action := ps[k].1;
      if action.result.None? {
        var res := action.Do(complaint.origin, complaint.id, firstId + k, cr);
        assert res == EffectAt(ps, k, firstId, cr);
        match res {
          case Failure(e) =>
            return Some(e), results, acted, place;
          case Success(None) =>
            ProgressNone(ps, pending, k, firstId, cr, noResult, noResultAt, results, acted, place);
            noResult, noResultAt := true, k;
          case Success(Some(record)) =>
            ProgressSome(ps, pending, k, firstId, cr, noResult, noResultAt, results, acted, place, record);
            var c := RecordModel(record);
            var recs := if c in results then results[c] else [];
            var acts := if c in acted then acted[c] else [];
            results := results[c := recs + [record]];
            acted := acted[c := acts + [action]];
            place := place[action := (k, c, |acts|)];
        }
      } else {
        ProgressSkip(ps, pending, k, firstId, cr, noResult, noResultAt, results, acted, place);
      }
      k := k + 1;
    }
    if noResult {
      assert !Produces(EffectAt(ps, noResultAt, firstId, cr));
      failure := Some(NoResult);
    } else {
      failure := None;
    }
  }

  /**
    The second loop of `process`: for each model, save its records and give
    the i-th collected action the i-th record. Models are taken in any order.
  */
  method AssignResults(results: map<string, seq<Record>>, acted: map<string, seq<Action>>,
                       ghost place: map<Action, (nat, string, nat)>)
    requires results.Keys == acted.Keys
    requires forall c :: c in results ==> |results[c]| == |acted[c]|
    requires forall a :: a in place ==>
      place[a].1 in acted && place[a].2 < |acted[place[a].1]| && acted[place[a].1][place[a].2] == a
    requires forall c, t :: c in acted && 0 <= t < |acted[c]| ==>
      acted[c][t] in place && place[acted[c][t]].1 == c && place[acted[c][t]].2 == t
    modifies place.Keys
    ensures forall a :: a in place ==> a.result == Some(results[place[a].1][place[a].2])
  {
    var models := results.Keys;
    ghost var savedModels: set<string> := {};
    while models != {}
      invariant models !! savedModels && models + savedModels == results.Keys
      invariant forall a :: a in place && place[a].1 in savedModels ==> a.result == Some(results[place[a].1][place[a].2])
      decreases models
    {
      var c :| c in models;
      var records := results[c];
      // `record.save()` for each record is the host framework's persistence
      var t := 0;
      while t < |records|
        invariant 0 <= t <= |records|
        invariant forall a :: a in place && place[a].1 in savedModels ==> a.result == Some(results[place[a].1][place[a].2])
        invariant forall a :: a in place && place[a].1 == c && place[a].2 < t ==> a.result == Some(records[place[a].2])
      {
        var action := acted[c][t];
        action.result := Some(records[t]);
        t := t + 1;
      }
      models := models - {c};
      savedModels := savedModels + {c};
    }
  }

  /**
    `process`: run `do` for every action without a result, then give each
    such action the record its own `do` produced. An error raised by `do`,
    or a `do` that produced nothing, fails the call; the transaction is then
    rolled back, so no action gets a result.
  */
  method Process(complaints: seq<Complaint>, firstId: nat, cr: Crediting) returns (r: Outcome<Error>)
    requires DistinctActions(Pairs(complaints))
    modifies ActionsIn(Pairs(complaints))
    ensures var ps := Pairs(complaints); var pending := old(PendingOf(ps));
      r.Pass? <==> ProduceUpTo(ps, pending, |ps|, firstId, cr)
    ensures var ps := Pairs(complaints); var pending := old(PendingOf(ps));
      r.Pass? ==> forall k :: 0 <= k < |ps| && pending[k] ==> ps[k].1.result == EffectAt(ps, k, firstId, cr).value
    ensures r.Pass? ==> forall a :: a in ActionsIn(Pairs(complaints)) && old(a.result).Some? ==> a.result == old(a.result)
    ensures r.Fail? ==> unchanged(ActionsIn(Pairs(complaints)))
    ensures var ps := Pairs(complaints); var pending := old(PendingOf(ps));
      r.Fail? ==>
        || (exists k :: 0 <= k < |ps| && pending[k] && EffectAt(ps, k, firstId, cr) == Failure(r.error)
                        && SucceedUpTo(ps, pending, k, firstId, cr))
        || (r.error == NoResult && SucceedUpTo(ps, pending, |ps|, firstId, cr))
  {
    var ps := Pairs(complaints);
    ghost var pending := PendingOf(ps);
    var failure, results, acted, place := CollectResults(ps, pending, firstId, cr);
    if failure.Some? {
      return Fail(failure.value);
    }
    assert place.Keys <= ActionsIn(ps) by {
      forall a | a in place ensures a in ActionsIn(ps) {
        assert ps[place[a].0] in ps;
      }
    }
    AssignResults(results, acted, place);
    r := Pass;
  }

  /**
    A pending action whose kind was left empty raises in `do`, so `process`
    cannot pass on a batch that holds one.
  */
  lemma EmptyKindBlocksProcess(ps: seq<(Complaint, Action)>, pending: seq<bool>, k: nat, firstId: nat, cr: Crediting)
    requires k < |ps| == |pending| && pending[k] && ps[k].1.kind.None?
    ensures EffectAt(ps, k, firstId, cr) == Failure(NoHandler)
    ensures !ProduceUpTo(ps, pending, |ps|, firstId, cr)
  {
    assert !Produces(EffectAt(ps, k, firstId, cr));
  }

  /** The actions of a complaint respect the domain of its `actions` field. */
  predicate AdmittedActions(c: Complaint) {
    forall a :: a in c.actions ==> a.kind.Some? && a.kind.value in AllowedActions(OriginModel(c.origin))
  }

  /** When every action fits its complaint's origin and the invoice credit values carry taxes, every `do` of the batch produces a record. */
  lemma AdmittedBatchProduces(complaints: seq<Complaint>, firstId: nat, cr: Crediting)
    requires forall c :: c in complaints ==> AdmittedActions(c)
    requires forall inv :: "taxes" in cr.invoice(inv)
    ensures forall k :: 0 <= k < |Pairs(complaints)| ==> Produces(EffectAt(Pairs(complaints), k, firstId, cr))
  {
    var ps := Pairs(complaints);
    forall k | 0 <= k < |ps| ensures Produces(EffectAt(ps, k, firstId, cr)) {
      PairsBelong(complaints, k);
      var c := ps[k].0;
      var a := ps[k].1;
      AllowedActionProducesRecord(a.kind.value, a.saleLines, a.invoiceLines, Overrides(a.quantity, a.unitPrice),
                                  c.origin, c.id, firstId + k, cr);
    }
  }

  // ---------------------------------------------------------------------------
  // Deleting

  /** The check of `Complaint.delete`: the first complaint not in draft raises. */
  method CheckComplaintsDeletable(complaints: seq<Complaint>) returns (r: Outcome<Error>)
    ensures r.Pass? <==> forall c :: c in complaints ==> c.state == Draft
    ensures r.Fail? ==> exists k :: 0 <= k < |complaints| && complaints[k].state != Draft
                          && r.error == DeleteDraft(complaints[k].reference)
                          && forall j :: 0 <= j < k ==> complaints[j].state == Draft
  {
    for k := 0 to |complaints|
      invariant forall j :: 0 <= j < k ==> complaints[j].state == Draft
    {
      if complaints[k].state != Draft {
        return Fail(DeleteDraft(complaints[k].reference));
      }
    }
    return Pass;
  }

  /** The check of `Action.delete`: the first action with a result raises. */
  method CheckActionsDeletable(actions: seq<Action>) returns (r: Outcome<Error>)
    ensures r.Pass? <==> forall a :: a in actions ==> a.result.None?
    ensures r.Fail? ==> exists k :: 0 <= k < |actions| && actions[k].result.Some?
                          && r.error == DeleteResult(actions[k].id)
                          && forall j :: 0 <= j < k ==> actions[j].result.None?
  {
    for k := 0 to |actions|
      invariant forall j :: 0 <= j < k ==> actions[j].result.None?
    {
      if actions[k].result.Some? {
        return Fail(DeleteResult(actions[k].id));
      }
    }
    return Pass;
  }

  /** The stored complaints (by id) and actions, as far as deleting them goes. */
  class Storage {
    var complaints: map<nat, Complaint>
    var actions: set<Action>

    constructor ()
      ensures complaints == map[] && actions == {}
    {
      complaints := map[];
      actions := {};
    }

    /** `Complaint.delete`: the whole batch is checked first, so a refused batch deletes nothing. */
    method DeleteComplaints(batch: seq<Complaint>) returns (r: Outcome<Error>)
      modifies this
      ensures r.Pass? <==> forall c :: c in batch ==> c.state == Draft
      ensures r.Fail? ==> complaints == old(complaints)
      ensures r.Pass? ==> complaints == old(complaints) - set c | c in batch :: c.id
      ensures actions == old(actions)
    {
      r := CheckComplaintsDeletable(batch);
      if r.Pass? {
        complaints := complaints - set c | c in batch :: c.id;
      }
    }

    /** `Action.delete`: the whole batch is checked first, so a refused batch deletes nothing. */
    method DeleteActions(batch: seq<Action>) returns (r: Outcome<Error>)
      modifies this
      ensures r.Pass? <==> forall a :: a in batch ==> a.result.None?
      ensures r.Fail? ==> actions == old(actions)
      ensures r.Pass? ==> actions == old(actions) - set a | a in batch
      ensures complaints == old(complaints)
    {
      r := CheckActionsDeletable(batch);
      if r.Pass? {
        actions := actions - set a | a in batch;
      }
    }
  }

  // ---------------------------------------------------------------------------
  // Creating and copying

  /** A values dictionary holds a reference when its `reference` entry is truthy. */
  predicate HasReference(v: Values) {
    "reference" in v && Truthy(v["reference"])
  }

  /** A dictionary as `create` stores it, given the reference it would draw. */
  function Filled(v: Values, reference: string): (r: Values) {
    if HasReference(v) then v else v["reference" := Text(reference)]
  }

  /** How many of the first `n` dictionaries of a list lack a reference. */
  function MissingBefore(vlist: seq<Values>, n: nat): (m: nat)
    requires n <= |vlist|
  {
    if n == 0 then 0
    else MissingBefore(vlist, n - 1) + (if HasReference(vlist[n - 1]) then 0 else 1)
  }

  /**
    `Complaint.create`: every dictionary without a reference gets the next
    number of the complaint sequence, in list order; the others are kept.
    `next` is the sequence's next number and `format` the reference it
    renders for a number; the caller's list is not changed.
  */
  method Create(vlist: seq<Values>, next: nat, format: nat -> string) returns (created: seq<Values>, nextAfter: nat)
    ensures |created| == |vlist|
    ensures nextAfter == next + MissingBefore(vlist, |vlist|)
    ensures forall k {:trigger created[k]} :: 0 <= k < |vlist| && HasReference(vlist[k]) ==> created[k] == vlist[k]
    ensures forall k {:trigger created[k]} :: 0 <= k < |vlist| && !HasReference(vlist[k]) ==>
              created[k] == vlist[k]["reference" := Text(format(next + MissingBefore(vlist, k)))]
  {
    created := vlist;
    nextAfter := next;
    for k := 0 to |created|
      invariant |created| == |vlist|
      invariant nextAfter == next + MissingBefore(vlist, k)
      invariant forall j :: k <= j < |vlist| ==> created[j] == vlist[j]
      invariant forall j {:trigger created[j]} :: 0 <= j < k ==> created[j] == Filled(vlist[j], format(next + MissingBefore(vlist, j)))
    {
      if !HasReference(created[k]) {
        created := created[k := created[k]["reference" := Text(format(nextAfter))]];
        nextAfter := nextAfter + 1;
      }
    }
  }

  /** Two dictionaries filled by one `create` get different sequence numbers: the count of missing references grows past each one. */
  lemma {:induction false} MissingBeforeGrows(vlist: seq<Values>, j: nat, k: nat)
    requires j < k <= |vlist| && !HasReference(vlist[j])
    ensures MissingBefore(vlist, j) < MissingBefore(vlist, k)
  {
    if j < k - 1 {
      MissingBeforeGrows(vlist, j, k - 1);
    }
  }

  /** `Complaint.copy`'s default: the caller's default (or an empty one) with `reference` cleared. */
  function CopyDefault(defaults: Option<Values>): (r: Values)
    ensures "reference" in r && r["reference"] == Null
    ensures forall f :: f != "reference" ==> (f in r <==> defaults.Some? && f in defaults.value)
    ensures forall f :: f != "reference" && f in r ==> r[f] == defaults.value[f]
  {
    var d := if defaults.Some? then defaults.value else map[];
    d["reference" := Null]
  }

  /** A copied complaint never keeps its reference, so `create` always gives the copy a new one. */
  lemma CopyGetsNewReference(original: Values, defaults: Option<Values>)
    ensures !HasReference(original + CopyDefault(defaults))
  {
  }
}
