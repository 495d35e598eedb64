/**
  Which remediation actions a complaint may carry, by the model of its origin:
  the `_actions_domains` table, the client-side domain that `__setup__` builds
  from it, and the origin selection a complaint type offers (`get_origin`).
*/
module ActionsDomain {
  import opened Wrappers
  import opened Records

  /** The selection values of an action's `action` field. */
  datatype ActionKind = SaleReturn | CreditNote

  /** `_actions_domains`: actions admitted per origin model; key None stands for "no origin". */
  function ActionsDomains(): (d: map<Option<string>, seq<ActionKind>>) {
    map[
      None := [],
      Some(SaleModel) := [SaleReturn],
      Some(SaleLineModel) := [SaleReturn],
      Some(InvoiceModel) := [CreditNote],
      Some(InvoiceLineModel) := [CreditNote]
    ]
  }

  /** The domain expression put on the complaint's `actions` field: nested conditionals on the origin model. */
  datatype DomainExpr =
    | Always(actions: seq<ActionKind>)
    | IfOriginIs(model: string, actions: seq<ActionKind>, otherwise: DomainExpr)

  /** The action list a domain expression admits for a complaint whose origin has the given model. */
  function Eval(d: DomainExpr, originModel: Option<string>): (r: seq<ActionKind>) {
    match d
    case Always(actions) => actions
    case IfOriginIs(model, actions, otherwise) =>
      if originModel == Some(model) then actions else Eval(otherwise, originModel)
  }

  /** The actions a table admits for an origin model, falling back on the entry for no origin. */
  function Lookup(domains: map<Option<string>, seq<ActionKind>>, originModel: Option<string>): (r: seq<ActionKind>)
    requires None in domains
  {
    if originModel in domains then domains[originModel] else domains[None]
  }

  /**
    The loop of `__setup__`: start from the entry for no origin and wrap one
    conditional per remaining model, in whatever order the dictionary yields
    them. Whatever that order, the expression admits exactly the table's entry.
  */
  method BuildActionsDomain(domains: map<Option<string>, seq<ActionKind>>) returns (d: DomainExpr)
    requires None in domains
    ensures forall om :: Eval(d, om) == Lookup(domains, om)
  {
    d := Always(domains[None]);
    var rest := domains.Keys - {None};
    ghost var added: set<Option<string>> := {};
    while rest != {}
      invariant rest !! added && rest + added == domains.Keys - {None}
      invariant forall om :: Eval(d, om) == if om in added then domains[om] else domains[None]
      decreases rest
    {
      var model :| model in rest;
      d := IfOriginIs(model.value, domains[model], d);
      rest := rest - {model};
      added := added + {model};
    }
  }

  /** The actions a complaint may carry, given the model of its origin. */
  function AllowedActions(originModel: Option<string>): (r: seq<ActionKind>)
    ensures |r| <= 1
    ensures SaleReturn in r <==> originModel == Some(SaleModel) || originModel == Some(SaleLineModel)
    ensures CreditNote in r <==> originModel == Some(InvoiceModel) || originModel == Some(InvoiceLineModel)
  {
    Lookup(ActionsDomains(), originModel)
  }

  /** A reference to a host model: its technical name and its label. */
  datatype ModelRef = ModelRef(model: string, name: string)

  /** A complaint type names the model its complaints originate from. */
  datatype ComplaintType = ComplaintType(name: string, origin: ModelRef)

  /** The `origin` field's domain on a complaint type: one of the four origin models. */
  predicate ValidType(t: ComplaintType) {
    t.origin.model in {SaleModel, SaleLineModel, InvoiceModel, InvoiceLineModel}
  }

  /** `get_origin`: the selectable origin models, a blank entry and the type's origin model; none without a type. */
  function GetOrigin(t: Option<ComplaintType>): (r: seq<(string, string)>)
    ensures t.None? ==> r == []
    ensures t.Some? ==> |r| == 2 && r[0] == ("", "") && r[1] == (t.value.origin.model, t.value.origin.name)
    ensures forall e :: e in r ==> e == ("", "") || (t.Some? && e == (t.value.origin.model, t.value.origin.name))
  {
    match t
    case None => []
    case Some(ty) => [("", ""), (ty.origin.model, ty.origin.name)]
  }

  /** Whatever origin a valid type lets the user select, exactly one kind of action fits it (none for the blank entry). */
  lemma SelectableOriginsAdmitOneAction(t: ComplaintType, e: (string, string))
    requires ValidType(t) && e in GetOrigin(Some(t))
    ensures e.0 == "" ==> AllowedActions(None) == []
    ensures e.0 != "" ==> |AllowedActions(Some(e.0))| == 1
  {
    if e.0 != "" {
      assert e.0 == t.origin.model;
      var r := AllowedActions(Some(e.0));
      assert SaleReturn in r || CreditNote in r;
    }
  }
}
