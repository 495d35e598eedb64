# Customer complaints of the Tryton sale module, in Dafny

A model of `complaint.py`, the "sale complaint" module of Tryton. A customer
complaint points at an origin: a sale, a sale line, a customer invoice or an
invoice line. It moves through a small workflow: draft, waiting, approved,
rejected, done, cancelled. Once approved, it is processed by running its
remediation actions. An action is either a *sale return* (a copy of the sale
with product quantities negated) or a *credit note* (built from the
invoice's credit values, without taxes).

Files:

- `wrappers.dfy`: `Option`, `Result` and `Outcome`.
- `workflow.dfy`, module `ComplaintWorkflow`:
  - the state machine and the transition table (as data);
  - what is reachable from where;
  - the form buttons and when they are shown.
- `records.dfy`, module `Records`: the host records reduced to datatypes. This covers sales, invoices and their lines, values dictionaries, produced records, and user errors.
- `actions_domain.dfy`, module `ActionsDomain`:
  - `_actions_domains`;
  - the domain expression that `__setup__` builds from it;
  - `get_origin`.
- `remedies.dfy`, module `Remedies`: what `do_sale_return` and `do_credit_note` produce, as functions on values, with lemmas.
- `complaint.dfy`, module `Complaints`:
  - the `Action` class, whose `result` is updated in place, with `do`, `do_sale_return` and `do_credit_note` as methods proved equal to the `Remedies` functions;
  - `process`, split into its two loops;
  - the delete guards and the `Storage` class they act on;
  - `create` and `copy`'s reference handling.

Framework calls are not modelled. Each one is either a parameter or a plain function:

- The credit values of `invoice._credit()` and `line._credit()` are the `Crediting` parameter.
- The next number of `Sequence.get_id` and its formatting are the `next` and `format` parameters of `Create`.
- The ids the ORM gives new records come from `firstId`, by pair position, in `Process`.
- `Sale.copy` and `Line.copy` are the functions `CopiedSale` and `CopySaleLine`.

## Model

| member | source | states |
|---|---|---|
| ComplaintWorkflow.Successors | complaint.py:95-106 | exactly the states the transition table allows a complaint in `s` to move to |
| ComplaintWorkflow.Sources | complaint.py:95-106 | exactly the states from which the table allows a move into `t` |
| ComplaintWorkflow.TerminalStates | complaint.py:95-106 | rejected is the only state with no outgoing transition; done can only go back to draft |
| ComplaintWorkflow.RunStaysInClosedSet | complaint.py:95-106 | a run of the workflow that starts in a set of states closed under the table never leaves it |
| ComplaintWorkflow.RejectedIsFinal | complaint.py:95-106 | from rejected, the only reachable state is rejected itself |
| ComplaintWorkflow.DefaultReachesEveryState | complaint.py:190-192 | from the default state (draft), every one of the six states is reachable |
| ComplaintWorkflow.BackToDraft | complaint.py:95-106 | a complaint can be brought back to draft if and only if it is not rejected |
| ComplaintWorkflow.ApprovalGuardsDone | complaint.py:95-106 | in any run from draft, done comes straight after approved, which comes straight after waiting |
| ComplaintWorkflow.ApproveShownOnDraftAsWritten | complaint.py:120-129 | as written, a user outside the sale-admin group sees "approve" on a draft complaint, although draft cannot move to approved |
| ComplaintWorkflow.ButtonsFollowTransitions | complaint.py:107-133 | cancel, draft, wait and process are visible exactly in the source states of their transitions; with approve/reject corrected, the same holds for sale admins, and other users never see them |
| Records.OriginModel | complaint.py:207-210 | the origin's model name is None exactly without an origin, and otherwise one of the four origin models |
| ActionsDomain.BuildActionsDomain | complaint.py:136-141 | the nested conditional built from the table admits, for every origin model, exactly the table's entry, or the no-origin entry when the model is absent; this holds in any dictionary order |
| ActionsDomain.AllowedActions | complaint.py:170-178 | sale and sale line admit only sale_return; invoice and invoice line admit only credit_note; any other origin and no origin admit nothing |
| ActionsDomain.GetOrigin | complaint.py:194-200 | no type gives an empty list; a type gives exactly two entries, the blank one first and then its origin model |
| ActionsDomain.SelectableOriginsAdmitOneAction | complaint.py:194-200 | every origin a valid complaint type offers admits exactly one kind of action; the blank entry admits none |
| Remedies.SaleReturnFromSale | complaint.py:695-718 | sale origin: one returned line per chosen line (all lines when none are chosen), attached to the new sale, product quantities negated, overrides ignored, sale linked to the complaint |
| Remedies.SaleReturnFromLine | complaint.py:700-716 | sale-line origin: exactly that line, with the action's quantity and unit price where not None, quantity negated for a product line |
| Remedies.NoSaleReturnWithoutSaleOrigin | complaint.py:695-713 | a return sale is produced if and only if the origin is a sale or a sale line |
| Remedies.ReturnNegatesProductQuantity | complaint.py:714-716 | returning the lines negates their total product quantity |
| Remedies.CreditNoteFromInvoice | complaint.py:725-748 | invoice origin: one credited line per chosen line (all when none are chosen), the invoice's credit values kept except taxes; missing taxes raise |
| Remedies.CreditNoteFromLine | complaint.py:729-743 | invoice-line origin: exactly that line's credit values, quantity and unit price replaced only where the action sets them |
| Remedies.AllowedActionProducesRecord | complaint.py:687-748 | an action produces a record, or fails on missing taxes, exactly when its kind is admitted for the origin's model; the record is a sale for a return and an invoice for a credit note |
| Complaints.Action.Do | complaint.py:687-688 | `do` yields what `do_<action>` yields for the action's kind; an action whose kind was left empty (the selection is optional) names no method, and `do` raises |
| Complaints.EmptyKindBlocksProcess | complaint.py:276-283 | a pending action with an empty kind raises in `do`, so `process` cannot pass on a batch that holds it |
| Complaints.Action.DoSaleReturn | complaint.py:690-718 | the imperative copy and sign-flip loop yields exactly `SaleReturnOf` |
| Complaints.Action.DoCreditNote | complaint.py:720-748 | the loop over the lines, the first-line overrides and the taxes deletion yield exactly `CreditNoteOf` |
| Complaints.PairsBelong | complaint.py:276-277 | each pair visited by `process` joins a complaint of the batch with one of its own actions |
| Complaints.CollectResults | complaint.py:275-283 | runs `do` on every action without a result, in order, and groups each record with its action by record model. It fails with the first error raised, or with NoResult when some `do` produced nothing |
| Complaints.AssignResults | complaint.py:284-289 | every collected action gets the record at its own position in its model's list |
| Complaints.Process | complaint.py:271-289 | passes if and only if every pending action produces a record. Then each pending action's result is the record its own `do` returned, and actions that already had a result keep it. On failure no action changes, and the error is the first one raised, or NoResult |
| Complaints.AdmittedBatchProduces | complaint.py:136-141 | when every action has a kind admitted for its complaint's origin and invoices carry taxes, every `do` of the batch produces a record, so `process` passes |
| Complaints.CheckComplaintsDeletable | complaint.py:234-238 | passes if and only if every complaint is in draft; otherwise the error names the first one that is not |
| Complaints.Storage.DeleteComplaints | complaint.py:234-239 | deletes the batch only if all of it is in draft; a refused batch deletes nothing |
| Complaints.CheckActionsDeletable | complaint.py:750-754 | passes if and only if no action has a result; otherwise the error names the first one that has |
| Complaints.Storage.DeleteActions | complaint.py:750-755 | deletes the actions only if none has a result; a refused batch deletes nothing |
| Complaints.Create | complaint.py:212-224 | dictionaries with a truthy reference are kept; each other one gets the sequence number counted from `next` by the missing references before it, in order; the sequence advances once per missing reference |
| Complaints.MissingBeforeGrows | complaint.py:219-223 | two dictionaries filled by one `create` draw different sequence numbers |
| Complaints.CopyDefault | complaint.py:226-232 | the copy default clears `reference` and keeps every other entry of the caller's default (none when it is None) |
| Complaints.CopyGetsNewReference | complaint.py:226-232 | a copied complaint never keeps a reference, so `create` always numbers it afresh |

## Left out

- `Complaint._validate` and `validate_origin_with_domain` / `_origin_domains`: they rest on the framework's domain evaluation and a database search count.
- Field declarations, `states`/`depends` expressions, `default_date`, `default_company`, `on_change_with_origin_id`, `on_change_with_unit`, `get_unit_digits`, `get_result`, and the draft button's icon are presentation or framework lookups.
- `Workflow.transition`: the framework decorator is not part of this model. So the buttons do not filter records by state, and `process` does not set the state to done. Only the table and the visibility guards are modelled.
- `Sequence.get_id`, `invoice._credit()`, `line._credit()` and `Invoice.update_taxes` are host calls. They are parameters, or they are left out (tax recomputation).
- `save`, `copy` and `create` of the ORM: records are values, and new records take ids from a parameter.
- Complaints.Process: the record ids are `firstId` plus the pair's position, not the database's ids.
- Complaints.Process: the model does not keep the order in which records are saved across models, because the dictionary order is arbitrary.
- Complaints.Process: the nested loops over complaints and their actions are flattened into the pair list `Pairs`.
- Complaints.Process: it requires that no action object occurs twice in the batch. This holds for the `actions` field of distinct complaints, but a batch that lists the same complaint twice is not covered.
- Complaints.Process: when some `do` returns None, the source crashes on `None.save()` and the transaction is rolled back. The model returns `Fail(NoResult)` and changes nothing.
- Complaints.Create: `format` stands for the sequence's prefix, padding and suffix. Distinct references for distinct numbers depend on it.
- Sale lines keep their position in the copy. The database's order by `sequence` is not modelled.
- Cascade deletion of a complaint's actions, and `model.py`, `sale.py` and the test harness, are not part of this model.

## Findings

| source | as written | input that shows it | evidently intended | confidence | as-written member | corrected member |
|---|---|---|---|---|---|---|
| complaint.py:120-129 | approve and reject are `invisible` when `~state.in_(['waiting']) & groups.contains(sale_admin)`, so they are hidden only when both hold | a draft complaint viewed by a user outside the sale-admin group: both buttons are shown, yet draft cannot move to approved or rejected | hidden unless the complaint is waiting and the user is a sale admin (`|` with the group test negated) | medium, not executed | ComplaintWorkflow.ApproveShownOnDraftAsWritten | ComplaintWorkflow.ButtonsFollowTransitions |
