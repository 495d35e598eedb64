/**
  The life cycle of a customer complaint: the six values of its `state`
  field, the workflow transition table registered in `Complaint.__setup__`,
  and the form buttons that fire those transitions.
*/
module ComplaintWorkflow {

  /** The selection values of the complaint's `state` field. */
  datatype State = Draft | Waiting | Approved | Rejected | Done | Cancelled

  /** A new complaint starts in draft (`default_state`). */
  function DefaultState(): (s: State) { Draft }

  /** The workflow transition table, as data. */
  const Transitions: set<(State, State)> := {
    (Draft, Waiting),
    (Waiting, Draft),
    (Waiting, Approved),
    (Waiting, Rejected),
    (Approved, Done),
    (Draft, Cancelled),
    (Waiting, Cancelled),
    (Done, Draft),
    (Cancelled, Draft)
  }

  predicate CanTransition(from: State, to: State) {
    (from, to) in Transitions
  }

  /** Every state a complaint may be in. */
  const AllStates: set<State> := {Draft, Waiting, Approved, Rejected, Done, Cancelled}

  /** The states a complaint in `s` may move to next. */
  function Successors(s: State): (r: set<State>)
    ensures forall t :: t in r <==> CanTransition(s, t)
  {
    set t | t in AllStates && CanTransition(s, t)
  }

  /** The states from which the table allows a move into `t`. */
  function Sources(t: State): (r: set<State>)
    ensures forall s :: s in r <==> CanTransition(s, t)
  {
    set s | s in AllStates && CanTransition(s, t)
  }

  /** Rejected is the only state with no way out; done can only be reopened as a draft. */
  lemma {:induction false} TerminalStates(s: State)
    ensures Successors(s) == {} <==> s == Rejected
    ensures Successors(Done) == {Draft}
  {
    if s != Rejected {
      var t := match s
        case Draft => Waiting
        case Waiting => Draft
        case Approved => Done
        case Done => Draft
        case Cancelled => Draft
        case Rejected => Rejected;
      assert t in Successors(s);
    }
    assert Draft in Successors(Done);
  }

  // ---------------------------------------------------------------------------
  // Runs of the workflow and what can be reached

  /** A run: each consecutive pair of states is a move the table allows. */
  predicate IsRun(p: seq<State>) {
    forall i :: 0 <= i < |p| - 1 ==> CanTransition(p[i], p[i + 1])
  }

  ghost predicate Reachable(s: State, t: State) {
    exists p :: IsRun(p) && |p| > 0 && p[0] == s && p[|p| - 1] == t
  }

  /** A set of states the table never leaves. */
  predicate ClosedUnderTransitions(ss: set<State>) {
    forall a, b :: (a, b) in Transitions && a in ss ==> b in ss
  }

  /** A run that starts inside a closed set of states never leaves it. */
  lemma {:induction false} RunStaysInClosedSet(p: seq<State>, ss: set<State>)
    requires IsRun(p) && |p| > 0 && p[0] in ss
    requires ClosedUnderTransitions(ss)
    ensures forall i :: 0 <= i < |p| ==> p[i] in ss
  {
    if |p| > 1 {
      assert CanTransition(p[0], p[1]);
      var rest := p[1..];
      assert IsRun(rest) by {
        forall i | 0 <= i < |rest| - 1 ensures CanTransition(rest[i], rest[i + 1]) {
          assert rest[i] == p[i + 1] && rest[i + 1] == p[i + 2];
        }
      }
      RunStaysInClosedSet(rest, ss);
      forall i | 0 <= i < |p| ensures p[i] in ss {
        if i > 0 { assert p[i] == rest[i - 1]; }
      }
    }
  }

  /** Once rejected, a complaint stays rejected. */
  lemma RejectedIsFinal(t: State)
    ensures Reachable(Rejected, t) <==> t == Rejected
  {
    if Reachable(Rejected, t) {
      var p :| IsRun(p) && |p| > 0 && p[0] == Rejected && p[|p| - 1] == t;
      RunStaysInClosedSet(p, {Rejected});
    }
    assert IsRun([Rejected]);
  }

  /** From the default state every state of the workflow can be reached. */
  lemma DefaultReachesEveryState(t: State)
    ensures Reachable(DefaultState(), t)
  {
    var p := match t
      case Draft => [Draft]
      case Waiting => [Draft, Waiting]
      case Approved => [Draft, Waiting, Approved]
      case Rejected => [Draft, Waiting, Rejected]
      case Done => [Draft, Waiting, Approved, Done]
      case Cancelled => [Draft, Cancelled];
    assert IsRun(p);
  }

  /** Every complaint that is not rejected can be brought back to draft. */
  lemma BackToDraft(s: State)
    ensures Reachable(s, Draft) <==> s != Rejected
  {
    if s == Rejected {
      RejectedIsFinal(Draft);
    } else {
      var p := match s
        case Draft => [Draft]
        case Waiting => [Waiting, Draft]
        case Approved => [Approved, Done, Draft]
        case Done => [Done, Draft]
        case Cancelled => [Cancelled, Draft]
        case Rejected => [Rejected];
      assert IsRun(p);
    }
  }

  /** A complaint is only processed (done) straight after approval, which itself needs waiting. */
  lemma ApprovalGuardsDone(p: seq<State>, j: int)
    requires IsRun(p) && 0 <= j < |p| && p[0] == Draft && p[j] == Done
    ensures j >= 2 && p[j - 1] == Approved && p[j - 2] == Waiting
  {
    assert CanTransition(p[j - 1], p[j]);
    assert CanTransition(p[j - 2], p[j - 1]);
  }

  // ---------------------------------------------------------------------------
  // Form buttons

  /** The buttons on the complaint form; each one fires a transition into its target. */
  datatype Button = CancelButton | DraftButton | WaitButton | ApproveButton | RejectButton | ProcessButton

  /** The state each button's workflow transition moves to. */
  function Target(b: Button): (t: State) {
    match b
    case CancelButton => Cancelled
    case DraftButton => Draft
    case WaitButton => Waiting
    case ApproveButton => Approved
    case RejectButton => Rejected
    case ProcessButton => Done
  }

  /**
    The buttons' visibility as the form states it. For approve and reject the
    `invisible` condition is "not waiting AND the user is a sale administrator",
    so a user outside that group sees both buttons in every state.
  */
  predicate VisibleAsWritten(b: Button, s: State, saleAdmin: bool) {
    match b
    case CancelButton => s in {Draft, Waiting}
    case DraftButton => s in {Waiting, Done, Cancelled}
    case WaitButton => s == Draft
    case ApproveButton => !(s != Waiting && saleAdmin)
    case RejectButton => !(s != Waiting && saleAdmin)
    case ProcessButton => s == Approved
  }

  /** Concrete case: a draft complaint shows "approve" to a user outside the admin group, yet draft cannot move to approved. */
  lemma ApproveShownOnDraftAsWritten()
    ensures VisibleAsWritten(ApproveButton, Draft, false)
    ensures !CanTransition(Draft, Target(ApproveButton))
  {
  }

  /**
    The corrected visibility: approve and reject show only on a waiting
    complaint, and only to a sale administrator; the other buttons are as written.
  */
  predicate Visible(b: Button, s: State, saleAdmin: bool) {
    match b
    case ApproveButton => s == Waiting && saleAdmin
    case RejectButton => s == Waiting && saleAdmin
    case _ => VisibleAsWritten(b, s, saleAdmin)
  }

  /**
    A button is shown exactly in the source states of its transition; for
    approve and reject this holds for sale administrators, and other users
    never see them.
  */
  lemma ButtonsFollowTransitions(b: Button, s: State, saleAdmin: bool)
    ensures Visible(b, s, saleAdmin) ==> s in Sources(Target(b))
    ensures (saleAdmin || (b != ApproveButton && b != RejectButton))
              ==> (Visible(b, s, saleAdmin) <==> s in Sources(Target(b)))
    ensures !saleAdmin && (b == ApproveButton || b == RejectButton) ==> !Visible(b, s, saleAdmin)
  {
  }
}
