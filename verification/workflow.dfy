/** The approval engine of a request card: the four permission predicates, the five
    action handlers that build a patch, and `Attempt`, which applies an action the way
    the card's buttons do. */
module Workflow {
  import opened Wrappers
  import opened Model
  import Decimal

  // ---------------------------------------------------------------------------
  // Permission predicates

  predicate CanForward(r: Request, u: User) {
    u.role == Facilitator && r.status == PendingFacilitator
  }

  predicate CanCoord(r: Request, u: User) {
    u.role == Coordinator && r.status == PendingCoordinator && r.funder in FundScope(u)
  }

  predicate CanPI(r: Request, u: User) {
    u.role == PI && r.status == PendingPI
  }

  predicate CanFin(r: Request, u: User) {
    u.role == Finance && r.status == ApprovedForFinance
  }

  /** Who sees the approval letter's "Save & Approve" button: checks the role only. */
  predicate CanEditLetter(u: User) {
    u.role == PI || u.role == Admin
  }

  // ---------------------------------------------------------------------------
  // Action handlers. Each builds the patch it hands to the store, or `None` when it
  // returns early without patching.

  const ForwardedLabel := "Forwarded"
  const CoordApprovedLabel := "Coordinator approved"
  const PiApprovedLabel := "PI approved"
  const PaidPrefix := "Finance paid "
  const RejectedPrefix := "Rejected: "

  function DoForward(r: Request, u: User, at: string): Patch {
    Patch(Some(PendingCoordinator), Some(r.history + [Entry(u, ForwardedLabel, at)]), None, None)
  }

  function DoCoordApprove(r: Request, u: User, at: string): Patch {
    Patch(Some(PendingPI), Some(r.history + [Entry(u, CoordApprovedLabel, at)]), None, None)
  }

  /** `editedLetter || defaultLetter(r, user)`: the edited text unless it is empty. */
  function LetterOf(r: Request, u: User, editedLetter: string, defaultLetter: (Request, User) -> string): string {
    if editedLetter != "" then editedLetter else defaultLetter(r, u)
  }

  function DoPiApprove(r: Request, u: User, editedLetter: string, defaultLetter: (Request, User) -> string, at: string): Patch {
    Patch(Some(ApprovedForFinance),
          Some(r.history + [Entry(u, PiApprovedLabel, at)]),
          Some(LetterOf(r, u, editedLetter, defaultLetter)),
          None)
  }

  function DoFinancePaid(r: Request, u: User, amount: NumberInput, at: string): Option<Patch> {
    match amount
    case NaN => None
    case Num(n) => Some(Patch(Some(Paid), Some(r.history + [Entry(u, PaidPrefix + Decimal.IntText(n), at)]), None, Some(n)))
  }

  /** `if (!reason) return`: a cancelled prompt (`None`) and an empty reason stop here. */
  function DoReject(r: Request, u: User, reason: Option<string>, at: string): Option<Patch> {
    if reason.None? || reason.value == "" then None
    else Some(Patch(Some(Rejected), Some(r.history + [Entry(u, RejectedPrefix + reason.value, at)]), None, None))
  }

  // ---------------------------------------------------------------------------
  // Attempting an action

  /** The card's action buttons with the payload each one collects. `PiApprove` is the
      "PI Approve" action button; `LetterApprove` is the "Save & Approve to Finance"
      button under the approval letter. Both run the same handler. */
  datatype Action =
    | Forward
    | CoordApprove
    | PiApprove(editedLetter: string)
    | LetterApprove(editedLetter: string)
    | MarkPaid(amount: NumberInput)
    | Reject(reason: Option<string>)

  /** Why nothing happened: the button is not offered to this user for this request,
      or the handler returned early on its payload. */
  datatype Refusal = NotPermitted | Cancelled

  /** Whether the card offers `a` to `u` on `r`. */
  predicate Permitted(r: Request, u: User, a: Action) {
    match a
    case Forward => CanForward(r, u)
    case CoordApprove => CanCoord(r, u)
    case PiApprove(_) => CanPI(r, u)
    case LetterApprove(_) => CanEditLetter(u)
    case MarkPaid(_) => CanFin(r, u)
    case Reject(_) => true
  }

  /** The patch the handler behind `a` produces. */
  function PatchFor(r: Request, u: User, a: Action, at: string, defaultLetter: (Request, User) -> string): Option<Patch> {
    match a
    case Forward => Some(DoForward(r, u, at))
    case CoordApprove => Some(DoCoordApprove(r, u, at))
    case PiApprove(letter) => Some(DoPiApprove(r, u, letter, defaultLetter, at))
    case LetterApprove(letter) => Some(DoPiApprove(r, u, letter, defaultLetter, at))
    case MarkPaid(amount) => DoFinancePaid(r, u, amount, at)
    case Reject(reason) => DoReject(r, u, reason, at)
  }

  // The transition table, stated independently of the handlers.

  /** Whether the payload lets the handler go through. */
  predicate PayloadAccepted(a: Action) {
    match a
    case MarkPaid(amount) => amount.Num?
    case Reject(reason) => reason.Some? && reason.value != ""
    case _ => true
  }

  function TargetStatus(a: Action): Status {
    match a
    case Forward => PendingCoordinator
    case CoordApprove => PendingPI
    case PiApprove(_) => ApprovedForFinance
    case LetterApprove(_) => ApprovedForFinance
    case MarkPaid(_) => Paid
    case Reject(_) => Rejected
  }

  function ActionLabel(a: Action): string {
    match a
    case Forward => "Forwarded"
    case CoordApprove => "Coordinator approved"
    case PiApprove(_) => "PI approved"
    case LetterApprove(_) => "PI approved"
    case MarkPaid(amount) => "Finance paid " + (if amount.Num? then Decimal.IntText(amount.n) else "NaN")
    case Reject(reason) => "Rejected: " + reason.GetOr("")
  }

  /** `r'` is `r` after `u` performed `a` at time `at`: the table's status, exactly one
      new history entry behind the old ones, the letter or payment the action records,
      and nothing else changed. */
  predicate Applied(r: Request, u: User, a: Action, at: string, defaultLetter: (Request, User) -> string, r': Request) {
    && r'.status == TargetStatus(a)
    && r'.history == r.history + [HistoryEntry(u.name, u.role, ActionLabel(a), at)]
    && SameRequestData(r, r')
    && r'.approvalLetter ==
       (match a
        case PiApprove(letter) => Some(if letter == "" then defaultLetter(r, u) else letter)
        case LetterApprove(letter) => Some(if letter == "" then defaultLetter(r, u) else letter)
        case _ => r.approvalLetter)
    && r'.reimbursed == (if a.MarkPaid? && a.amount.Num? then a.amount.n else r.reimbursed)
  }

  /** Clicking the button for `a`: refused when the card does not offer it, a no-op when
      the handler returns early, otherwise the request with the handler's patch merged. */
  function Attempt(r: Request, u: User, a: Action, at: string, defaultLetter: (Request, User) -> string): (res: Result<Request, Refusal>)
    ensures res == Failure(NotPermitted) <==> !Permitted(r, u, a)
    ensures res == Failure(Cancelled) <==> Permitted(r, u, a) && !PayloadAccepted(a)
    ensures res.Success? <==> Permitted(r, u, a) && PayloadAccepted(a)
    ensures res.Success? ==> Applied(r, u, a, at, defaultLetter, res.value)
  {
    if !Permitted(r, u, a) then Failure(NotPermitted)
    else match PatchFor(r, u, a, at, defaultLetter)
      case None => Failure(Cancelled)
      case Some(p) => Success(Merge(r, p))
  }

  /** The request after the attempt: the new value on success, `r` itself otherwise. */
  function Outcome(r: Request, u: User, a: Action, at: string, defaultLetter: (Request, User) -> string): Request {
    match Attempt(r, u, a, at, defaultLetter)
    case Success(r') => r'
    case Failure(_) => r
  }

  // ---------------------------------------------------------------------------
  // Properties of single actions

  /** The approval chain's order; `Rejected` sits after `Paid` as the other end. */
  function Rank(s: Status): nat {
    match s
    case PendingFacilitator => 0
    case PendingCoordinator => 1
    case PendingPI => 2
    case ApprovedForFinance => 3
    case Paid => 4
    case Rejected => 5
  }

  /** The actions whose button is gated by both role and status. */
  predicate Guarded(a: Action) {
    a.Forward? || a.CoordApprove? || a.PiApprove? || a.MarkPaid?
  }

  /** The status from which a guarded action may start. */
  function RequiredStatus(a: Action): Status
    requires Guarded(a)
  {
    match a
    case Forward => PendingFacilitator
    case CoordApprove => PendingCoordinator
    case PiApprove(_) => PendingPI
    case MarkPaid(_) => ApprovedForFinance
  }

  /** The role a guarded action demands. */
  function RequiredRole(a: Action): Role
    requires Guarded(a)
  {
    match a
    case Forward => Facilitator
    case CoordApprove => Coordinator
    case PiApprove(_) => PI
    case MarkPaid(_) => Finance
  }

  /** A guarded action is offered exactly to its role, in its status, and for a
      Coordinator only on a funder in scope. */
  lemma GuardedPermission(r: Request, u: User, a: Action)
    requires Guarded(a)
    ensures Permitted(r, u, a) <==>
      && u.role == RequiredRole(a)
      && r.status == RequiredStatus(a)
      && (a.CoordApprove? ==> r.funder in FundScope(u))
  {
  }

  /** A successful guarded action moves the request exactly one stage along the chain. */
  lemma GuardedStepAdvancesOneStage(r: Request, u: User, a: Action, at: string, defaultLetter: (Request, User) -> string)
    requires Guarded(a)
    requires Attempt(r, u, a, at, defaultLetter).Success?
    ensures Rank(Attempt(r, u, a, at, defaultLetter).value.status) == Rank(r.status) + 1
  {
  }

  /** Retrying a guarded action on the request it produced is refused, whoever retries
      and whatever payload they give: no second history entry, no second payment. */
  lemma RetryRefused(r: Request, u: User, a: Action, at: string, defaultLetter: (Request, User) -> string,
                     u': User, a': Action, at': string, defaultLetter': (Request, User) -> string)
    requires Guarded(a) && Guarded(a') && RequiredStatus(a') == RequiredStatus(a)
    requires Attempt(r, u, a, at, defaultLetter).Success?
    ensures Attempt(Attempt(r, u, a, at, defaultLetter).value, u', a', at', defaultLetter') == Failure(NotPermitted)
  {
  }

  /** A Coordinator without fund sources can never approve. */
  lemma NoFundSourcesNoCoordApproval(r: Request, u: User, at: string, defaultLetter: (Request, User) -> string)
    requires u.fundSources.None? || u.fundSources == Some([])
    ensures Attempt(r, u, CoordApprove, at, defaultLetter) == Failure(NotPermitted)
  {
  }

  /** Paid and Rejected requests admit no guarded action. */
  lemma TerminalRefusesGuarded(r: Request, u: User, a: Action, at: string, defaultLetter: (Request, User) -> string)
    requires r.status == Paid || r.status == Rejected
    requires Guarded(a)
    ensures Attempt(r, u, a, at, defaultLetter) == Failure(NotPermitted)
  {
  }

  /** The payment recorded in the audit trail reads back as the amount paid. */
  lemma PaidEntryRecordsAmount(r: Request, u: User, n: int, at: string, defaultLetter: (Request, User) -> string)
    requires CanFin(r, u)
    ensures var r' := Attempt(r, u, MarkPaid(Num(n)), at, defaultLetter).value;
      && r'.reimbursed == n
      && r'.history[|r.history|].action[..|PaidPrefix|] == PaidPrefix
      && Decimal.ParseInt(r'.history[|r.history|].action[|PaidPrefix|..]) == n
  {
    var r' := Attempt(r, u, MarkPaid(Num(n)), at, defaultLetter).value;
    var action := r'.history[|r.history|].action;
    assert action == PaidPrefix + Decimal.IntText(n);
    assert action[|PaidPrefix|..] == Decimal.IntText(n);
    Decimal.ParseIntText(n);
  }

  /** Reject has no role or status check on the card: any user who sees the request's
      card can reject it, a Paid or Rejected one included, as long as the reason is not
      empty. Which cards a user sees is decided by the dashboard's view (`Store.Act`). */
  lemma RejectUnguarded(r: Request, u: User, reason: string, at: string, defaultLetter: (Request, User) -> string)
    requires reason != ""
    ensures var res := Attempt(r, u, Reject(Some(reason)), at, defaultLetter);
      && res.Success?
      && res.value.status == Rejected
      && res.value.history == r.history + [Entry(u, RejectedPrefix + reason, at)]
  {
  }

  /** The letter's "Save & Approve" button checks only the role, so a PI or Admin sends a
      Paid request back to "Approved for Finance": the chain runs backwards. */
  lemma LetterApproveReopensPaid(r: Request, u: User, letter: string, at: string, defaultLetter: (Request, User) -> string)
    requires r.status == Paid
    requires u.role == PI || u.role == Admin
    ensures var res := Attempt(r, u, LetterApprove(letter), at, defaultLetter);
      && res.Success?
      && res.value.status == ApprovedForFinance
      && Rank(res.value.status) < Rank(r.status)
  {
  }

  // ---------------------------------------------------------------------------
  // Runs of several actions

  datatype Step = Step(actor: User, action: Action, at: string)

  /** The request after the steps in order; refused and cancelled steps leave it as it is. */
  function Run(r: Request, steps: seq<Step>, defaultLetter: (Request, User) -> string): Request
    decreases |steps|
  {
    if |steps| == 0 then r
    else Run(Outcome(r, steps[0].actor, steps[0].action, steps[0].at, defaultLetter), steps[1..], defaultLetter)
  }

  /** The number of steps that go through. */
  function Successes(r: Request, steps: seq<Step>, defaultLetter: (Request, User) -> string): nat
    decreases |steps|
  {
    if |steps| == 0 then 0
    else
      var ok := Attempt(r, steps[0].actor, steps[0].action, steps[0].at, defaultLetter).Success?;
      (if ok then 1 else 0)
      + Successes(Outcome(r, steps[0].actor, steps[0].action, steps[0].at, defaultLetter), steps[1..], defaultLetter)
  }

  /** History is append-only across any run: the old trail is a prefix of the new one,
      which grows by exactly one entry per step that went through; the request data
      never changes. */
  lemma {:induction false} RunAppendsHistory(r: Request, steps: seq<Step>, defaultLetter: (Request, User) -> string)
    ensures var r' := Run(r, steps, defaultLetter);
      && r.history <= r'.history
      && |r'.history| == |r.history| + Successes(r, steps, defaultLetter)
      && SameRequestData(r, r')
    decreases |steps|
  {
    if |steps| > 0 {
      var r1 := Outcome(r, steps[0].actor, steps[0].action, steps[0].at, defaultLetter);
      RunAppendsHistory(r1, steps[1..], defaultLetter);
    }
  }

  /** Runs made only of guarded actions never move a request backwards. */
  lemma {:induction false} GuardedRunMonotone(r: Request, steps: seq<Step>, defaultLetter: (Request, User) -> string)
    requires forall i :: 0 <= i < |steps| ==> Guarded(steps[i].action)
    ensures Rank(Run(r, steps, defaultLetter).status) >= Rank(r.status)
    ensures r.status != Rejected ==> Run(r, steps, defaultLetter).status != Rejected
    decreases |steps|
  {
    if |steps| > 0 {
      var r1 := Outcome(r, steps[0].actor, steps[0].action, steps[0].at, defaultLetter);
      assert Guarded(steps[0].action);
      GuardedRunMonotone(r1, steps[1..], defaultLetter);
    }
  }

  /** A guarded run climbs exactly one stage per step that goes through, so reaching Paid
      from a new request takes exactly four successful steps. */
  lemma {:induction false} GuardedRunStageBound(r: Request, steps: seq<Step>, defaultLetter: (Request, User) -> string)
    requires forall i :: 0 <= i < |steps| ==> Guarded(steps[i].action)
    ensures Rank(Run(r, steps, defaultLetter).status) == Rank(r.status) + Successes(r, steps, defaultLetter)
    decreases |steps|
  {
    if |steps| > 0 {
      var r1 := Outcome(r, steps[0].actor, steps[0].action, steps[0].at, defaultLetter);
      assert Guarded(steps[0].action);
      GuardedRunStageBound(r1, steps[1..], defaultLetter);
    }
  }
}
