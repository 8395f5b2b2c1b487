/** The request form: adding an item to the draft list and submitting the draft as a
    new request. */
module Builder {
  import opened Wrappers
  import opened Model
  import Workflow

  /** `Number(newItem.amount) || 0`: an amount that is not a number counts as 0. */
  function CoerceAmount(x: NumberInput): int {
    match x
    case Num(n) => n
    case NaN => 0
  }

  /** `addItem`: refused without a category; otherwise the new item goes in front of
      the draft items, with its amount coerced. */
  function AddItem(draft: seq<Item>, id: string, category: string, amount: NumberInput,
                   templateData: map<string, string>): (r: seq<Item>)
    ensures category == "" ==> r == draft
    ensures category != "" ==> |r| == |draft| + 1 && r[1..] == draft
    ensures category != "" ==> r[0].id == id && r[0].category == category && r[0].templateData == templateData
    ensures category != "" ==> r[0].amount == Some(CoerceAmount(amount))
    ensures SumAmounts(r) == SumAmounts(draft) + (if category == "" then 0 else CoerceAmount(amount))
  {
    if category == "" then draft
    else [Item(id, category, Some(CoerceAmount(amount)), templateData)] + draft
  }

  /** The form's funder, program and notes fields. */
  datatype Meta = Meta(funder: string, program: string, notes: string)

  const SubmittedLabel := "Submitted"

  /** `submit`: nothing is created from an empty draft. `createdAt` and `at` are the two
      clock readings the form takes. */
  function Submit(items: seq<Item>, meta: Meta, u: User, id: string, createdAt: string, at: string): (r: Option<Request>)
    ensures r.None? <==> |items| == 0
    ensures r.Some? ==> IsFreshSubmission(r.value, items, meta, u, id)
    ensures r.Some? ==> r.value.history == [Entry(u, "Submitted", at)]
    ensures r.Some? ==> r.value.createdAt == createdAt
  {
    if |items| == 0 then None
    else Some(Request(id, createdAt, u.id, u.name, items, meta.funder, meta.program, meta.notes,
                      PendingFacilitator, [Entry(u, SubmittedLabel, at)], [], None, map[], 0))
  }

  /** A request as it leaves the form: the draft's items and meta data, credited to its
      author, waiting for the Facilitator, with nothing paid, attached, signed or
      approved yet. */
  predicate IsFreshSubmission(r: Request, items: seq<Item>, meta: Meta, u: User, id: string) {
    && r.id == id
    && r.items == items && |r.items| > 0
    && r.createdBy == u.id && r.createdByName == u.name
    && r.funder == meta.funder && r.program == meta.program && r.overallNotes == meta.notes
    && r.status == PendingFacilitator
    && |r.history| == 1
    && r.files == [] && r.signatures == map[] && r.approvalLetter == None
    && r.reimbursed == 0
  }

  /** A fresh submission admits exactly one guarded action, the Facilitator's Forward. */
  lemma FreshSubmissionAwaitsFacilitator(r: Request, items: seq<Item>, meta: Meta, u: User, id: string,
                                         actor: User, a: Workflow.Action)
    requires IsFreshSubmission(r, items, meta, u, id)
    requires Workflow.Guarded(a)
    ensures Workflow.Permitted(r, actor, a) <==> a.Forward? && actor.role == Facilitator
  {
  }
}
