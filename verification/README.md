# SLL360 SRAT approval engine in Dafny

SLL360 SRAT is a small React application in which field staff submit itemised
reimbursement requests. Each request then passes an approval chain:

    Pending Facilitator -> Pending Coordinator -> Pending PI -> Approved for Finance -> Paid

`Rejected` is a side exit. This project models the engine inside the application's
components as pure Dafny functions over immutable values. It covers:

- the request, item, user and audit-trail records;
- the four permission predicates of a request card (`canForward`, `canCoord`, `canPI`, `canFin`);
- the five action handlers (`doForward`, `doCoordApprove`, `doPiApprove`, `doFinancePaid`, `doReject`), each of which builds a patch;
- the dashboard's `saveRequest`, `patchRequest` and `visibleRequests`;
- the request form's `addItem` and `submit`;
- `totalAmount`;
- the Admin template editor's `addField` and `changeField`.

Modules:

- `Wrappers` (`wrappers.dfy`): `Option` and `Result`.
- `Seqs` (`seqs.dfy`): order-preserving `Filter`, and the subsequence relation it establishes.
- `Decimal` (`decimal.dfy`): decimal text of an integer, as a template literal renders it, with its parser.
- `Model` (`model.dfy`): datatypes; `Merge`, the object spread `{ ...r, ...patch }`; the request total.
- `Workflow` (`workflow.dfy`): guards, handlers, `Attempt` (one button click), `Run` (a sequence of clicks), and the properties of both.
- `Store` (`store.dfy`): the request list operations and the visibility filter.
- `Builder` (`builder.dfy`): adding items and submitting a request.
- `Templates` (`templates.dfy`): the template catalog edits.
- `Scenarios` (`scenarios.dfy`): runs with the seeded demo users.

Each handler is a function of the request, the acting user and the payload its prompt or
form collects. The clock reading and the letter generator `defaultLetter` are parameters.
`Attempt` models one request card. It applies an action only when that card would render
its button:

- Forward, Coordinator approval, PI approval and Mark Paid are gated by the four predicates.
- The "Save & Approve to Finance" button under the approval letter (`LetterApprove`) checks only that the user is PI or Admin.
- The Reject button has no check of its own.

The dashboard renders a card only for a request in the user's view. `Store.Act` models a
click on a card in the list, so every action, Reject included, is scoped by the view:

- Field Staff can act only on their own requests.
- A Coordinator can act only on requests whose funder is in their fund sources.
- A user of any other role outside the six can act on nothing.

The model keeps both unguarded paths as they are written. Two lemmas show what they allow:

- `Workflow.LetterApproveReopensPaid`: a Paid request can be sent back to "Approved for Finance".
- `Scenarios.SecondPaymentThroughLetterButton`: after that, Finance can pay the request a second time.

An approval chain like this one would usually be expected to behave differently on three
points. The model follows the code on each:

- Reject: one would expect it to be offered only to the role that holds the current
  status's action, and only before Paid or Rejected. The code offers it to every user on
  every request in their view, in every status; its only check is that the reason is
  not empty.
- PI approval: one would expect it only from "Pending PI". The code's PI action requires
  role PI and that status, but the letter button lets PI or Admin approve from any status.
- Payment: one would expect a non-negative amount. The code accepts any number, negative
  ones included.

## Model

| member | source | states |
|---|---|---|
| `Model.Merge` | sll_360_srat_split_react_files_easy_to_read.jsx:130 | fields present in the patch override the request's; every other field, and all request data (items, funder, creator, files, signatures), is kept |
| `Model.TotalAmount` | sll_360_srat_split_react_files_easy_to_read.jsx:366 | the left-to-right reduce equals the sum of the item amounts, with a missing amount counted as 0 |
| `Workflow.Attempt` | sll_360_srat_split_react_files_easy_to_read.jsx:300-314 | one card click through the guards `CanForward`, `CanCoord`, `CanPI`, `CanFin` (311-314) and the handlers `DoForward`, `DoCoordApprove`, `DoPiApprove`, `DoFinancePaid`, `DoReject` (300-304), which this row covers: refused exactly when the card does not offer the action; a no-op exactly when the payload is a NaN amount or an empty or cancelled reason. Otherwise it follows the transition table: target status, one history entry `{who, role, action, at}` behind the unchanged old trail, letter set to the edited text or else the default letter, `reimbursed` set to the paid amount, request data unchanged |
| `Workflow.GuardedPermission` | sll_360_srat_split_react_files_easy_to_read.jsx:311-314 | a gated action is offered exactly to its one role, in its one status, and for a Coordinator only when the request's funder is in their fund sources |
| `Workflow.GuardedStepAdvancesOneStage` | sll_360_srat_split_react_files_easy_to_read.jsx:300-303 | a successful gated action moves the request exactly one stage along the chain |
| `Workflow.RetryRefused` | sll_360_srat_split_react_files_easy_to_read.jsx:300-314 | repeating a gated action on the request it produced is refused, for any actor and any payload |
| `Workflow.NoFundSourcesNoCoordApproval` | sll_360_srat_split_react_files_easy_to_read.jsx:312 | a Coordinator with absent or empty fund sources can never approve |
| `Workflow.TerminalRefusesGuarded` | sll_360_srat_split_react_files_easy_to_read.jsx:311-314 | no gated action applies to a Paid or Rejected request |
| `Workflow.PaidEntryRecordsAmount` | sll_360_srat_split_react_files_easy_to_read.jsx:303 | Mark Paid stores the amount, negative ones included, and the "Finance paid " entry reads back as that same amount |
| `Workflow.RejectUnguarded` | sll_360_srat_split_react_files_easy_to_read.jsx:304 | on a card, any user can reject the request in any status, Paid and Rejected included, given a non-empty reason; the entry is "Rejected: " followed by the reason |
| `Workflow.LetterApproveReopensPaid` | sll_360_srat_split_react_files_easy_to_read.jsx:336 | the letter button lets a PI or Admin move a Paid request back to "Approved for Finance", an earlier stage |
| `Workflow.RunAppendsHistory` | sll_360_srat_split_react_files_easy_to_read.jsx:300-304 | over any sequence of clicks the old history stays a prefix, it grows by exactly one entry per click that went through, and request data never changes |
| `Workflow.GuardedRunMonotone` | sll_360_srat_split_react_files_easy_to_read.jsx:311-314 | clicks on gated actions alone never move a request backwards and never reject it |
| `Workflow.GuardedRunStageBound` | sll_360_srat_split_react_files_easy_to_read.jsx:300-303 | gated clicks climb exactly one stage per successful click, so reaching Paid from a new request takes exactly four |
| `Store.SaveRequest` | sll_360_srat_split_react_files_easy_to_read.jsx:125-127 | the new request heads the list, followed by the old list unchanged |
| `Store.PatchRequest` | sll_360_srat_split_react_files_easy_to_read.jsx:129-132 | the list keeps its length, and every request whose id matches becomes the request with the patch merged in |
| `Store.PatchRequestFrame` | sll_360_srat_split_react_files_easy_to_read.jsx:129-132 | ids and their order are kept; requests with another id are untouched; no request's data changes |
| `Store.ActUpdatesOnlyTarget` | sll_360_srat_split_react_files_easy_to_read.jsx:129-132 | when ids are unique, a card's action sent through `patchRequest` replaces only that card's request, by exactly what `Attempt` returns when the user can see it |
| `Store.Visible` | sll_360_srat_split_react_files_easy_to_read.jsx:116-123 | the view is an order-preserving subsequence of the list that holds exactly the requests the per-role rule allows: all for Admin, PI, Finance and Facilitator; funders in scope for a Coordinator; own requests for Field Staff; none otherwise |
| `Store.VisibleIsFilter` | sll_360_srat_split_react_files_easy_to_read.jsx:116-123 | the role-by-role branches equal one filter by the per-role rule |
| `Store.VisiblePatchCommute` | sll_360_srat_split_react_files_easy_to_read.jsx:116-132 | patching never changes who sees a request: viewing the patched list equals patching the view |
| `Store.SaveRequestView` | sll_360_srat_split_react_files_easy_to_read.jsx:116-127 | after saving, every view that admits the new request shows it first, followed by the old view; every other view is unchanged |
| `Store.Act` | sll_360_srat_split_react_files_easy_to_read.jsx:183-184 | a click on a card in the list: it leaves the list unchanged unless the user can see the request (the view gates every action, Reject included) and the card offers the action; it also leaves it unchanged when the handler returns early; otherwise the clicked entry becomes what `Attempt` returns, and the list changes only through `patchRequest` (see `Store.ActScopedByView`) |
| `Store.ActScopedByView` | sll_360_srat_split_react_files_easy_to_read.jsx:183-184 | a click on a card, Reject included, changes nothing when the user cannot see the request, and otherwise only requests sharing its id |
| `Store.SavedRequestHeadsCreatorsView` | sll_360_srat_split_react_files_easy_to_read.jsx:121-127 | a request a Field Staff member saves comes first in their own view, ahead of their earlier ones |
| `Builder.AddItem` | sll_360_srat_split_react_files_easy_to_read.jsx:228-233 | refused without a category; otherwise the item goes in front of the draft and stores the number `Number(x)` as its amount, or 0 when that is NaN; the draft total grows by that amount |
| `Builder.Submit` | sll_360_srat_split_react_files_easy_to_read.jsx:235-241 | creates nothing exactly when the draft is empty. Otherwise it creates a request with the draft's items, credited to the submitter, stamped with the given creation time and waiting for the Facilitator, with one "Submitted" entry, nothing reimbursed and no files, signatures or letter |
| `Builder.FreshSubmissionAwaitsFacilitator` | sll_360_srat_split_react_files_easy_to_read.jsx:238 | on a fresh submission, the only gated action offered to anyone is the Facilitator's Forward |
| `Templates.AddField` | sll_360_srat_split_react_files_easy_to_read.jsx:380 | the default text field "new" / "New field" is appended to the category, which is created if missing; other categories are unchanged |
| `Templates.ChangeField` | sll_360_srat_split_react_files_easy_to_read.jsx:381 | the chosen attribute of the chosen field takes the new value; its other attributes, the other fields and the other categories are unchanged |
| `Templates.ChangeFieldToCurrentIsIdentity` | sll_360_srat_split_react_files_easy_to_read.jsx:381 | writing an attribute's current value back changes nothing |
| `Templates.ChangeFieldLastWins` | sll_360_srat_split_react_files_easy_to_read.jsx:381 | of two edits to the same attribute only the last counts |
| `Decimal.ParseIntText` | sll_360_srat_split_react_files_easy_to_read.jsx:303 | the decimal text written into the payment entry parses back to the amount |
| `Seqs.FilterConcat` | sll_360_srat_split_react_files_easy_to_read.jsx:120-121 | filtering distributes over concatenation, so a request saved in front of the list comes first in each view that admits it |
| `Scenarios.HappyPath` | sll_360_srat_split_react_files_easy_to_read.jsx:300-303 | with the seeded users, a submitted FunderA request taken through all four gated steps ends Paid, with 500 reimbursed, the letter stored and five history entries in order |
| `Scenarios.RejectionMidFlow` | sll_360_srat_split_react_files_easy_to_read.jsx:304 | a PI rejecting a request pending PI review with "Missing receipts" ends it Rejected; the Coordinator's approval afterwards is refused |
| `Scenarios.CoordinatorFundScope` | sll_360_srat_split_react_files_easy_to_read.jsx:412 | the seeded Coordinator (fund sources FunderA) is refused on a FunderB request and moves a FunderA request to "Pending PI" |
| `Scenarios.SecondPaymentThroughLetterButton` | sll_360_srat_split_react_files_easy_to_read.jsx:336 | after payment, Admin's letter button, given the stored letter as the card's edited letter, plus Finance's Mark Paid record a second payment; `reimbursed` keeps only the second amount |
| `Model.RoleOf` | sll_360_srat_split_react_files_easy_to_read.jsx:118-121 | each of the six names "Admin", "PI", "Facilitator", "Coordinator", "Field Staff", "Finance" denotes its own role, since `RoleName` of the result is the string itself; any other string is kept as `OtherRole` |
| `Model.RoleNameRoundTrip` | sll_360_srat_split_react_files_easy_to_read.jsx:118-121 | an encoded role's name decodes back to the same role |
| `Model.RoleOfOneToOne` | sll_360_srat_split_react_files_easy_to_read.jsx:118-121 | distinct role strings give distinct roles, and no encoded `OtherRole` carries one of the six names |

## Left out

- Rendering: JSX, CSS, the funder/status dropdown filter of the list, the item "Remove" button and the canvas drawing helpers. These are presentation only.
- Persistence (`loadAll`, `saveAll`, `seedDemo`): this is localStorage and JSON I/O. The seeded users only appear as constants in `Scenarios`.
- File upload and signature capture: they go through FileReader and canvas image export. `files` and `signatures` are fields of `Request`, but no modelled action changes them.
- Clock and id generator: `uid()` and `now()` use randomness and the wall clock, so ids and timestamps are parameters.
- `defaultLetter`: it is called but not defined anywhere in the application, so it is an opaque function parameter. As written, approving with an empty edited letter would throw a ReferenceError and patch nothing; the model assumes a letter generator is supplied.
- Prompts: `prompt` answers are payloads. The reason is an `Option<string>`. The paid amount is the value `Number(...)` produced: an integer or NaN.
- Converting the payment prompt's text to a number is left to the caller. `Number(null)` and `Number("")` are 0 in JavaScript, so cancelling that prompt marks the request Paid with 0 rather than leaving it unchanged.
- The prompt's suggested amount (`r.reimbursed || totalAmount(r)`) is only a prefilled text.
- JavaScript numbers: amounts are unbounded integers. Fractional amounts, precision loss beyond 2^53 and exponent notation above 10^21 are not modelled. Neither is `Number("Infinity")` or `Number("-Infinity")`: it passes the `isNaN` check, so the code stores an infinite `reimbursed` and logs "Finance paid Infinity".
- Login and user creation: credential lookup, the at-least-one-ID check and `addUser` sit outside the approval workflow.
- Submit: the form is rendered only for Field Staff. `submit` itself checks no role, and neither does the model.
- Templates.ChangeField: requires an existing category and an index in range. The editor only calls it for a row it rendered. In the code, an unknown category throws and an out-of-range index writes a new slot. The code's copy is shallow: `local` starts as, and is reset to, the application's live catalog, so `copy[cat][idx] = …` writes into the live catalog's field list itself. A field edit therefore changes the catalog the request form reads before "Save templates" is pressed, and the next save of the application's data persists it. That aliasing is not modelled: `ChangeField` returns a new catalog and leaves its input unchanged.
- Role and status: any role string outside the six names is `OtherRole`, as `RoleOf` encodes it. A `User` built directly with, say, `OtherRole("Admin")` encodes no role string the application can hold (`EncodedRole` is false of it); lemmas do not exclude such values, and for them the model's results do not describe the code. Status is the six-value enum; status strings from a hand-edited store are not modelled.
- `editedLetter`: its initial value (the request's current letter, else empty) is card state. It reaches the model as the letter payload.
