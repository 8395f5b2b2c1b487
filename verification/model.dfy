/** The request data model: users, items, the audit-trail entries and the request
    record itself, the object-spread merge that every update goes through, and the
    request total. */
module Model {
  import opened Wrappers

  /** The six role names the application hands out; `OtherRole` stands for any other
      role string a stored user record may carry. `RoleOf` is the encoding of role
      strings: it never wraps one of the six names in `OtherRole`. */
  datatype Role = Admin | PI | Facilitator | Coordinator | FieldStaff | Finance | OtherRole(name: string)

  const KnownRoleNames: set<string> := {"Admin", "PI", "Facilitator", "Coordinator", "Field Staff", "Finance"}

  /** The role a user record's `role` string denotes, compared as the code does with `===`. */
  function RoleOf(s: string): (r: Role)
    ensures r.OtherRole? <==> s !in KnownRoleNames
    ensures r.OtherRole? ==> r.name == s
    ensures RoleName(r) == s
  {
    if s == "Admin" then Admin
    else if s == "PI" then PI
    else if s == "Facilitator" then Facilitator
    else if s == "Coordinator" then Coordinator
    else if s == "Field Staff" then FieldStaff
    else if s == "Finance" then Finance
    else OtherRole(s)
  }

  /** The string the code compares and records in `history[].role` for a role. */
  function RoleName(r: Role): string {
    match r
    case Admin => "Admin"
    case PI => "PI"
    case Facilitator => "Facilitator"
    case Coordinator => "Coordinator"
    case FieldStaff => "Field Staff"
    case Finance => "Finance"
    case OtherRole(n) => n
  }

  /** Decoding an encoded role's name gives the role back. */
  lemma RoleNameRoundTrip(r: Role)
    requires EncodedRole(r)
    ensures RoleOf(RoleName(r)) == r
  {
  }

  /** A role `RoleOf` can produce: an `OtherRole` never carries one of the six names. */
  predicate EncodedRole(r: Role) {
    r.OtherRole? ==> r.name !in KnownRoleNames
  }

  /** Every encoded role is the encoding of exactly one role string, so the encoding is a
      bijection between role strings and encoded roles. */
  lemma RoleOfOneToOne(s: string, t: string)
    ensures EncodedRole(RoleOf(s))
    ensures RoleOf(s) == RoleOf(t) <==> s == t
  {
  }

  /** The six status strings a request moves through. */
  datatype Status =
    | PendingFacilitator
    | PendingCoordinator
    | PendingPI
    | ApprovedForFinance
    | Paid
    | Rejected

  /** A signed-in user. `fundSources` is only ever filled in for Coordinators and is
      absent (`None`) otherwise. */
  datatype User = User(id: string, name: string, role: Role, fundSources: Option<seq<string>>)

  /** The funders a user may act for: an absent list counts as empty. */
  function FundScope(u: User): seq<string> {
    u.fundSources.GetOr([])
  }

  /** The value of JavaScript's `Number(...)` on a form or prompt text: an integral
      amount or `NaN`. */
  datatype NumberInput = Num(n: int) | NaN

  /** One line of a request. `amount` is `None` when the stored record carries none. */
  datatype Item = Item(id: string, category: string, amount: Option<int>, templateData: map<string, string>)

  /** One audit-trail record. */
  datatype HistoryEntry = HistoryEntry(who: string, role: Role, action: string, at: string)

  /** An uploaded supporting file, kept as an opaque data URL. */
  datatype FileRef = FileRef(name: string, dataUrl: string)

  datatype Request = Request(
    id: string,
    createdAt: string,
    createdBy: string,
    createdByName: string,
    items: seq<Item>,
    funder: string,
    program: string,
    overallNotes: string,
    status: Status,
    history: seq<HistoryEntry>,
    files: seq<FileRef>,
    approvalLetter: Option<string>,
    signatures: map<string, string>,
    reimbursed: int)

  /** The partial object a workflow action hands to the store: a `Some` field
      overrides the request's field, a `None` field is absent from the patch. */
  datatype Patch = Patch(
    status: Option<Status>,
    history: Option<seq<HistoryEntry>>,
    approvalLetter: Option<string>,
    reimbursed: Option<int>)

  /** The history entry an action by `u` at time `at` records. */
  function Entry(u: User, action: string, at: string): HistoryEntry {
    HistoryEntry(u.name, u.role, action, at)
  }

  /** `{ ...r, ...p }`: the patch's present fields win, everything else is kept. */
  function Merge(r: Request, p: Patch): (m: Request)
    ensures SameRequestData(r, m)
    ensures p.status.Some? ==> m.status == p.status.value
    ensures p.status.None? ==> m.status == r.status
    ensures p.history.Some? ==> m.history == p.history.value
    ensures p.history.None? ==> m.history == r.history
    ensures m.approvalLetter == (if p.approvalLetter.Some? then p.approvalLetter else r.approvalLetter)
    ensures m.reimbursed == p.reimbursed.GetOr(r.reimbursed)
  {
    r.(status := p.status.GetOr(r.status),
       history := p.history.GetOr(r.history),
       approvalLetter := if p.approvalLetter.Some? then p.approvalLetter else r.approvalLetter,
       reimbursed := p.reimbursed.GetOr(r.reimbursed))
  }

  /** Everything about a request that no workflow action may change: who made it,
      what it asks for, and the attachments. */
  predicate SameRequestData(r: Request, r': Request) {
    && r'.id == r.id
    && r'.createdAt == r.createdAt
    && r'.createdBy == r.createdBy
    && r'.createdByName == r.createdByName
    && r'.items == r.items
    && r'.funder == r.funder
    && r'.program == r.program
    && r'.overallNotes == r.overallNotes
    && r'.files == r.files
    && r'.signatures == r.signatures
  }

  /** An item's contribution to the total: `it.amount || 0`. */
  function ItemAmount(it: Item): int {
    it.amount.GetOr(0)
  }

  /** The sum of the item amounts, as a reference definition. */
  function SumAmounts(items: seq<Item>): int {
    if |items| == 0 then 0 else ItemAmount(items[0]) + SumAmounts(items[1..])
  }

  lemma {:induction false} SumAmountsConcat(a: seq<Item>, b: seq<Item>)
    ensures SumAmounts(a + b) == SumAmounts(a) + SumAmounts(b)
    decreases |a|
  {
    if |a| == 0 {
      assert a + b == b;
    } else {
      assert (a + b)[1..] == a[1..] + b;
      SumAmountsConcat(a[1..], b);
    }
  }

  /** `totalAmount`: a left-to-right reduce over the items starting from 0. */
  method TotalAmount(r: Request) returns (total: int)
    ensures total == SumAmounts(r.items)
  {
    total := 0;
    var i := 0;
    while i < |r.items|
      invariant 0 <= i <= |r.items|
      invariant total == SumAmounts(r.items[..i])
    {
      SumAmountsConcat(r.items[..i], [r.items[i]]);
      assert r.items[..i + 1] == r.items[..i] + [r.items[i]];
      total := total + ItemAmount(r.items[i]);
      i := i + 1;
    }
    assert r.items[..i] == r.items;
  }
}
