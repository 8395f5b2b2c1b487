/** The dashboard's request list: prepending a submitted request, merging a patch into
    the request with a given id, and the role-based visibility filter. */
module Store {
  import opened Wrappers
  import opened Model
  import opened Seqs
  import Workflow

  /** `saveRequest`: the new request goes in front of the existing ones. */
  function SaveRequest(reqs: seq<Request>, newReq: Request): (r: seq<Request>)
    ensures |r| == |reqs| + 1
    ensures r[0] == newReq && r[1..] == reqs
  {
    [newReq] + reqs
  }

  /** `patchRequest`: every request whose id matches gets the patch merged in. */
  function PatchRequest(reqs: seq<Request>, id: string, p: Patch): (r: seq<Request>)
    ensures |r| == |reqs|
    ensures forall i :: 0 <= i < |reqs| && reqs[i].id == id ==> r[i] == Merge(reqs[i], p)
  {
    seq(|reqs|, i requires 0 <= i < |reqs| => if reqs[i].id == id then Merge(reqs[i], p) else reqs[i])
  }

  function Ids(reqs: seq<Request>): seq<string> {
    seq(|reqs|, i requires 0 <= i < |reqs| => reqs[i].id)
  }

  predicate UniqueIds(reqs: seq<Request>) {
    forall i, j :: 0 <= i < j < |reqs| ==> reqs[i].id != reqs[j].id
  }

  /** Patching changes no request with another id, keeps the list's order, and only ever
      touches status, history, letter and payment of the matching ones. */
  lemma PatchRequestFrame(reqs: seq<Request>, id: string, p: Patch)
    ensures Ids(PatchRequest(reqs, id, p)) == Ids(reqs)
    ensures forall i :: 0 <= i < |reqs| && reqs[i].id != id ==> PatchRequest(reqs, id, p)[i] == reqs[i]
    ensures forall i :: 0 <= i < |reqs| ==> SameRequestData(reqs[i], PatchRequest(reqs, id, p)[i])
  {
  }

  // ---------------------------------------------------------------------------
  // Visibility

  /** Reference definition of who may see what, one rule per role. */
  predicate VisibleTo(u: User, r: Request) {
    match u.role
    case Admin => true
    case PI => true
    case Finance => true
    case Facilitator => true
    case Coordinator => r.funder in FundScope(u)
    case FieldStaff => r.createdBy == u.id
    case OtherRole(_) => false
  }

  function Viewer(u: User): Request -> bool {
    (r: Request) => VisibleTo(u, r)
  }

  function FunderIn(scope: seq<string>): Request -> bool {
    (r: Request) => r.funder in scope
  }

  function CreatedBy(userId: string): Request -> bool {
    (r: Request) => r.createdBy == userId
  }

  /** `visibleRequests`: the requests shown to `u`, in list order. */
  function Visible(reqs: seq<Request>, u: User): (v: seq<Request>)
    ensures IsSubseq(v, reqs)
    ensures forall i :: 0 <= i < |v| ==> VisibleTo(u, v[i])
    ensures forall i :: 0 <= i < |reqs| ==> (reqs[i] in v <==> VisibleTo(u, reqs[i]))
  {
    if u.role == PI || u.role == Admin || u.role == Finance then
      SubseqRefl(reqs); reqs
    else if u.role == Facilitator then
      SubseqRefl(reqs); reqs
    else if u.role == Coordinator then
      FilterIsSubseq(reqs, FunderIn(FundScope(u))); Filter(reqs, FunderIn(FundScope(u)))
    else if u.role == FieldStaff then
      FilterIsSubseq(reqs, CreatedBy(u.id)); Filter(reqs, CreatedBy(u.id))
    else
      []
  }

  /** The role-by-role filter agrees with filtering by the reference rule. */
  lemma VisibleIsFilter(reqs: seq<Request>, u: User)
    ensures Visible(reqs, u) == Filter(reqs, Viewer(u))
  {
    match u.role
    case Coordinator => FilterExt(reqs, FunderIn(FundScope(u)), Viewer(u));
    case FieldStaff => FilterExt(reqs, CreatedBy(u.id), Viewer(u));
    case OtherRole(_) => FilterDropsAll(reqs, Viewer(u));
    case _ => FilterKeepsAll(reqs, Viewer(u));
  }

  /** Patching a request never changes who may see it, so the view of the patched list is
      the patched view. */
  lemma {:induction false} VisiblePatchCommute(reqs: seq<Request>, id: string, p: Patch, u: User)
    ensures Visible(PatchRequest(reqs, id, p), u) == PatchRequest(Visible(reqs, u), id, p)
  {
    VisibleIsFilter(reqs, u);
    VisibleIsFilter(PatchRequest(reqs, id, p), u);
    FilterPatchCommute(reqs, id, p, u);
  }

  lemma {:induction false} FilterPatchCommute(reqs: seq<Request>, id: string, p: Patch, u: User)
    ensures Filter(PatchRequest(reqs, id, p), Viewer(u)) == PatchRequest(Filter(reqs, Viewer(u)), id, p)
    decreases |reqs|
  {
    if |reqs| > 0 {
      var patched := PatchRequest(reqs, id, p);
      assert patched[1..] == PatchRequest(reqs[1..], id, p);
      FilterPatchCommute(reqs[1..], id, p, u);
      var rest := Filter(reqs[1..], Viewer(u));
      if VisibleTo(u, reqs[0]) {
        assert PatchRequest([reqs[0]] + rest, id, p) == [patched[0]] + PatchRequest(rest, id, p);
      }
    }
  }

  /** Saving puts the new request in front of every view that admits it and leaves every
      other view as it was. */
  lemma SaveRequestView(reqs: seq<Request>, newReq: Request, u: User)
    ensures Visible(SaveRequest(reqs, newReq), u) ==
      (if VisibleTo(u, newReq) then [newReq] else []) + Visible(reqs, u)
  {
    VisibleIsFilter(reqs, u);
    VisibleIsFilter(SaveRequest(reqs, newReq), u);
    FilterConcat([newReq], reqs, Viewer(u));
  }

  /** A request a Field Staff member just saved heads their own view. */
  lemma SavedRequestHeadsCreatorsView(reqs: seq<Request>, newReq: Request, u: User)
    requires u.role == FieldStaff && newReq.createdBy == u.id
    ensures var v := Visible(SaveRequest(reqs, newReq), u);
      |v| > 0 && v[0] == newReq && v[1..] == Visible(reqs, u)
  {
    SaveRequestView(reqs, newReq, u);
  }

  // ---------------------------------------------------------------------------
  // Card actions

  /** A click on the card for `reqs[k]`. The dashboard renders a card only for a request in
      the user's view, so a user who cannot see the request cannot act on it. When the
      attempt goes through, the handler's patch is sent to `patchRequest` under the
      request's id. */
  function Act(reqs: seq<Request>, k: nat, u: User, a: Workflow.Action, at: string,
               defaultLetter: (Request, User) -> string): (next: seq<Request>)
    requires k < |reqs|
    ensures |next| == |reqs|
    ensures !(VisibleTo(u, reqs[k]) && Workflow.Permitted(reqs[k], u, a)) ==> next == reqs
    ensures Workflow.Attempt(reqs[k], u, a, at, defaultLetter) == Failure(Workflow.Cancelled) ==> next == reqs
    ensures VisibleTo(u, reqs[k]) && Workflow.Attempt(reqs[k], u, a, at, defaultLetter).Success? ==>
      next[k] == Workflow.Attempt(reqs[k], u, a, at, defaultLetter).value
  {
    var r := reqs[k];
    if VisibleTo(u, r) && Workflow.Permitted(r, u, a) then
      match Workflow.PatchFor(r, u, a, at, defaultLetter)
      case Some(p) => PatchRequest(reqs, r.id, p)
      case None => reqs
    else reqs
  }

  /** With unique ids, acting on card `k` replaces exactly entry `k`, by what `Attempt`
      returns for it when the user can see it, and leaves every other entry alone. */
  lemma ActUpdatesOnlyTarget(reqs: seq<Request>, k: nat, u: User, a: Workflow.Action, at: string,
                             defaultLetter: (Request, User) -> string)
    requires k < |reqs| && UniqueIds(reqs)
    ensures var res := Workflow.Attempt(reqs[k], u, a, at, defaultLetter);
      var next := Act(reqs, k, u, a, at, defaultLetter);
      && |next| == |reqs|
      && next[k] == (if VisibleTo(u, reqs[k]) && res.Success? then res.value else reqs[k])
      && forall i :: 0 <= i < |reqs| && i != k ==> next[i] == reqs[i]
  {
  }

  /** Any action, Reject included, is scoped by the view: it changes nothing unless the
      user can see the request, and then only requests sharing its id. So Field Staff
      reject only their own requests, a Coordinator only requests of funders in scope,
      and a user of another role nothing. */
  lemma ActScopedByView(reqs: seq<Request>, k: nat, u: User, a: Workflow.Action, at: string,
                        defaultLetter: (Request, User) -> string)
    requires k < |reqs|
    ensures var next := Act(reqs, k, u, a, at, defaultLetter);
      && |next| == |reqs|
      && (!VisibleTo(u, reqs[k]) ==> next == reqs)
      && forall i :: 0 <= i < |reqs| && next[i] != reqs[i] ==>
           reqs[i].id == reqs[k].id && VisibleTo(u, reqs[k])
  {
  }
}
