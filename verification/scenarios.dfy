/** End-to-end runs with the demo users the application seeds: the full approval path,
    a rejection half way, the Coordinator's fund scope, and the second payment the
    unguarded letter button allows. */
module Scenarios {
  import opened Wrappers
  import opened Model
  import opened Workflow
  import Builder
  import Decimal

  const SeedAdmin := User("u1", "Admin", Admin, None)
  const SeedPi := User("u2", "PI", PI, None)
  const SeedFacilitator := User("u3", "Facilitator", Facilitator, None)
  const SeedCoordinator := User("u4", "Coord NICU", Coordinator, Some(["FunderA"]))
  const SeedFieldStaff := User("u5", "Field Worker A", FieldStaff, None)
  const SeedFinance := User("u6", "Finance", Finance, None)

  function HappySteps(): seq<Step> {
    [ Step(SeedFacilitator, Forward, "t1"),
      Step(SeedCoordinator, CoordApprove, "t2"),
      Step(SeedPi, PiApprove("Approved, see attached"), "t3"),
      Step(SeedFinance, MarkPaid(Num(500)), "t4") ]
  }

  /** A FunderA request submitted by the field worker and taken through Forward,
      Coordinator approval, PI approval with a letter and payment of 500 ends Paid with
      500 reimbursed, the letter stored and five history entries in order. */
  lemma HappyPath(items: seq<Item>, defaultLetter: (Request, User) -> string)
    requires |items| > 0
    ensures var r0 := Builder.Submit(items, Builder.Meta("FunderA", "General", ""), SeedFieldStaff, "r1", "t0", "t0");
      && r0.Some?
      && var r := Run(r0.value, HappySteps(), defaultLetter);
      && r.status == Paid
      && r.reimbursed == 500
      && r.approvalLetter == Some("Approved, see attached")
      && r.items == items
      && |r.history| == 5
      && r.history[0].action == "Submitted"
      && r.history[1].action == "Forwarded"
      && r.history[2].action == "Coordinator approved"
      && r.history[3].action == "PI approved"
      && r.history[4].action == "Finance paid 500"
  {
    var r0 := Builder.Submit(items, Builder.Meta("FunderA", "General", ""), SeedFieldStaff, "r1", "t0", "t0").value;
    var steps := HappySteps();
    var r1 := Outcome(r0, SeedFacilitator, Forward, "t1", defaultLetter);
    var r2 := Outcome(r1, SeedCoordinator, CoordApprove, "t2", defaultLetter);
    var r3 := Outcome(r2, SeedPi, PiApprove("Approved, see attached"), "t3", defaultLetter);
    var r4 := Outcome(r3, SeedFinance, MarkPaid(Num(500)), "t4", defaultLetter);
    assert r1.status == PendingCoordinator;
    assert r2.status == PendingPI;
    assert r3.status == ApprovedForFinance;
    assert r4.status == Paid;
    assert Decimal.IntText(500) == "500";
    assert Run(r0, steps, defaultLetter) == Run(r1, steps[1..], defaultLetter);
    assert Run(r1, steps[1..], defaultLetter) == Run(r2, steps[2..], defaultLetter);
    assert Run(r2, steps[2..], defaultLetter) == Run(r3, steps[3..], defaultLetter);
    assert Run(r3, steps[3..], defaultLetter) == Run(r4, steps[4..], defaultLetter);
  }

  /** A PI rejecting a request pending PI review with "Missing receipts" ends it Rejected
      with that reason logged; the Coordinator's approval afterwards is refused. */
  lemma RejectionMidFlow(r: Request, defaultLetter: (Request, User) -> string)
    requires r.status == PendingPI && r.funder == "FunderA"
    ensures var res := Attempt(r, SeedPi, Reject(Some("Missing receipts")), "t5", defaultLetter);
      && res.Success?
      && res.value.status == Rejected
      && res.value.history[|r.history|].action == "Rejected: Missing receipts"
      && Attempt(res.value, SeedCoordinator, CoordApprove, "t6", defaultLetter) == Failure(NotPermitted)
  {
    var a := Reject(Some("Missing receipts"));
    assert Permitted(r, SeedPi, a) && PayloadAccepted(a);
    assert ActionLabel(a) == "Rejected: Missing receipts";
    var r' := Attempt(r, SeedPi, a, "t5", defaultLetter).value;
    TerminalRefusesGuarded(r', SeedCoordinator, CoordApprove, "t6", defaultLetter);
  }

  /** The seeded Coordinator acts for FunderA only. */
  lemma CoordinatorFundScope(r: Request, defaultLetter: (Request, User) -> string)
    requires r.status == PendingCoordinator
    ensures r.funder == "FunderB" ==> Attempt(r, SeedCoordinator, CoordApprove, "t", defaultLetter) == Failure(NotPermitted)
    ensures r.funder == "FunderA" ==>
      && Attempt(r, SeedCoordinator, CoordApprove, "t", defaultLetter).Success?
      && Attempt(r, SeedCoordinator, CoordApprove, "t", defaultLetter).value.status == PendingPI
  {
    assert FundScope(SeedCoordinator) == ["FunderA"];
  }

  /** After payment, the Admin's letter button reopens the request and Finance can pay it a
      second time: the trail then holds two payment entries and `reimbursed` holds only the
      second amount. The letter payload is the card's initial edited letter, the stored one. */
  lemma SecondPaymentThroughLetterButton(r: Request, n1: int, n2: int, defaultLetter: (Request, User) -> string)
    requires r.status == ApprovedForFinance
    requires r.approvalLetter.Some? && r.approvalLetter.value != ""
    ensures var paid := Outcome(r, SeedFinance, MarkPaid(Num(n1)), "t1", defaultLetter);
      var reopened := Outcome(paid, SeedAdmin, LetterApprove(r.approvalLetter.value), "t2", defaultLetter);
      var paidAgain := Attempt(reopened, SeedFinance, MarkPaid(Num(n2)), "t3", defaultLetter);
      && paid.status == Paid
      && reopened.status == ApprovedForFinance
      && reopened.approvalLetter == r.approvalLetter
      && paidAgain.Success?
      && paidAgain.value.reimbursed == n2
      && |paidAgain.value.history| == |r.history| + 3
      && paidAgain.value.history[|r.history|].action == PaidPrefix + Decimal.IntText(n1)
      && paidAgain.value.history[|r.history| + 2].action == PaidPrefix + Decimal.IntText(n2)
  {
  }
}
