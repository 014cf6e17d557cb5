/** The decision of operations on a claim and its indemnity (services/claims/internal/domain/decision.go). */
module Decisions {
  import opened Common
  import opened Retry
  import opened Lease
  import opened Text

  const BASIS_POINTS := 10_000

  /** Division of two 64-bit integers truncates toward zero. */
  function Quotient(a: int, b: int): int
    requires 0 < b
  {
    if a < 0 then -((-a) / b) else a / b
  }

  /** The deductible as the code computes it, in 64 bits. */
  function DeductibleOf(gross: int, basisPoints: int): int {
    Quotient(Wrap(Wrap(gross * basisPoints) + BASIS_POINTS / 2), BASIS_POINTS)
  }

  /** The deductible it is meant to compute: the share rounded half up. */
  function ExactDeductible(gross: int, basisPoints: int): int
    requires 0 <= gross && 0 <= basisPoints
  {
    (gross * basisPoints + BASIS_POINTS / 2) / BASIS_POINTS
  }

  lemma DivDifference(a: int, b: int)
    requires 0 <= a && a + TWO_64 <= b
    ensures a / BASIS_POINTS < b / BASIS_POINTS
  {
  }

  lemma WrapOfSum(x: int, y: int)
    ensures Wrap(Wrap(x) + y) == Wrap(x + y)
  {
    assert Wrap(x) == x + TWO_64 * -((x + TWO_63) / TWO_64);
    var k := (x + TWO_63) / TWO_64;
    assert (Wrap(x) + y + TWO_63) == (x + y + TWO_63) + TWO_64 * (-k);
    ModAddMultiple(x + y + TWO_63, -k);
  }

  lemma ModAddMultiple(a: int, k: int)
    ensures (a + TWO_64 * k) % TWO_64 == a % TWO_64
  {
    var q, r := a / TWO_64, a % TWO_64;
    assert a + TWO_64 * k == TWO_64 * (q + k) + r;
  }

  /** A value in 64 bits is its own remainder; any other differs from it. */
  lemma WrapIsIdentityInside(x: int)
    ensures Wrap(x) == x <==> -TWO_63 <= x < TWO_63
  {
  }

  /** The 64-bit deductible is the exact one precisely while the product with its rounding fits. */
  lemma DeductibleExactlyWhenItFits(gross: int, basisPoints: int)
    requires 0 <= gross && 0 <= basisPoints
    ensures DeductibleOf(gross, basisPoints) == ExactDeductible(gross, basisPoints)
       <==> gross * basisPoints + BASIS_POINTS / 2 < TWO_63
  {
    var x := gross * basisPoints + BASIS_POINTS / 2;
    MulNonNegative(gross, basisPoints);
    WrapOfSum(gross * basisPoints, BASIS_POINTS / 2);
    assert DeductibleOf(gross, basisPoints) == Quotient(Wrap(x), BASIS_POINTS);
    WrapIsIdentityInside(x);
    if TWO_63 <= x {
      WrapFallsBehind(x);
      if 0 <= Wrap(x) {
        DivDifference(Wrap(x), x);
      }
    }
  }

  lemma WrapFallsBehind(x: int)
    requires TWO_63 <= x
    ensures Wrap(x) + TWO_64 <= x
  {
  }

  lemma MulNonNegative(a: int, b: int)
    requires 0 <= a && 0 <= b
    ensures 0 <= a * b
  {
  }

  /** Shares of at most 100 % leave a deductible between nothing and everything, within half a cent of the share. */
  lemma DeductibleWithinGross(gross: int, basisPoints: int)
    requires 0 <= gross && 0 <= basisPoints <= BASIS_POINTS
    ensures var d := ExactDeductible(gross, basisPoints);
            && 0 <= d <= gross
            && -(BASIS_POINTS / 2) < BASIS_POINTS * d - gross * basisPoints <= BASIS_POINTS / 2
  {
    MulNonNegative(gross, basisPoints);
    MulNonNegative(gross, BASIS_POINTS - basisPoints);
    assert gross * BASIS_POINTS == gross * basisPoints + gross * (BASIS_POINTS - basisPoints);
  }

  /** Approving more never pays less. */
  lemma PayoutMonotone(gross: int, more: int, basisPoints: int)
    requires 0 <= gross <= more && 0 <= basisPoints <= BASIS_POINTS
    ensures gross - ExactDeductible(gross, basisPoints) <= more - ExactDeductible(more, basisPoints)
  {
    var x, y := gross * basisPoints + BASIS_POINTS / 2, more * basisPoints + BASIS_POINTS / 2;
    var k := more - gross;
    assert y == x + k * basisPoints;
    MulNonNegative(k, BASIS_POINTS - basisPoints);
    assert k * BASIS_POINTS == k * basisPoints + k * (BASIS_POINTS - basisPoints);
    assert y <= x + k * BASIS_POINTS;
    assert (x + k * BASIS_POINTS) / BASIS_POINTS == x / BASIS_POINTS + k;
  }

  // ----- approving

  datatype Account = Account(bankCode: string, number: string)

  datatype CoverageTerms = CoverageTerms(insuredValueMinor: int, deductibleBasisPoints: int)

  datatype ApprovalError = AmountOutOfRange | AmountExceedsInsuredValue | NothingToPay | NoPayoutAccount

  datatype ApprovedPayout = ApprovedPayout(grossMinor: int, amountMinor: int, payout: Attempt<Account>)

  datatype ApprovalResult = Approved(approval: ApprovedPayout) | Refused(error: ApprovalError)

  function PayoutKey(claim: string): string {
    "indemnizacion-" + claim
  }

  /** The payout of an approval, due at once. */
  function NewPayout(claim: string, account: Account, at: Instant): Attempt<Account> {
    Attempt(PayoutKey(claim), account, Pending, 0, None, Some(at), None)
  }

  function Approve(claim: string, cov: CoverageTerms, account: Account, grossMinor: int, at: Instant): ApprovalResult {
    if grossMinor <= 0 then Refused(AmountOutOfRange)
    else if cov.insuredValueMinor < grossMinor then Refused(AmountExceedsInsuredValue)
    else
      var amount := Wrap(grossMinor - DeductibleOf(grossMinor, cov.deductibleBasisPoints));
      if amount <= 0 then Refused(NothingToPay)
      else if Trim(account.bankCode) == "" || Trim(account.number) == "" then Refused(NoPayoutAccount)
      else Approved(ApprovedPayout(grossMinor, amount, NewPayout(claim, account, at)))
  }

  /** The product of the share and its rounding stay in 64 bits. */
  predicate Fits(grossMinor: int, basisPoints: int) {
    grossMinor * basisPoints + BASIS_POINTS / 2 < TWO_63
  }

  lemma DeductibleIsSmall(grossMinor: int, basisPoints: int)
    ensures -(TWO_63 / BASIS_POINTS) - 1 <= DeductibleOf(grossMinor, basisPoints) <= TWO_63 / BASIS_POINTS + 1
  {
    var x := Wrap(Wrap(grossMinor * basisPoints) + BASIS_POINTS / 2);
    assert -TWO_63 <= x < TWO_63;
  }

  /**
   An approval pays exactly the gross less its deductible iff the product fits in
   64 bits. While it fits, a claim is approved iff the amount is in range, leaves
   something to pay and has an account, and pays at most the insured value.
   */
  lemma ApprovedAmount(claim: string, cov: CoverageTerms, account: Account, grossMinor: int, at: Instant)
    requires 0 <= cov.deductibleBasisPoints <= BASIS_POINTS && grossMinor < TWO_63
    ensures var r := Approve(claim, cov, account, grossMinor, at);
            r.Approved? ==>
              && 0 < grossMinor <= cov.insuredValueMinor && 0 < r.approval.amountMinor
              && (Fits(grossMinor, cov.deductibleBasisPoints) <==>
                    r.approval.amountMinor + ExactDeductible(grossMinor, cov.deductibleBasisPoints) == grossMinor)
    ensures var r := Approve(claim, cov, account, grossMinor, at);
            0 < grossMinor && Fits(grossMinor, cov.deductibleBasisPoints) ==>
              && (r.Approved? ==> r.approval.amountMinor <= cov.insuredValueMinor)
              && (r.Approved? <==>
                    && grossMinor <= cov.insuredValueMinor
                    && ExactDeductible(grossMinor, cov.deductibleBasisPoints) < grossMinor
                    && !Blank(account.bankCode) && !Blank(account.number))
  {
    TrimStrips(account.bankCode);
    TrimStrips(account.number);
    if 0 < grossMinor {
      var bp := cov.deductibleBasisPoints;
      DeductibleIsSmall(grossMinor, bp);
      DeductibleExactlyWhenItFits(grossMinor, bp);
      DeductibleWithinGross(grossMinor, bp);
    }
  }

  /**
   Something is left to pay: while the product fits, more than half a cent of the
   share that is not deductible; past it, what the 64-bit difference says.
   */
  predicate LeavesSomething(grossMinor: int, basisPoints: int) {
    if Fits(grossMinor, basisPoints)
    then BASIS_POINTS / 2 < grossMinor * (BASIS_POINTS - basisPoints)
    else grossMinor - DeductibleOf(grossMinor, basisPoints) < TWO_63
  }

  lemma LeftWhileItFits(gross: int, basisPoints: int)
    requires 0 < gross && 0 <= basisPoints <= BASIS_POINTS
    ensures ExactDeductible(gross, basisPoints) < gross <==> BASIS_POINTS / 2 < gross * (BASIS_POINTS - basisPoints)
  {
    assert gross * BASIS_POINTS == gross * basisPoints + gross * (BASIS_POINTS - basisPoints);
  }

  /** Past 64 bits the deductible is so small that only the difference can leave 64 bits. */
  lemma LeftPastTheLimit(gross: int, basisPoints: int)
    requires 0 < gross < TWO_63 && 0 <= basisPoints <= BASIS_POINTS && !Fits(gross, basisPoints)
    ensures DeductibleOf(gross, basisPoints) < gross
    ensures 0 < Wrap(gross - DeductibleOf(gross, basisPoints)) <==> gross - DeductibleOf(gross, basisPoints) < TWO_63
  {
    QuotientIsSmall(Wrap(Wrap(gross * basisPoints) + BASIS_POINTS / 2));
    MulNonNegative(gross, BASIS_POINTS - basisPoints);
    assert gross * BASIS_POINTS == gross * basisPoints + gross * (BASIS_POINTS - basisPoints);
    WrapOfDifference(gross, DeductibleOf(gross, basisPoints));
  }

  lemma QuotientIsSmall(x: int)
    requires -TWO_63 <= x < TWO_63
    ensures -TWO_62 < Quotient(x, BASIS_POINTS) && BASIS_POINTS * Quotient(x, BASIS_POINTS) <= Max(x, 0)
  {
  }

  lemma WrapOfDifference(a: int, b: int)
    requires b < a < TWO_63 && -TWO_62 < b
    ensures 0 < Wrap(a - b) <==> a - b < TWO_63
  {
  }

  /** Which answer an approval gets, and everything that the payout of an approval carries. */
  lemma ApprovalAnswers(claim: string, cov: CoverageTerms, account: Account, grossMinor: int, at: Instant)
    requires 0 <= cov.deductibleBasisPoints <= BASIS_POINTS && grossMinor < TWO_63
    ensures var r := Approve(claim, cov, account, grossMinor, at);
            var inRange := 0 < grossMinor <= cov.insuredValueMinor;
            var left := LeavesSomething(grossMinor, cov.deductibleBasisPoints);
            && (r == Refused(AmountOutOfRange) <==> grossMinor <= 0)
            && (r == Refused(AmountExceedsInsuredValue) <==> 0 < grossMinor && cov.insuredValueMinor < grossMinor)
            && (r == Refused(NothingToPay) <==> inRange && !left)
            && (r == Refused(NoPayoutAccount) <==> inRange && left && (Blank(account.bankCode) || Blank(account.number)))
            && (r.Approved? ==>
                  && r.approval.grossMinor == grossMinor
                  && var p := r.approval.payout;
                  && p.payload == account && p.key == "indemnizacion-" + claim
                  && p.status == Pending && p.failedAttempts == 0
                  && p.windowEndsAt == None && p.claimedUntil == None && p.nextAttemptAt == Some(at))
  {
    TrimStrips(account.bankCode);
    TrimStrips(account.number);
    if 0 < grossMinor {
      var bp := cov.deductibleBasisPoints;
      DeductibleIsSmall(grossMinor, bp);
      DeductibleExactlyWhenItFits(grossMinor, bp);
      LeftWhileItFits(grossMinor, bp);
      if Fits(grossMinor, bp) {
        DeductibleWithinGross(grossMinor, bp);
      } else {
        LeftPastTheLimit(grossMinor, bp);
      }
    }
  }

  // ----- the store: a decision, its payout and the status of the claim move together

  datatype ClaimStatus = Active | InEvaluation | ApprovedClaim | PaidClaim | RejectedClaim | PaymentException

  predicate Decidable(s: ClaimStatus) {
    s.Active? || s.InEvaluation?
  }

  /** The status of a claim with an approval, as its payout says. */
  function ClaimStatusOf(row: Attempt<Account>): ClaimStatus {
    match row.status
    case Confirmed => PaidClaim
    case Failed => PaymentException
    case _ => ApprovedClaim
  }

  /** The failed payout is due again: same key, no attempts counted, the destination corrected when one is given. */
  function Retried(row: Attempt<Account>, destination: Option<Account>, now: Instant): Attempt<Account> {
    row.(status := Pending, failedAttempts := 0, nextAttemptAt := Some(now), claimedUntil := None,
         payload := if destination.Some? then destination.value else row.payload)
  }

  datatype Decision = Rejection | Approval(payout: Attempt<Account>)

  function StatusAfter(d: Decision): ClaimStatus {
    if d.Rejection? then RejectedClaim else ClaimStatusOf(d.payout)
  }

  datatype StoreError = ClaimNotFound | NotDecidable | PayoutNotRetryable | ClaimLost

  /** The claims with their status, and the decision of each. */
  class DecisionStore {
    var status: map<string, ClaimStatus>
    var decisions: map<string, Decision>

    /** A decided claim shows the status of its decision. */
    ghost predicate Valid()
      reads this
    {
      && decisions.Keys <= status.Keys
      && (forall id :: id in decisions ==> status[id] == StatusAfter(decisions[id]))
    }

    constructor (claims: map<string, ClaimStatus>)
      ensures Valid() && status == claims && decisions == map[]
    {
      status, decisions := claims, map[];
    }

    /** Of several analysts, the first decides. */
    method Decide(id: string, d: Decision) returns (error: Option<StoreError>)
      requires Valid() && (d.Approval? ==> d.payout.status.Pending?)
      modifies this
      ensures Valid()
      ensures error.None? <==> id in old(status) && (old(status)[id] == Active || old(status)[id] == InEvaluation)
      ensures error.None? ==> id !in old(decisions)
      ensures error.None? ==> decisions == old(decisions)[id := d]
      ensures error.None? ==> status == old(status)[id := if d.Rejection? then RejectedClaim else ApprovedClaim]
      ensures error.Some? ==> decisions == old(decisions) && status == old(status)
      ensures error.Some? ==> error.value == if id in status then NotDecidable else ClaimNotFound
    {
      if id !in status {
        return Some(ClaimNotFound);
      }
      if !Decidable(status[id]) {
        return Some(NotDecidable);
      }
      decisions, status := decisions[id := d], status[id := StatusAfter(d)];
      return None;
    }

    /** A result of the worker: recorded only while its claim of the payout is held. */
    method RecordPayout(id: string, rec: Attempt<Account>, v: Lease.Verdict) returns (error: Option<StoreError>)
      requires Valid()
      modifies this
      ensures Valid()
      ensures error.None? <==> id in old(decisions) && old(decisions)[id].Approval? && Holds(old(decisions)[id].payout, rec)
      ensures error.None? ==>
                var payout := Recorded(old(decisions)[id].payout, v);
                decisions == old(decisions)[id := Approval(payout)]
      ensures error.None? ==>
                status == old(status)[id := if v.ToConfirm? then PaidClaim else if v.ToFail? then PaymentException else ApprovedClaim]
      ensures error.Some? ==> error.value == ClaimLost && decisions == old(decisions) && status == old(status)
    {
      if id !in decisions || decisions[id].Rejection? || !Holds(decisions[id].payout, rec) {
        return Some(ClaimLost);
      }
      var payout := Recorded(decisions[id].payout, v);
      decisions, status := decisions[id := Approval(payout)], status[id := ClaimStatusOf(payout)];
      return None;
    }

    /** Only a payment exception returns to approved, and its key never changes. */
    method RetryPayout(id: string, destination: Option<Account>, now: Instant) returns (error: Option<StoreError>)
      requires Valid()
      modifies this
      ensures Valid()
      ensures error.None? <==> id in old(decisions) && old(decisions)[id].Approval? && old(decisions)[id].payout.status.Failed?
      ensures error.None? ==>
                && old(status)[id].PaymentException?
                && var payout := Retried(old(decisions)[id].payout, destination, now);
                && payout.key == old(decisions)[id].payout.key && Claimable(payout, now) && payout.failedAttempts == 0
                && Some(payout.payload) == (if destination.Some? then destination else Some(old(decisions)[id].payout.payload))
                && decisions == old(decisions)[id := Approval(payout)] && status == old(status)[id := ApprovedClaim]
      ensures error.Some? ==> decisions == old(decisions) && status == old(status)
      ensures error.Some? ==> error.value == if id in status then PayoutNotRetryable else ClaimNotFound
    {
      if id !in status {
        return Some(ClaimNotFound);
      }
      if id !in decisions || decisions[id].Rejection? || !decisions[id].payout.status.Failed? {
        return Some(PayoutNotRetryable);
      }
      decisions := decisions[id := Approval(Retried(decisions[id].payout, destination, now))];
      status := status[id := ApprovedClaim];
      return None;
    }
  }
}
