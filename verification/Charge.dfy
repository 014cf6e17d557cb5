/**
 The premium charge of one acceptance (services/origination/internal/domain/charge.go)
 and the statements of its repository (ports/billing.go, adapters/postgres/charges.go).
 */
module Charges {
  import opened Common
  import opened Lease
  import opened Text

  // ----- idempotency keys

  const KEY_PREFIX := "cobro"

  function BaseKey(acceptance: string): string {
    KEY_PREFIX + "-" + acceptance
  }

  /** The first payment keeps the base key; the others add their ordinal. */
  function ChargeKeyFor(acceptance: string, paymentAttempt: int): string {
    if paymentAttempt <= 1 then BaseKey(acceptance) else BaseKey(acceptance) + "-" + Itoa(paymentAttempt)
  }

  lemma BaseKeyIsInjective(a: string, b: string)
    ensures BaseKey(a) == BaseKey(b) <==> a == b
  {
    assert BaseKey(a)[|KEY_PREFIX| + 1..] == a && BaseKey(b)[|KEY_PREFIX| + 1..] == b;
  }

  /** Two charges share a key exactly when they are one and the same, or one id is the other with an ordinal appended. */
  lemma KeysOfTwoAcceptances(a: string, m: int, b: string, n: int)
    ensures ChargeKeyFor(a, m) == ChargeKeyFor(b, n) <==>
              || (a == b && (m == n || (m <= 1 && n <= 1)))
              || (1 < m && n <= 1 && b == a + "-" + Itoa(m))
              || (1 < n && m <= 1 && a == b + "-" + Itoa(n))
  {
    BaseKeyIsInjective(a, b);
    if 1 < m && 1 < n {
      if ChargeKeyFor(a, m) == ChargeKeyFor(b, n) {
        OrdinalIsReadBack(BaseKey(a), m, BaseKey(b), n);
      }
    } else if 1 < m {
      AppendedOrdinal(a, m, b);
    } else if 1 < n {
      AppendedOrdinal(b, n, a);
    }
  }

  lemma AppendedOrdinal(a: string, m: nat, b: string)
    ensures BaseKey(a) + "-" + Itoa(m) == BaseKey(b) <==> b == a + "-" + Itoa(m)
  {
    assert BaseKey(a) + "-" + Itoa(m) == BaseKey(a + "-" + Itoa(m));
    BaseKeyIsInjective(a + "-" + Itoa(m), b);
  }

  /** The first payment has the key of the acceptance; two ordinals share a key exactly when neither is past the first. */
  lemma KeysOfOneAcceptance(acceptance: string, m: int, n: int)
    ensures m <= 1 ==> ChargeKeyFor(acceptance, m) == "cobro-" + acceptance
    ensures ChargeKeyFor(acceptance, m) == ChargeKeyFor(acceptance, n) <==> m == n || (m <= 1 && n <= 1)
  {
    KeysOfTwoAcceptances(acceptance, m, acceptance, n);
    assert 1 < m ==> |acceptance + "-" + Itoa(m)| > |acceptance|;
    assert 1 < n ==> |acceptance + "-" + Itoa(n)| > |acceptance|;
  }

  // ----- the charge

  datatype MethodKind = Card | Pse

  datatype PaymentMethod = PaymentMethod(kind: MethodKind, token: string, capturedAt: Instant)

  datatype ChargeReason = RetryWindowExpired | PaymentRejected | PaymentMethodMissing

  datatype Coverage = Coverage(code: string, insuredMinor: int)

  /** What the acceptance, the offer and the terms said when the charge was created. */
  datatype Snapshot = Snapshot(
    customerId: string,
    holderName: string,
    holderEmail: string,
    amountMinor: int,
    currency: string,
    insuredMinor: int,
    termMonths: int,
    coverages: seq<Coverage>,
    renewalOf: string,
    coverageNotBefore: Option<Instant>)

  /** Set in the write that confirms the charge. */
  datatype Activation = Activation(policyId: string, eventId: string, activatedAt: Instant, coverageStart: Instant, coverageEnd: Instant)

  datatype Billing = Billing(
    reason: Option<ChargeReason>,
    paymentAttempt: nat,
    lastResumedAt: Option<Instant>,
    activation: Option<Activation>)

  datatype Charge = Charge(
    acceptance: string,
    snapshot: Snapshot,
    attempt: Attempt<Option<PaymentMethod>>,
    billing: Billing)

  /** Pending, not due: it waits for a payment method. */
  function NewCharge(acceptance: string, snapshot: Snapshot, windowEndsAt: Option<Instant>): Charge {
    Charge(acceptance, snapshot,
           Attempt(BaseKey(acceptance), None, Pending, 0, windowEndsAt, None, None),
           Billing(None, 0, None, None))
  }

  function ReasonFor(r: FailureReason): ChargeReason {
    if r.ReasonRejected? then PaymentRejected else RetryWindowExpired
  }

  predicate TakesPaymentMethod(c: Charge) {
    match c.attempt.status
    case Pending => c.attempt.failedAttempts == 0
    case Failed => c.billing.reason == Some(PaymentRejected)
    case _ => false
  }

  function WithPaymentMethod(c: Charge, kind: MethodKind, token: string, now: Instant): Charge {
    var n := c.billing.paymentAttempt + 1;
    var queued := c.attempt.(payload := Some(PaymentMethod(kind, token, now)), status := Pending, nextAttemptAt := Some(now));
    if c.attempt.status.Failed?
    then c.(attempt := queued.(key := ChargeKeyFor(c.acceptance, n), failedAttempts := 0),
            billing := c.billing.(paymentAttempt := n, reason := None))
    else c.(attempt := queued, billing := c.billing.(paymentAttempt := n))
  }

  /** The row the UPDATE of AttachPaymentMethod leaves: it always writes the ordinal into a new key. */
  function AttachStatement(c: Charge, kind: MethodKind, token: string, now: Instant): Charge {
    var n := c.billing.paymentAttempt + 1;
    var failed := c.attempt.status.Failed?;
    c.(attempt := c.attempt.(
         payload := Some(PaymentMethod(kind, token, now)), status := Pending, nextAttemptAt := Some(now), claimedUntil := None,
         failedAttempts := if failed then 0 else c.attempt.failedAttempts,
         key := if failed then BaseKey(c.acceptance) + "-" + Itoa(n) else c.attempt.key),
       billing := c.billing.(paymentAttempt := n, reason := None))
  }

  /** The statement and the domain rule build the same charge, except for a decline before any payment method. */
  lemma StatementMatchesDomain(c: Charge, kind: MethodKind, token: string, now: Instant)
    requires TakesPaymentMethod(c) && c.attempt.claimedUntil.None?
    requires c.attempt.status.Pending? ==> c.billing.reason.None?
    ensures AttachStatement(c, kind, token, now) == WithPaymentMethod(c, kind, token, now)
       <==> !(c.attempt.status.Failed? && c.billing.paymentAttempt == 0)
  {
  }

  /** An analyst reopens a failed charge: same key, new window, due only if there is a payment method. */
  function Resumed(c: Charge, now: Instant, windowEndsAt: Option<Instant>): Charge {
    c.(attempt := c.attempt.(status := Pending, failedAttempts := 0, claimedUntil := None, windowEndsAt := windowEndsAt,
                             nextAttemptAt := if c.attempt.payload.None? then None else Some(now)),
       billing := c.billing.(reason := None, lastResumedAt := Some(now)))
  }

  /** Pending without a due date when the window ended. */
  predicate WaitedTooLong(c: Charge, now: Instant) {
    && c.attempt.status.Pending? && c.attempt.nextAttemptAt.None?
    && c.attempt.windowEndsAt.Some? && c.attempt.windowEndsAt.value <= now
  }

  function ExpiredWithoutMethod(c: Charge): Charge {
    c.(attempt := c.attempt.(status := Failed, nextAttemptAt := None), billing := c.billing.(reason := Some(PaymentMethodMissing)))
  }

  /** The charge an analyst resumed after its payment method was captured: the key may have been sent before. */
  predicate ResumedSinceCapture(c: Charge) {
    && c.attempt.payload.Some? && c.billing.lastResumedAt.Some?
    && c.attempt.payload.value.capturedAt <= c.billing.lastResumedAt.value
  }

  // ----- the activation of the coverage

  type Calendar = (Instant, int) -> Instant

  /** All the calendar has to do: a positive number of months, and only that, leads to a later instant. */
  ghost predicate Lawful(addMonths: Calendar) {
    forall t: Instant, m: int :: t < addMonths(t, m) <==> 0 < m
  }

  function ActivationAt(addMonths: Calendar, c: Charge, at: Instant): Activation {
    var start := match c.snapshot.coverageNotBefore
                 case Some(t) => Max(t, at)
                 case None => at;
    Activation("pol-" + c.acceptance, "evt-coverage-activated-" + c.acceptance, at, start, addMonths(start, c.snapshot.termMonths))
  }

  /** What the row keeps after a recorded result. */
  function RecordedCharge(addMonths: Calendar, c: Charge, v: Verdict, at: Instant): Charge {
    c.(attempt := Lease.Recorded(c.attempt, v),
       billing := match v
                  case ToConfirm => c.billing.(reason := None, activation := Some(ActivationAt(addMonths, c, at)))
                  case ToFail(r) => c.billing.(reason := Some(ReasonFor(r)))
                  case ToReschedule(_) => c.billing)
  }

  datatype CoverageActivated = CoverageActivated(
    eventId: string,
    policyId: string,
    acceptance: string,
    customerId: string,
    holderName: string,
    holderEmail: string,
    premium: real,
    currency: string,
    insured: real,
    coverages: seq<Coverage>,
    activatedAt: Instant,
    coverageStart: Instant,
    coverageEnd: Instant,
    renewalOf: string)

  function FromMinorUnits(minor: int): real {
    minor as real / 100.0
  }

  function ActivationEvent(c: Charge): CoverageActivated
    requires c.billing.activation.Some?
  {
    var a, s := c.billing.activation.value, c.snapshot;
    CoverageActivated(a.eventId, a.policyId, c.acceptance, s.customerId, s.holderName, s.holderEmail,
                      FromMinorUnits(s.amountMinor), s.currency, FromMinorUnits(s.insuredMinor), s.coverages,
                      a.activatedAt, a.coverageStart, a.coverageEnd, s.renewalOf)
  }

  /**
   The event is that of the acceptance and its snapshot: who, how much, what, and
   the cover from the later of the activation and the end of the cover before,
   for the months of the term.
   */
  predicate IsTheCoverOf(addMonths: Calendar, acceptance: string, s: Snapshot, e: CoverageActivated) {
    && e.acceptance == acceptance && e.policyId == "pol-" + acceptance && e.eventId == "evt-coverage-activated-" + acceptance
    && e.customerId == s.customerId && e.holderName == s.holderName && e.holderEmail == s.holderEmail
    && e.premium * 100.0 == s.amountMinor as real && e.insured * 100.0 == s.insuredMinor as real
    && e.currency == s.currency && e.coverages == s.coverages && e.renewalOf == s.renewalOf
    && e.activatedAt <= e.coverageStart
    && (s.coverageNotBefore.Some? ==> s.coverageNotBefore.value <= e.coverageStart)
    && (e.coverageStart == e.activatedAt || Some(e.coverageStart) == s.coverageNotBefore)
    && e.coverageEnd == addMonths(e.coverageStart, s.termMonths)
  }

  predicate PolicyIdChar(ch: char) {
    'A' <= ch <= 'Z' || 'a' <= ch <= 'z' || '0' <= ch <= '9' || ch == '_' || ch == '-'
  }

  predicate ValidPolicyId(s: string) {
    1 <= |s| <= 128 && forall i :: 0 <= i < |s| ==> PolicyIdChar(s[i])
  }

  predicate ValidEvent(e: CoverageActivated) {
    && e.eventId != "" && e.customerId != ""
    && ValidPolicyId(e.policyId)
    && e.holderName != "" && e.holderEmail != ""
    && e.premium > 0.0 && e.currency != "" && e.coverages != []
    && e.activatedAt != ZERO_TIME && e.coverageStart < e.coverageEnd
  }

  /** Whether a confirmation at `at` would activate the coverage. */
  predicate ActivatesAt(addMonths: Calendar, c: Charge, at: Instant) {
    ValidEvent(ActivationEvent(RecordedCharge(addMonths, c, ToConfirm, at)))
  }

  /** What was checked when the charge started holds at every later (or earlier) confirmation instant. */
  lemma ValidAtOnceValidAlways(addMonths: Calendar, c: Charge, started: Instant, confirmed: Instant)
    requires Lawful(addMonths)
    ensures started != ZERO_TIME && confirmed != ZERO_TIME ==> (ActivatesAt(addMonths, c, started) <==> ActivatesAt(addMonths, c, confirmed))
  {
  }

  /** A charge can be activated exactly when its snapshot is complete, its amount and term are positive and its id fits in a policy id. */
  lemma ActivatesExactlyWhen(addMonths: Calendar, c: Charge, at: Instant)
    requires Lawful(addMonths)
    ensures ActivatesAt(addMonths, c, at) <==>
              var s := c.snapshot;
              && s.customerId != "" && s.holderName != "" && s.holderEmail != "" && s.currency != "" && s.coverages != []
              && 0 < s.amountMinor && 0 < s.termMonths && at != ZERO_TIME
              && |c.acceptance| <= 124 && forall i :: 0 <= i < |c.acceptance| ==> PolicyIdChar(c.acceptance[i])
  {
    var id := "pol-" + c.acceptance;
    assert id[..4] == "pol-" && forall i :: 0 <= i < 4 ==> PolicyIdChar(id[i]);
    assert forall i :: 0 <= i < |c.acceptance| ==> id[i + 4] == c.acceptance[i];
    assert forall i :: 4 <= i < |id| ==> id[i] == c.acceptance[i - 4];
  }

  // ----- the repository

  datatype RepoError = ChargeNotFound | ChargeNotResumable | ChargeNotPayable

  datatype RepoResult = Ok(charge: Charge) | Err(error: RepoError)

  /** The table of charges: every operation is one conditional statement. */
  class ChargeRepository {
    var charges: map<string, Charge>

    constructor ()
      ensures charges == map[]
    {
      charges := map[];
    }

    /** One charge per acceptance: a second one returns the first and writes nothing. */
    method CreatePending(c: Charge) returns (stored: Charge, created: bool)
      modifies this
      ensures created <==> c.acceptance !in old(charges)
      ensures charges == if created then old(charges)[c.acceptance := c] else old(charges)
      ensures c.acceptance in charges && stored == charges[c.acceptance]
    {
      created := c.acceptance !in charges;
      if created {
        charges := charges[c.acceptance := c];
      }
      stored := charges[c.acceptance];
    }

    method AttachPaymentMethod(id: string, kind: MethodKind, token: string, now: Instant) returns (r: RepoResult)
      modifies this
      ensures r.Ok? <==> id in old(charges) && TakesPaymentMethod(old(charges)[id])
      ensures r.Ok? ==> r.charge == AttachStatement(old(charges)[id], kind, token, now) && charges == old(charges)[id := r.charge]
      ensures r.Ok? && Attachable(old(charges)[id]) ==> r.charge == WithPaymentMethod(old(charges)[id], kind, token, now)
      ensures r.Err? ==> charges == old(charges) && r.error == if id in charges then ChargeNotPayable else ChargeNotFound
    {
      if id !in charges {
        return Err(ChargeNotFound);
      }
      var c := charges[id];
      if (c.attempt.status.Pending? && c.attempt.failedAttempts == 0)
        || (c.attempt.status.Failed? && c.billing.reason == Some(PaymentRejected)) {
        if Attachable(c) {
          StatementMatchesDomain(c, kind, token, now);
        }
        r := Ok(AttachStatement(c, kind, token, now));
        charges := charges[id := r.charge];
      } else {
        r := Err(ChargeNotPayable);
      }
    }

    method Resume(id: string, now: Instant, windowEndsAt: Option<Instant>) returns (r: RepoResult)
      modifies this
      ensures r.Ok? <==> id in old(charges) && old(charges)[id].attempt.status.Failed?
      ensures r.Ok? ==> charges == old(charges)[id := r.charge]
      ensures r.Ok? ==> r.charge == Resumed(old(charges)[id], now, windowEndsAt)
      ensures r.Ok? ==> r.charge.attempt.key == old(charges)[id].attempt.key && r.charge.attempt.payload == old(charges)[id].attempt.payload
      ensures r.Ok? ==> (Claimable(r.charge.attempt, now) <==> old(charges)[id].attempt.payload.Some?) && r.charge.attempt.failedAttempts == 0
      ensures r.Ok? ==> r.charge.attempt.windowEndsAt == windowEndsAt && r.charge.billing.lastResumedAt == Some(now)
      ensures r.Err? ==> charges == old(charges) && r.error == if id in charges then ChargeNotResumable else ChargeNotFound
    {
      if id !in charges {
        return Err(ChargeNotFound);
      }
      if charges[id].attempt.status.Failed? {
        r := Ok(Resumed(charges[id], now, windowEndsAt));
        charges := charges[id := r.charge];
      } else {
        r := Err(ChargeNotResumable);
      }
    }

    /** The sweep: every charge that waited too long fails, and no other changes. */
    method ExpireWithoutPaymentMethod(now: Instant) returns (expired: set<string>)
      modifies this
      ensures charges.Keys == old(charges).Keys
      ensures forall k :: k in expired <==>
                && k in old(charges)
                && var a := old(charges)[k].attempt;
                && a.status == Pending && a.nextAttemptAt == None && a.windowEndsAt.Some? && a.windowEndsAt.value <= now
      ensures forall k :: k in charges ==>
                if k in expired
                then && charges[k].attempt == old(charges)[k].attempt.(status := Failed)
                     && charges[k].billing == old(charges)[k].billing.(reason := Some(PaymentMethodMissing))
                     && charges[k].acceptance == old(charges)[k].acceptance && charges[k].snapshot == old(charges)[k].snapshot
                else charges[k] == old(charges)[k]
    {
      var before := charges;
      expired := set k | k in before && WaitedTooLong(before[k], now);
      charges := map k | k in before :: if k in expired then ExpiredWithoutMethod(before[k]) else before[k];
    }
  }

  /** What the protocol keeps of every stored charge and the statement relies on. */
  predicate Attachable(c: Charge) {
    && (c.attempt.status.Pending? || c.attempt.status.Failed? ==> c.attempt.claimedUntil.None?)
    && (c.attempt.status.Pending? ==> c.billing.reason.None?)
    && (c.attempt.status.Failed? && c.billing.reason == Some(PaymentRejected) ==> 0 < c.billing.paymentAttempt)
  }
}
