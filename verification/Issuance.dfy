/**
 The contractual issuance of a policy (services/origination/internal/issuance/contract.go):
 one attempt generates and stores the document, persists it, notifies the
 insured and persists that, and any of those steps may fail.
 */
module Issuance {
  import opened Common
  import opened Retry

  datatype ContractStatus = ContractPending | ContractDocumentReady | ContractCompleted | ContractFailed

  datatype NotificationStatus = NotificationPending | NotificationSent | NotificationFailed

  datatype Document = Document(id: string, checksum: string)

  datatype Contract = Contract(
    policyId: string,
    status: ContractStatus,
    document: Option<Document>,
    notification: NotificationStatus,
    availableAt: Option<Instant>,
    notifiedAt: Option<Instant>,
    attempts: nat,
    nextAttemptAt: Option<Instant>)

  datatype Config = Config(maxAttempts: nat, retryBase: Duration, retryMax: Duration) {
    predicate Valid() {
      0 < maxAttempts && 0 < retryBase <= retryMax
    }
  }

  datatype FailedStep = DocumentStep | NotifyStep

  datatype AuditEntry = AuditEntry(event: AuditEvent, document: Option<Document>, attempt: nat)

  datatype AuditEvent = DocumentGenerated | NotificationDelivered | NotificationNotDelivered

  /** What `Receive` stores for a new activation. */
  function Received(policyId: string, now: Instant): Contract {
    Contract(policyId, ContractPending, None, NotificationPending, None, None, 0, Some(now))
  }

  function Ready(c: Contract, doc: Document, now: Instant): Contract {
    c.(document := Some(doc), status := ContractDocumentReady, availableAt := Some(now))
  }

  function Notified(c: Contract, now: Instant): Contract {
    c.(notification := NotificationSent, notifiedAt := Some(now), status := ContractCompleted, nextAttemptAt := None)
  }

  /** After a failed attempt: another one later, or none once the maximum is reached. */
  function AfterFailure(cfg: Config, c: Contract, now: Instant): Contract {
    var n := c.attempts + 1;
    if cfg.maxAttempts <= n
    then c.(attempts := n, status := ContractFailed, nextAttemptAt := None,
            notification := if c.notification.NotificationSent? then NotificationSent else NotificationFailed)
    else c.(attempts := n, nextAttemptAt := Some(now + UnguardedWait(cfg.retryBase as int, cfg.retryMax as int, n)))
  }

  /** An analyst reopens a failed issuance; the document it has is kept. */
  function Reopened(c: Contract, now: Instant): Contract {
    c.(status := if c.document.None? then ContractPending else ContractDocumentReady,
       notification := if c.notification.NotificationFailed? then NotificationPending else c.notification,
       attempts := 0, nextAttemptAt := Some(now))
  }

  predicate InProgress(c: Contract) {
    c.status.ContractPending? || c.status.ContractDocumentReady?
  }

  /** What every stored issuance keeps, whoever wrote it. */
  predicate WellShaped(cfg: Config, c: Contract) {
    && (c.status.ContractCompleted? ==> c.document.Some? && c.notification.NotificationSent?)
    && (c.status.ContractDocumentReady? ==> c.document.Some? && c.notification.NotificationPending?)
    && (c.status.ContractPending? ==> c.document.None? && c.notification.NotificationPending?)
    && (c.status.ContractFailed? ==> c.notification.NotificationFailed?)
    && (c.availableAt.Some? <==> c.document.Some?)
    && (c.notifiedAt.Some? <==> c.notification.NotificationSent?)
    && c.attempts <= cfg.maxAttempts && (InProgress(c) ==> c.attempts < cfg.maxAttempts)
    && (c.nextAttemptAt.None? <==> c.status.ContractCompleted? || c.status.ContractFailed?)
  }

  // ----- one attempt, in place

  /** How an update ends: nothing written, written although its caller is told that it failed, or written. */
  datatype Write = NotApplied | AppliedUnseen | Applied

  /** Which steps of an attempt fail, and how its updates end. */
  datatype Faults = Faults(generate: bool, store: bool, associate: Write, deliver: bool, confirm: Write, schedule: Write)

  /** The issuance an attempt works on through a pointer. */
  class Cell {
    var c: Contract

    constructor (c: Contract)
      ensures this.c == c
    {
      this.c := c;
    }
  }

  /** The repository and the audit trail. */
  class Repository {
    var rows: map<string, Contract>
    var audit: seq<AuditEntry>

    constructor ()
      ensures rows == map[] && audit == []
    {
      rows, audit := map[], [];
    }

    /** Stores the issuance unless its policy already has one. */
    method Create(c: Contract) returns (stored: Contract, created: bool)
      modifies this
      ensures created <==> c.policyId !in old(rows)
      ensures rows == if created then old(rows)[c.policyId := c] else old(rows)
      ensures audit == old(audit) && c.policyId in rows && stored == rows[c.policyId]
    {
      created := c.policyId !in rows;
      if created {
        rows := rows[c.policyId := c];
      }
      stored := rows[c.policyId];
    }

    method Update(c: Contract, w: Write) returns (ok: bool)
      modifies this`rows
      ensures ok <==> w.Applied? && c.policyId in old(rows)
      ensures rows == if !w.NotApplied? && c.policyId in old(rows) then old(rows)[c.policyId := c] else old(rows)
    {
      ok := w.Applied? && c.policyId in rows;
      if !w.NotApplied? && c.policyId in rows {
        rows := rows[c.policyId := c];
      }
    }
  }

  method IssueDocument(cell: Cell, repo: Repository, doc: Document, f: Faults, now: Instant) returns (ok: bool)
    modifies cell, repo
    ensures ok <==> !f.generate && !f.store && f.associate.Applied? && old(cell.c).policyId in old(repo.rows)
    ensures ok ==>
              && cell.c == Ready(old(cell.c), doc, now)
              && repo.rows == old(repo.rows)[cell.c.policyId := cell.c]
              && repo.audit == old(repo.audit) + [AuditEntry(DocumentGenerated, Some(doc), 0)]
    ensures !ok ==>
              && repo.audit == old(repo.audit)
              && repo.rows == if !f.generate && !f.store && f.associate.AppliedUnseen? && cell.c.policyId in old(repo.rows)
                              then old(repo.rows)[cell.c.policyId := Ready(old(cell.c), doc, now)] else old(repo.rows)
    ensures !ok && old(cell.c).status.ContractPending? && old(cell.c).document.None? && old(cell.c).availableAt.None? ==>
              cell.c == old(cell.c)
    ensures cell.c.policyId == old(cell.c).policyId
  {
    if f.generate || f.store {
      return false;
    }
    cell.c := cell.c.(document := Some(doc), status := ContractDocumentReady, availableAt := Some(now));
    ok := repo.Update(cell.c, f.associate);
    if !ok {
      cell.c := cell.c.(document := None, status := ContractPending, availableAt := None);
      return;
    }
    repo.audit := repo.audit + [AuditEntry(DocumentGenerated, Some(doc), 0)];
  }

  method Notify(cell: Cell, repo: Repository, f: Faults, now: Instant) returns (ok: bool)
    modifies cell, repo
    ensures ok <==> !f.deliver && f.confirm.Applied? && old(cell.c).policyId in old(repo.rows)
    ensures ok ==>
              && cell.c == Notified(old(cell.c), now)
              && repo.rows == old(repo.rows)[cell.c.policyId := cell.c]
              && repo.audit == old(repo.audit) + [AuditEntry(NotificationDelivered, cell.c.document, cell.c.attempts + 1)]
    ensures !ok ==>
              && repo.audit == old(repo.audit)
              && repo.rows == if !f.deliver && f.confirm.AppliedUnseen? && cell.c.policyId in old(repo.rows)
                              then old(repo.rows)[cell.c.policyId := Notified(old(cell.c), now)] else old(repo.rows)
    ensures !ok && old(cell.c).status.ContractDocumentReady? && old(cell.c).notification.NotificationPending? && old(cell.c).notifiedAt.None? ==>
              cell.c == old(cell.c) || cell.c == old(cell.c).(nextAttemptAt := None)
    ensures cell.c.policyId == old(cell.c).policyId
  {
    if f.deliver {
      return false;
    }
    cell.c := cell.c.(notification := NotificationSent, notifiedAt := Some(now), status := ContractCompleted, nextAttemptAt := None);
    ok := repo.Update(cell.c, f.confirm);
    if !ok {
      // The next attempt is not restored here: the failure is scheduled anew by the caller.
      cell.c := cell.c.(notification := NotificationPending, status := ContractDocumentReady, notifiedAt := None);
      return;
    }
    repo.audit := repo.audit + [AuditEntry(NotificationDelivered, cell.c.document, cell.c.attempts + 1)];
  }

  /** The row an undisturbed attempt leaves. A failed step writes its own copy back over whatever was applied. */
  function Attempted(cfg: Config, c: Contract, doc: Document, f: Faults, now: Instant): Contract {
    var ready := if c.document.None? then Ready(c, doc, now) else c;
    if c.document.None? && (f.generate || f.store || !f.associate.Applied?) then
      if !f.schedule.NotApplied? then AfterFailure(cfg, c, now)
      else if !f.generate && !f.store && f.associate.AppliedUnseen? then ready
      else c
    else if !f.deliver && f.confirm.Applied? then Notified(ready, now)
    else if !f.schedule.NotApplied? then AfterFailure(cfg, ready, now)
    else if !f.deliver && f.confirm.AppliedUnseen? then Notified(ready, now)
    else ready
  }

  /** One attempt over a due issuance: the row it leaves is well-shaped, keeps its document, and every notice audited has one. */
  method Attempt(cfg: Config, repo: Repository, c: Contract, doc: Document, f: Faults, now: Instant)
    requires cfg.Valid() && WellShaped(cfg, c) && InProgress(c) && c.policyId in repo.rows && repo.rows[c.policyId] == c
    modifies repo
    ensures repo.rows == old(repo.rows)[c.policyId := Attempted(cfg, c, doc, f, now)]
    ensures WellShaped(cfg, repo.rows[c.policyId])
    ensures c.document.Some? ==> repo.rows[c.policyId].document == c.document
    ensures old(repo.audit) <= repo.audit
    ensures forall i :: |old(repo.audit)| <= i < |repo.audit| ==> repo.audit[i].document.Some?
  {
    var cell := new Cell(c);
    var step := DocumentStep;
    var ok := true;
    if cell.c.document.None? {
      ok := IssueDocument(cell, repo, doc, f, now);
    }
    if ok {
      step := NotifyStep;
      ok := Notify(cell, repo, f, now);
    }
    if ok {
      return;
    }
    ScheduleAgain(cfg, cell, repo, step, f.schedule, now);
  }

  /** Counts the failed attempt and writes the copy back, whatever the row holds by now. */
  method ScheduleAgain(cfg: Config, cell: Cell, repo: Repository, step: FailedStep, w: Write, now: Instant)
    modifies cell, repo
    ensures repo.rows == if !w.NotApplied? && old(cell.c).policyId in old(repo.rows)
                         then old(repo.rows)[old(cell.c).policyId := AfterFailure(cfg, old(cell.c), now)] else old(repo.rows)
    ensures repo.audit == old(repo.audit) +
                            if w.Applied? && old(cell.c).policyId in old(repo.rows) && step.NotifyStep?
                            then [AuditEntry(NotificationNotDelivered, old(cell.c).document, old(cell.c).attempts + 1)] else []
  {
    cell.c := AfterFailure(cfg, cell.c, now);
    var stored := repo.Update(cell.c, w);
    if stored && step.NotifyStep? {
      repo.audit := repo.audit + [AuditEntry(NotificationNotDelivered, cell.c.document, cell.c.attempts)];
    }
  }

  /** The document was written during the attempt. */
  predicate Persists(c: Contract, f: Faults) {
    c.document.None? && !f.generate && !f.store && !f.associate.NotApplied?
  }

  /** The notice was recorded during the attempt. */
  predicate Completes(c: Contract, f: Faults) {
    (c.document.None? ==> Persists(c, f) && f.associate.Applied?) && !f.deliver && !f.confirm.NotApplied?
  }

  /** What an attempt wrote stays exactly unless the update committed unseen and the failure was then written over it. */
  lemma KeptExactlyWhen(cfg: Config, c: Contract, doc: Document, f: Faults, now: Instant)
    requires cfg.Valid() && WellShaped(cfg, c) && InProgress(c)
    ensures Persists(c, f) ==>
              (Attempted(cfg, c, doc, f, now).document == Some(doc) <==> !(f.associate.AppliedUnseen? && !f.schedule.NotApplied?))
    ensures Completes(c, f) ==>
              (Attempted(cfg, c, doc, f, now).status.ContractCompleted? <==> !(f.confirm.AppliedUnseen? && !f.schedule.NotApplied?))
  {
  }

  // ----- when the next attempt runs

  /**
   A failed attempt is counted, its document stays, and the next one runs after
   one base wait, doubled by each failure before, within the maximum; at the
   maximum of attempts the issuance fails. So it is while no doubling overflows.
   */
  lemma NextAttemptRule(cfg: Config, c: Contract, now: Instant)
    requires cfg.Valid() && WellShaped(cfg, c) && InProgress(c)
    requires DoublesSafely(cfg.retryBase as int, cfg.retryMax as int, c.attempts)
    ensures var r, wait := AfterFailure(cfg, c, now), Min(cfg.retryBase as int * Pow2(c.attempts), cfg.retryMax as int);
            if c.attempts + 1 < cfg.maxAttempts
            then r == c.(attempts := c.attempts + 1, nextAttemptAt := Some(now + wait))
            else r == c.(attempts := c.attempts + 1, nextAttemptAt := None, status := ContractFailed, notification := NotificationFailed)
  {
    UnguardedLoopDoubles(cfg.retryBase as int, cfg.retryMax as int, 0, c.attempts);
  }

  /** Every attempt but the last is followed by a later one exactly when no doubling that the maximum of attempts allows overflows. */
  lemma RetriesAreLaterExactlyWhen(cfg: Config)
    requires cfg.Valid()
    ensures (forall c: Contract, now: Instant :: c.attempts + 1 < cfg.maxAttempts ==> IsLater(AfterFailure(cfg, c, now), now))
       <==> DoublesSafely(cfg.retryBase as int, cfg.retryMax as int, cfg.maxAttempts - 2)
  {
    var base, max := cfg.retryBase as int, cfg.retryMax as int;
    if !DoublesSafely(base, max, cfg.maxAttempts - 2) {
      var k: nat :| k < cfg.maxAttempts - 2 && Overflows(base, max, k);
      UnguardedLoopWraps(base, max, 0, k);
      var c := Received("", 0).(attempts := k + 1);
      assert UnguardedWait(base, max, k + 2) < 0;
      assert !IsLater(AfterFailure(cfg, c, 0), 0);
    } else {
      forall c: Contract, now: Instant | c.attempts + 1 < cfg.maxAttempts
        ensures IsLater(AfterFailure(cfg, c, now), now)
      {
        UnguardedLoopDoubles(base, max, 0, c.attempts);
        ScaledPow2Monotone(base, 0, c.attempts);
      }
    }
  }

  predicate IsLater(c: Contract, now: Instant) {
    c.nextAttemptAt.Some? && now < c.nextAttemptAt.value
  }
}
