/**
 Several tasks over one contractual issuance. A task claims the row, keeps a
 copy of it, and writes the whole copy back without looking at the row again
 (services/origination/internal/adapters/postgres/contracts.go).
 */
module IssuanceProtocol {
  import opened Common
  import opened Issuance

  /**
   `span` is the longest time between the claim of a batch and the last write of
   one of its attempts. `keepsClaim` says whether the write of the document keeps
   the claim; the code as written releases it on every update. `lossy` says that
   an update may commit although its caller is told that it failed, at once or
   at any later time, as happens when the deadline of the attempt passes while
   the update or its answer is on its way.
   */
  datatype Config = Config(issuance: Issuance.Config, lease: int, span: int, keepsClaim: bool, lossy: bool) {
    predicate Valid() {
      issuance.Valid() && 0 < lease && 0 <= span
    }
  }

  datatype Worker = Worker(copy: Contract, claimedAt: Instant, failing: Option<FailedStep>)

  /** `late` are updates reported as failed that may still commit. */
  datatype State = State(clock: Instant, row: Contract, claimedUntil: Option<Instant>, workers: map<nat, Worker>, audit: seq<AuditEntry>,
                         late: set<Contract>)

  /** `attempted` is how the update of a step ended, or none when the step failed before it. */
  datatype Step =
    | Tick(now: Instant)
    | Claim(w: nat)
    | Issue(w: nat, doc: Document, attempted: Option<Write>)
    | Deliver(w: nat, attempted: Option<Write>)
    | Fail(w: nat, write: Write)
    | Crash(w: nat)
    | Reopen
    | Land(c: Contract)

  predicate Free(s: State) {
    s.claimedUntil.None? || s.claimedUntil.value < s.clock
  }

  /** A worker may still write what it claimed. */
  predicate MayWrite(cfg: Config, s: State, w: nat)
    requires w in s.workers
  {
    s.clock <= s.workers[w].claimedAt + cfg.span
  }

  predicate Enabled(cfg: Config, s: State, step: Step) {
    match step
    case Tick(now) => s.clock <= now
    case Claim(w) =>
      w !in s.workers && InProgress(s.row) && s.row.nextAttemptAt.Some? && s.row.nextAttemptAt.value <= s.clock && Free(s)
    case Issue(w, _, a) =>
      && (a == Some(AppliedUnseen) ==> cfg.lossy)
      && w in s.workers && MayWrite(cfg, s, w) && s.workers[w].failing.None? && s.workers[w].copy.document.None?
    case Deliver(w, a) =>
      && (a == Some(AppliedUnseen) ==> cfg.lossy)
      && w in s.workers && MayWrite(cfg, s, w) && s.workers[w].failing.None?
      && s.workers[w].copy.document.Some? && !s.workers[w].copy.notification.NotificationSent?
    case Fail(w, write) => (write.AppliedUnseen? ==> cfg.lossy) && w in s.workers && MayWrite(cfg, s, w) && s.workers[w].failing.Some?
    case Crash(w) => w in s.workers
    case Reopen => s.row.status.ContractFailed?
    case Land(c) => c in s.late
  }

  /** An update that was reported as failed and has not committed, yet. */
  function Missed(cfg: Config, s: State, a: Option<Write>, c: Contract): State {
    if a == Some(NotApplied) && cfg.lossy then s.(late := s.late + {c}) else s
  }

  function Do(cfg: Config, s: State, step: Step): State
    requires Enabled(cfg, s, step)
  {
    match step
    case Tick(now) => s.(clock := now)
    case Claim(w) => s.(claimedUntil := Some(s.clock + cfg.lease), workers := s.workers[w := Worker(s.row, s.clock, None)])
    case Issue(w, doc, a) =>
      var k := s.workers[w];
      var c := Ready(k.copy, doc, s.clock);
      var s1 := if a == Some(Applied) || a == Some(AppliedUnseen)
                then s.(row := c, claimedUntil := if cfg.keepsClaim then s.claimedUntil else None) else Missed(cfg, s, a, c);
      if a == Some(Applied)
      then s1.(workers := s.workers[w := k.(copy := c)], audit := s.audit + [AuditEntry(DocumentGenerated, Some(doc), 0)])
      else s1.(workers := s.workers[w := k.(failing := Some(DocumentStep))])
    case Deliver(w, a) =>
      var k := s.workers[w];
      var s1 := if a == Some(Applied) || a == Some(AppliedUnseen)
                then s.(row := Notified(k.copy, s.clock), claimedUntil := None) else Missed(cfg, s, a, Notified(k.copy, s.clock));
      if a == Some(Applied)
      then s1.(workers := s.workers - {w}, audit := s.audit + [AuditEntry(NotificationDelivered, k.copy.document, k.copy.attempts + 1)])
      else s1.(workers := s.workers[w := k.(failing := Some(NotifyStep))])
    case Fail(w, write) =>
      var k := s.workers[w];
      var c := AfterFailure(cfg.issuance, k.copy, s.clock);
      var rest := s.(workers := s.workers - {w});
      if write.NotApplied? then Missed(cfg, rest, Some(write), c)
      else rest.(row := c, claimedUntil := None,
                 audit := if write.Applied? && k.failing.value.NotifyStep?
                          then s.audit + [AuditEntry(NotificationNotDelivered, c.document, c.attempts)] else s.audit)
    case Crash(w) => s.(workers := s.workers - {w})
    case Reopen => s.(row := Reopened(s.row, s.clock), claimedUntil := None)
    case Land(c) => s.(row := c, claimedUntil := None, late := s.late - {c})
  }

  predicate Start(s: State) {
    s.row == Received(s.row.policyId, s.clock) && s.claimedUntil.None? && s.workers == map[] && s.audit == [] && s.late == {}
  }

  // ----- what holds in every interleaving

  predicate CopyOk(cfg: Config, k: Worker) {
    && WellShaped(cfg.issuance, k.copy) && InProgress(k.copy)
    && (k.failing == Some(NotifyStep) ==> k.copy.document.Some?)
  }

  ghost predicate Shaped(cfg: Config, s: State) {
    && WellShaped(cfg.issuance, s.row)
    && (forall w :: w in s.workers ==> CopyOk(cfg, s.workers[w]))
    && (forall c :: c in s.late ==> WellShaped(cfg.issuance, c))
    && (forall i :: 0 <= i < |s.audit| ==> s.audit[i].document.Some?)
  }

  lemma ShapedKept(cfg: Config, s: State, step: Step)
    requires cfg.Valid() && Shaped(cfg, s) && Enabled(cfg, s, step)
    ensures Shaped(cfg, Do(cfg, s, step))
  {
  }

  predicate Legal(cfg: Config, s: State, steps: seq<Step>)
    decreases |steps|
  {
    steps == [] || (Enabled(cfg, s, steps[0]) && Legal(cfg, Do(cfg, s, steps[0]), steps[1..]))
  }

  function Run(cfg: Config, s: State, steps: seq<Step>): State
    requires Legal(cfg, s, steps)
    decreases |steps|
  {
    if steps == [] then s else Run(cfg, Do(cfg, s, steps[0]), steps[1..])
  }

  lemma {:induction false} ShapedAlways(cfg: Config, s: State, steps: seq<Step>)
    requires cfg.Valid() && Shaped(cfg, s) && Legal(cfg, s, steps)
    ensures Shaped(cfg, Run(cfg, s, steps))
    decreases |steps|
  {
    if steps != [] {
      ShapedKept(cfg, s, steps[0]);
      ShapedAlways(cfg, Do(cfg, s, steps[0]), steps[1..]);
    }
  }

  /** However tasks overlap and writes fail, the row is well-shaped and no audited notice lacks its document. */
  lemma EveryRowIsWellShaped(cfg: Config, s: State, steps: seq<Step>)
    requires cfg.Valid() && Start(s) && Legal(cfg, s, steps)
    ensures var e := Run(cfg, s, steps);
            && WellShaped(cfg.issuance, e.row)
            && forall i :: 0 <= i < |e.audit| ==> e.audit[i].document.Some?
  {
    ShapedAlways(cfg, s, steps);
  }

  /** Any task may take a reopened issuance at once: it starts its count anew, with the document it has. */
  lemma ReopenedIsDue(cfg: Config, s: State, w: nat)
    requires Enabled(cfg, s, Reopen) && w !in s.workers
    ensures var s' := Do(cfg, s, Reopen);
            && Enabled(cfg, s', Claim(w)) && s'.row.attempts == 0 && s'.row.document == s.row.document && s'.row.availableAt == s.row.availableAt
            && (s'.row.status == ContractDocumentReady <==> s.row.document.Some?)
  {
  }

  // ----- a persisted document is never replaced

  /** A task that may write: without a document it owns the row, with one it agrees with the row. */
  predicate AgreesOnDocument(cfg: Config, s: State, w: nat)
    requires w in s.workers
  {
    MayWrite(cfg, s, w) ==>
      if s.workers[w].copy.document.None?
      then s.row.document.None? && s.claimedUntil == Some(s.workers[w].claimedAt + cfg.lease)
      else s.row.document == s.workers[w].copy.document
  }

  ghost predicate DocumentOk(cfg: Config, s: State) {
    && s.late == {}
    && (s.row.status.ContractFailed? ==> s.claimedUntil.None?)
    && (forall w :: w in s.workers ==> AgreesOnDocument(cfg, s, w))
    && (forall w, w' :: Drafting(cfg, s, w) && Drafting(cfg, s, w') ==> w == w')
  }

  /** A task that may still persist a document of its own. */
  predicate Drafting(cfg: Config, s: State, w: nat) {
    w in s.workers && MayWrite(cfg, s, w) && s.workers[w].copy.document.None?
  }

  lemma DocumentKept(cfg: Config, s: State, step: Step)
    requires cfg.Valid() && cfg.span <= cfg.lease && !cfg.lossy && Shaped(cfg, s) && DocumentOk(cfg, s) && Enabled(cfg, s, step)
    ensures DocumentOk(cfg, Do(cfg, s, step))
    ensures s.row.document.Some? ==> Do(cfg, s, step).row.document == s.row.document
  {
    var s' := Do(cfg, s, step);
    if step.Issue? || step.Deliver? || step.Fail? {
      assert AgreesOnDocument(cfg, s, step.w) && CopyOk(cfg, s.workers[step.w]);
      assert s.workers[step.w].copy.document.None? <==> Drafting(cfg, s, step.w);
    }
    forall w | w in s'.workers
      ensures AgreesOnDocument(cfg, s', w)
      ensures Drafting(cfg, s', w) && w in s.workers ==> Drafting(cfg, s, w)
    {
      assert w in s.workers ==> AgreesOnDocument(cfg, s, w);
      assert Drafting(cfg, s', w) && w in s.workers ==> Drafting(cfg, s, w);
    }
  }

  /** No step of any run replaces or loses a document that was persisted. */
  ghost predicate NeverReplaces(cfg: Config)
    requires cfg.Valid()
  {
    forall s0, steps, step :: Start(s0) && Legal(cfg, s0, steps) && Enabled(cfg, Run(cfg, s0, steps), step) ==>
      DocumentStays(Run(cfg, s0, steps), Do(cfg, Run(cfg, s0, steps), step))
  }

  predicate DocumentStays(s: State, s': State) {
    s.row.document.Some? ==> s'.row.document == s.row.document
  }

  lemma {:induction false} DocumentAlways(cfg: Config, s: State, steps: seq<Step>)
    requires cfg.Valid() && cfg.span <= cfg.lease && !cfg.lossy && Shaped(cfg, s) && DocumentOk(cfg, s) && Legal(cfg, s, steps)
    ensures Shaped(cfg, Run(cfg, s, steps)) && DocumentOk(cfg, Run(cfg, s, steps))
    decreases |steps|
  {
    if steps != [] {
      ShapedKept(cfg, s, steps[0]);
      DocumentKept(cfg, s, steps[0]);
      DocumentAlways(cfg, Do(cfg, s, steps[0]), steps[1..]);
    }
  }

  // ----- building runs

  ghost predicate Path(cfg: Config, s: State, steps: seq<Step>, s': State) {
    Legal(cfg, s, steps) && Run(cfg, s, steps) == s'
  }

  lemma {:induction false} RunAppend(cfg: Config, s: State, steps: seq<Step>, step: Step)
    requires Legal(cfg, s, steps) && Enabled(cfg, Run(cfg, s, steps), step)
    ensures Legal(cfg, s, steps + [step])
    ensures Run(cfg, s, steps + [step]) == Do(cfg, Run(cfg, s, steps), step)
    decreases |steps|
  {
    if steps == [] {
      assert [step][1..] == [];
    } else {
      RunAppend(cfg, Do(cfg, s, steps[0]), steps[1..], step);
      assert (steps + [step])[1..] == steps[1..] + [step];
    }
  }

  lemma Extend(cfg: Config, s0: State, steps: seq<Step>, s: State, step: Step) returns (steps': seq<Step>, s': State)
    requires Path(cfg, s0, steps, s) && Enabled(cfg, s, step)
    ensures s' == Do(cfg, s, step) && Path(cfg, s0, steps', s')
  {
    RunAppend(cfg, s0, steps, step);
    steps', s' := steps + [step], Do(cfg, s, step);
  }

  const RECEIVED := State(0, Received("p", 0), None, map[], [], {})
  const FIRST := Document("first", "")
  const SECOND := Document("second", "")

  /** The lease of task 0 runs out before it wrote anything, and task 1 takes the row over. */
  lemma Overlap(cfg: Config) returns (steps: seq<Step>, s: State)
    requires cfg.Valid() && cfg.lease < cfg.span
    ensures Path(cfg, RECEIVED, steps, s)
    ensures s.clock == cfg.lease + 1 && s.row == RECEIVED.row
    ensures s.workers == map[0 := Worker(s.row, 0, None), 1 := Worker(s.row, cfg.lease + 1, None)]
  {
    steps, s := Extend(cfg, RECEIVED, [], RECEIVED, Claim(0));
    steps, s := Extend(cfg, RECEIVED, steps, s, Tick(cfg.lease + 1));
    steps, s := Extend(cfg, RECEIVED, steps, s, Claim(1));
  }

  /** The document is persisted, its caller is told otherwise, and the failure is written over it. */
  lemma LoseTheDocument(cfg: Config)
    requires cfg.Valid() && cfg.lossy
    ensures !NeverReplaces(cfg)
  {
    var steps, s := Extend(cfg, RECEIVED, [], RECEIVED, Claim(0));
    steps, s := Extend(cfg, RECEIVED, steps, s, Issue(0, FIRST, Some(AppliedUnseen)));
    assert Enabled(cfg, s, Fail(0, Applied)) && !DocumentStays(s, Do(cfg, s, Fail(0, Applied)));
  }

  /**
   A persisted document is never replaced or lost exactly when no task writes past
   the end of its lease and no update commits unseen.
   */
  lemma NeverReplacesExactlyWhen(cfg: Config)
    requires cfg.Valid()
    ensures NeverReplaces(cfg) <==> cfg.span <= cfg.lease && !cfg.lossy
  {
    if cfg.lossy {
      LoseTheDocument(cfg);
    } else if cfg.span <= cfg.lease {
      forall s0, steps, step | Start(s0) && Legal(cfg, s0, steps) && Enabled(cfg, Run(cfg, s0, steps), step)
        ensures DocumentStays(Run(cfg, s0, steps), Do(cfg, Run(cfg, s0, steps), step))
      {
        DocumentAlways(cfg, s0, steps);
        DocumentKept(cfg, Run(cfg, s0, steps), step);
      }
    } else {
      var steps, s := Overlap(cfg);
      steps, s := Extend(cfg, RECEIVED, steps, s, Issue(1, FIRST, Some(Applied)));
      var step := Issue(0, SECOND, Some(Applied));
      assert Enabled(cfg, s, step) && !DocumentStays(s, Do(cfg, s, step));
    }
  }

  /** Batch size, attempt timeout and lease as the code sets them, in seconds. */
  const BATCH := 50
  const ATTEMPT_TIMEOUT := 10
  const CONTRACT_LEASE := 120

  /** A full batch of slow attempts outlives the lease it was claimed under. */
  lemma DefaultsMayReplace(issuance: Issuance.Config, keepsClaim: bool, lossy: bool)
    requires issuance.Valid()
    ensures !NeverReplaces(Config.Config(issuance, CONTRACT_LEASE, BATCH * ATTEMPT_TIMEOUT, keepsClaim, lossy))
  {
    NeverReplacesExactlyWhen(Config.Config(issuance, CONTRACT_LEASE, BATCH * ATTEMPT_TIMEOUT, keepsClaim, lossy));
  }

  // ----- a completed issuance stays completed

  /** A task that may write owns the row. */
  predicate Owns(cfg: Config, s: State, w: nat)
    requires w in s.workers
  {
    MayWrite(cfg, s, w) ==> s.claimedUntil == Some(s.workers[w].claimedAt + cfg.lease)
  }

  predicate Writing(cfg: Config, s: State, w: nat) {
    w in s.workers && MayWrite(cfg, s, w)
  }

  ghost predicate OwnerOk(cfg: Config, s: State) {
    && s.late == {}
    && (InProgress(s.row) || s.claimedUntil.None?)
    && (forall w :: w in s.workers ==> Owns(cfg, s, w))
    && (forall w, w' :: Writing(cfg, s, w) && Writing(cfg, s, w') ==> w == w')
  }

  lemma OwnerKept(cfg: Config, s: State, step: Step)
    requires cfg.Valid() && cfg.span <= cfg.lease && cfg.keepsClaim && !cfg.lossy && OwnerOk(cfg, s) && Enabled(cfg, s, step)
    ensures OwnerOk(cfg, Do(cfg, s, step))
    ensures CompletedStays(s, Do(cfg, s, step))
  {
    var s' := Do(cfg, s, step);
    if step.Issue? || step.Deliver? || step.Fail? {
      assert Owns(cfg, s, step.w) && Writing(cfg, s, step.w);
    }
    forall w | w in s'.workers
      ensures Owns(cfg, s', w)
      ensures Writing(cfg, s', w) && w in s.workers ==> Writing(cfg, s, w)
    {
      assert w in s.workers ==> Owns(cfg, s, w);
      assert Writing(cfg, s', w) && w in s.workers ==> Writing(cfg, s, w);
    }
  }

  predicate CompletedStays(s: State, s': State) {
    s.row.status.ContractCompleted? ==> s'.row.status.ContractCompleted?
  }

  ghost predicate NeverUncompletes(cfg: Config)
    requires cfg.Valid()
  {
    forall s0, steps, step :: Start(s0) && Legal(cfg, s0, steps) && Enabled(cfg, Run(cfg, s0, steps), step) ==>
      CompletedStays(Run(cfg, s0, steps), Do(cfg, Run(cfg, s0, steps), step))
  }

  lemma {:induction false} OwnerAlways(cfg: Config, s: State, steps: seq<Step>)
    requires cfg.Valid() && cfg.span <= cfg.lease && cfg.keepsClaim && !cfg.lossy && OwnerOk(cfg, s) && Legal(cfg, s, steps)
    ensures OwnerOk(cfg, Run(cfg, s, steps))
    decreases |steps|
  {
    if steps != [] {
      OwnerKept(cfg, s, steps[0]);
      OwnerAlways(cfg, Do(cfg, s, steps[0]), steps[1..]);
    }
  }

  /** Task 0 persists the document, which frees the row; task 1 takes it while task 0 is still notifying. */
  lemma TwoNotifiers(cfg: Config) returns (steps: seq<Step>, s: State)
    requires cfg.Valid() && !cfg.keepsClaim
    ensures Path(cfg, RECEIVED, steps, s) && s.clock == 0
    ensures var c := Ready(RECEIVED.row, FIRST, 0); s.workers == map[0 := Worker(c, 0, None), 1 := Worker(c, 0, None)]
  {
    steps, s := Extend(cfg, RECEIVED, [], RECEIVED, Claim(0));
    steps, s := Extend(cfg, RECEIVED, steps, s, Issue(0, FIRST, Some(Applied)));
    steps, s := Extend(cfg, RECEIVED, steps, s, Claim(1));
  }

  /** Task 0 completes; then task 1, whose delivery failed, writes its own copy back. */
  lemma UndoTheCompletion(cfg: Config, steps0: seq<Step>, s0: State)
    requires cfg.Valid() && !cfg.keepsClaim && Path(cfg, RECEIVED, steps0, s0) && s0.clock == 0
    requires var c := Ready(RECEIVED.row, FIRST, 0); s0.workers == map[0 := Worker(c, 0, None), 1 := Worker(c, 0, None)]
    ensures !NeverUncompletes(cfg)
  {
    var steps, s := Extend(cfg, RECEIVED, steps0, s0, Deliver(1, None));
    steps, s := Extend(cfg, RECEIVED, steps, s, Deliver(0, Some(Applied)));
    assert Enabled(cfg, s, Fail(1, Applied)) && !CompletedStays(s, Do(cfg, s, Fail(1, Applied)));
  }

  /** The same with an overlap past the lease: task 1 failed to generate the document that task 0 delivered. */
  lemma UndoAfterTheLease(cfg: Config)
    requires cfg.Valid() && cfg.lease < cfg.span
    ensures !NeverUncompletes(cfg)
  {
    var steps, s := Overlap(cfg);
    steps, s := Extend(cfg, RECEIVED, steps, s, Issue(1, SECOND, None));
    steps, s := Extend(cfg, RECEIVED, steps, s, Issue(0, FIRST, Some(Applied)));
    steps, s := Extend(cfg, RECEIVED, steps, s, Deliver(0, Some(Applied)));
    assert Enabled(cfg, s, Fail(1, Applied)) && !CompletedStays(s, Do(cfg, s, Fail(1, Applied)));
  }

  /** The completion is recorded, its caller is told otherwise, and the failure is written over it. */
  lemma LoseTheCompletion(cfg: Config)
    requires cfg.Valid() && cfg.lossy
    ensures !NeverUncompletes(cfg)
  {
    var steps, s := Extend(cfg, RECEIVED, [], RECEIVED, Claim(0));
    steps, s := Extend(cfg, RECEIVED, steps, s, Issue(0, FIRST, Some(Applied)));
    steps, s := Extend(cfg, RECEIVED, steps, s, Deliver(0, Some(AppliedUnseen)));
    assert Enabled(cfg, s, Fail(0, Applied)) && !CompletedStays(s, Do(cfg, s, Fail(0, Applied)));
  }

  /**
   Completed is final exactly when a task keeps its claim until its last write,
   never writes past its lease, and no update commits unseen.
   */
  lemma NeverUncompletesExactlyWhen(cfg: Config)
    requires cfg.Valid()
    ensures NeverUncompletes(cfg) <==> cfg.keepsClaim && cfg.span <= cfg.lease && !cfg.lossy
  {
    if cfg.lossy {
      LoseTheCompletion(cfg);
    } else if cfg.lease < cfg.span {
      UndoAfterTheLease(cfg);
    } else if !cfg.keepsClaim {
      var steps, s := TwoNotifiers(cfg);
      UndoTheCompletion(cfg, steps, s);
    } else {
      forall s0, steps, step | Start(s0) && Legal(cfg, s0, steps) && Enabled(cfg, Run(cfg, s0, steps), step)
        ensures CompletedStays(Run(cfg, s0, steps), Do(cfg, Run(cfg, s0, steps), step))
      {
        OwnerAlways(cfg, s0, steps);
        OwnerKept(cfg, Run(cfg, s0, steps), step);
      }
    }
  }
}
