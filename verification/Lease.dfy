/**
 The idempotent attempt (pkg/idempotency): what a stored attempt is, the
 conditional writes of its store, and `Runner.Process`. `P` is the data sent to
 the provider besides the key: a payment method, a payout account.
 */
module Lease {
  import opened Common
  import opened Retry

  datatype Status = Pending | InProgress | Confirmed | Failed

  datatype FailureReason = ReasonRejected | ReasonWindowExpired

  /** How the runner classifies one call to the provider. */
  datatype Outcome = OutcomeConfirmed | OutcomeRejected | OutcomeAmbiguous | OutcomeNotSent

  /** The error of a call: none, or the sentinels its chain wraps. */
  datatype CallError = NoError | Wraps(rejected: bool, notSent: bool)

  function Classify(err: CallError): Outcome {
    if err.NoError? then OutcomeConfirmed
    else if err.rejected then OutcomeRejected
    else if err.notSent then OutcomeNotSent
    else OutcomeAmbiguous
  }

  datatype Attempt<+P> = Attempt(
    key: string,
    payload: P,
    status: Status,
    failedAttempts: nat,
    windowEndsAt: Option<Instant>,
    nextAttemptAt: Option<Instant>,
    claimedUntil: Option<Instant>)

  /** `cap` bounds the failures of one round by count, as the payout worker does. */
  datatype Config = Config(policy: RetryPolicy, lease: int, cap: Option<nat>) {
    predicate Valid() {
      policy.Valid() && 0 < lease
    }
  }

  // ----- the conditional writes

  /** Pending and due, or held by a claim whose lease expired. Without a due date nothing is due. */
  predicate Claimable<P>(a: Attempt<P>, now: Instant) {
    || (a.status.Pending? && a.nextAttemptAt.Some? && a.nextAttemptAt.value <= now)
    || (a.status.InProgress? && a.claimedUntil.Some? && a.claimedUntil.value < now)
  }

  function Claimed<P>(a: Attempt<P>, now: Instant, lease: int): Attempt<P> {
    a.(status := InProgress, claimedUntil := Some(now + lease))
  }

  /** The stored attempt is still held by the claim that returned `rec`. */
  predicate Holds<P>(a: Attempt<P>, rec: Attempt<P>) {
    a.status.InProgress? && a.claimedUntil.Some? && a.claimedUntil == rec.claimedUntil
  }

  /** What a call's outcome asks the store to record. */
  datatype Verdict = ToConfirm | ToFail(reason: FailureReason) | ToReschedule(next: Instant)

  /** The n-th failure of a round, at `at`, is its last one: the window ended or the count is reached. */
  predicate RoundOver(cfg: Config, n: nat, windowEndsAt: Option<Instant>, at: Instant) {
    || (windowEndsAt.Some? && windowEndsAt.value <= at)
    || (cfg.cap.Some? && cfg.cap.value <= n)
  }

  function Decide<P>(cfg: Config, rec: Attempt<P>, outcome: Outcome, now: Instant): (v: Verdict)
    requires cfg.Valid()
    ensures v.ToConfirm? <==> outcome.OutcomeConfirmed?
    ensures v == ToFail(ReasonRejected) <==> outcome.OutcomeRejected?
    ensures v == ToFail(ReasonWindowExpired) <==>
              (outcome.OutcomeAmbiguous? || outcome.OutcomeNotSent?) && RoundOver(cfg, rec.failedAttempts + 1, rec.windowEndsAt, now)
    ensures v.ToReschedule? ==> v.next == DueDate(cfg.policy, rec.failedAttempts + 1, rec.windowEndsAt, now)
  {
    match outcome
    case OutcomeConfirmed => ToConfirm
    case OutcomeRejected => ToFail(ReasonRejected)
    case _ =>
      match Next(cfg.policy, rec.failedAttempts + 1, rec.windowEndsAt, now)
      case Exhausted => ToFail(ReasonWindowExpired)
      case At(next) =>
        if cfg.cap.Some? && cfg.cap.value <= rec.failedAttempts + 1
        then ToFail(ReasonWindowExpired)
        else ToReschedule(next)
  }

  function Recorded<P>(a: Attempt<P>, v: Verdict): Attempt<P> {
    match v
    case ToConfirm => a.(status := Confirmed, nextAttemptAt := None)
    case ToFail(_) => a.(status := Failed, failedAttempts := a.failedAttempts + 1, nextAttemptAt := None, claimedUntil := None)
    case ToReschedule(next) =>
      a.(status := Pending, failedAttempts := a.failedAttempts + 1, nextAttemptAt := Some(next), claimedUntil := None)
  }

  // ----- the store and the runner

  /** What `Process` did: whether it claimed, how the call went, and what is stored. */
  datatype Report<+P> = NotClaimed | Ran(outcome: Outcome, status: Status, reason: Option<FailureReason>, rec: Attempt<P>)

  /** A table of attempts whose writes are single conditional statements. */
  class Store<P> {
    var rows: map<string, Attempt<P>>

    constructor ()
      ensures rows == map[]
    {
      rows := map[];
    }

    method Claim(id: string, now: Instant, lease: int) returns (rec: Option<Attempt<P>>)
      modifies this
      ensures rec.Some? <==> id in old(rows) && Claimable(old(rows)[id], now)
      ensures rec.Some? ==> rec.value == old(rows)[id].(status := InProgress, claimedUntil := Some(now + lease)) && rows == old(rows)[id := rec.value]
      ensures rec.None? ==> rows == old(rows)
    {
      if id in rows && Claimable(rows[id], now) {
        rec := Some(Claimed(rows[id], now, lease));
        rows := rows[id := rec.value];
      } else {
        rec := None;
      }
    }

    /** Confirm, Reschedule and Fail: recorded only while the claim of `rec` is held, else nothing changes. */
    method Record(id: string, rec: Attempt<P>, v: Verdict) returns (stored: Option<Attempt<P>>)
      modifies this
      ensures stored.Some? <==> id in old(rows) && Holds(old(rows)[id], rec)
      ensures stored.Some? ==> stored.value == Recorded(old(rows)[id], v) && rows == old(rows)[id := stored.value]
      ensures stored.None? ==> rows == old(rows)
    {
      if id in rows && Holds(rows[id], rec) {
        stored := Some(Recorded(rows[id], v));
        rows := rows[id := stored.value];
      } else {
        stored := None;
      }
    }
  }

  /** The status and reason a verdict leaves. */
  function StatusOf(v: Verdict): Status {
    match v
    case ToConfirm => Confirmed
    case ToFail(_) => Failed
    case ToReschedule(_) => Pending
  }

  function ReasonOf(v: Verdict): Option<FailureReason> {
    if v.ToFail? then Some(v.reason) else None
  }

  /** The outcome says how the call went: a rejection outweighs the claim that nothing was sent. */
  predicate Describes(outcome: Outcome, err: CallError) {
    match outcome
    case OutcomeConfirmed => err == NoError
    case OutcomeRejected => err.Wraps? && err.rejected
    case OutcomeNotSent => err == Wraps(false, true)
    case OutcomeAmbiguous => err == Wraps(false, false)
  }

  /**
   How a turn ends for the attempt `row` held under the claim `rec`: confirmed by
   a call without error, failed by a rejection, failed by the failure that ends
   its round, and otherwise due again after the doubled wait.
   */
  predicate Ended<P(==)>(cfg: Config, rec: Attempt<P>, row: Attempt<P>, err: CallError, at: Instant, row': Attempt<P>, reason: Option<FailureReason>)
    requires cfg.Valid()
  {
    var n := rec.failedAttempts + 1;
    var failed := row.(failedAttempts := row.failedAttempts + 1, claimedUntil := None);
    if err.NoError? then row' == row.(status := Confirmed, nextAttemptAt := None) && reason == None
    else if err.rejected then row' == failed.(status := Failed, nextAttemptAt := None) && reason == Some(ReasonRejected)
    else if RoundOver(cfg, n, rec.windowEndsAt, at) then row' == failed.(status := Failed, nextAttemptAt := None) && reason == Some(ReasonWindowExpired)
    else row' == failed.(status := Pending, nextAttemptAt := Some(DueDate(cfg.policy, n, rec.windowEndsAt, at))) && reason == None
  }

  /**
   One turn of a worker. `meanwhile` is whatever the other tasks left in the
   table while the provider was being called.
   */
  method Process<P>(cfg: Config, store: Store<P>, id: string, claimAt: Instant,
                    meanwhile: map<string, Attempt<P>>, err: CallError, recordAt: Instant)
    returns (rep: Report<P>)
    requires cfg.Valid()
    modifies store
    ensures rep.NotClaimed? <==> !(id in old(store.rows) && Claimable(old(store.rows)[id], claimAt))
    ensures rep.NotClaimed? ==> store.rows == old(store.rows)
    ensures rep.Ran? ==>
              var rec := Claimed(old(store.rows)[id], claimAt, cfg.lease);
              && Describes(rep.outcome, err)
              && (if id in meanwhile && Holds(meanwhile[id], rec)
                  then && store.rows == meanwhile[id := rep.rec] && rep.status == rep.rec.status
                       && Ended(cfg, rec, meanwhile[id], err, recordAt, rep.rec, rep.reason)
                  else store.rows == meanwhile && rep.status == InProgress && rep.reason == None && rep.rec == rec)
  {
    var claim := store.Claim(id, claimAt, cfg.lease);
    if claim.None? {
      return NotClaimed;
    }
    var rec := claim.value;
    store.rows := meanwhile;
    var outcome := Classify(err);
    var v := Decide(cfg, rec, outcome, recordAt);
    var stored := store.Record(id, rec, v);
    if stored.None? {
      rep := Ran(outcome, InProgress, None, rec);
    } else {
      rep := Ran(outcome, StatusOf(v), ReasonOf(v), stored.value);
    }
  }
}

/**
 Every interleaving of workers over one attempt. A worker may stop at any point,
 its lease may run out while it waits, and other writers may requeue an attempt
 that no worker holds.
 */
module LeaseProtocol {
  import opened Common
  import opened Retry
  import opened Lease

  /** A worker between its claim and its record. An idle worker has no phase. */
  datatype Phase<+P> =
    | Calling(rec: Attempt<P>)
    | Answered(rec: Attempt<P>, outcome: Outcome, at: Instant)

  /**
   `failures` are the instants recorded as failed attempts since the attempt was
   last (re)queued, `tokens` the lease ends handed out, oldest first,
   `requeuedAt` the last requeue that no claim followed, and `rejected` says that
   the last of the failures was a rejection.
   */
  datatype State<+P> = State(
    clock: Instant,
    row: Attempt<P>,
    workers: map<nat, Phase<P>>,
    failures: seq<Instant>,
    tokens: seq<Instant>,
    requeuedAt: Option<Instant>,
    rejected: bool)

  datatype Step<+P> =
    | Tick(now: Instant)
    | Claim(w: nat)
    | Answer(w: nat, outcome: Outcome)
    | Record(w: nat)
    | Crash(w: nat)
    | Requeue(next: Attempt<P>)

  /** What a writer other than the runner may leave: it never touches a held or a confirmed attempt. */
  predicate Requeueable<P>(s: State<P>, next: Attempt<P>) {
    && (s.row.status.Pending? || s.row.status.Failed?)
    && (next.status.Pending? || next.status.Failed?)
    && next.failedAttempts == 0
    && (next.nextAttemptAt.Some? ==> s.clock <= next.nextAttemptAt.value)
  }

  predicate Enabled<P>(cfg: Config, s: State<P>, step: Step<P>) {
    match step
    case Tick(now) => s.clock <= now
    case Claim(w) => w !in s.workers && Claimable(s.row, s.clock)
    case Answer(w, _) => w in s.workers && s.workers[w].Calling?
    case Record(w) => w in s.workers && s.workers[w].Answered?
    case Crash(w) => w in s.workers
    case Requeue(next) => Requeueable(s, next)
  }

  /** The store write of a worker that has its answer. */
  function RecordOf<P>(cfg: Config, s: State<P>, w: nat): State<P>
    requires cfg.Valid() && w in s.workers && s.workers[w].Answered?
  {
    var Answered(rec, outcome, at) := s.workers[w];
    var rest := s.(workers := s.workers - {w});
    if !Holds(s.row, rec) then rest
    else
      var v := Decide(cfg, rec, outcome, at);
      rest.(row := Recorded(s.row, v), failures := if v.ToConfirm? then s.failures else s.failures + [at],
            rejected := outcome.OutcomeRejected?)
  }

  function Do<P>(cfg: Config, s: State<P>, step: Step<P>): State<P>
    requires cfg.Valid() && Enabled(cfg, s, step)
  {
    match step
    case Tick(now) => s.(clock := now)
    case Claim(w) =>
      var rec := Claimed(s.row, s.clock, cfg.lease);
      s.(row := rec, workers := s.workers[w := Calling(rec)], tokens := s.tokens + [s.clock + cfg.lease], requeuedAt := None)
    case Answer(w, outcome) => s.(workers := s.workers[w := Answered(s.workers[w].rec, outcome, s.clock)])
    case Record(w) => RecordOf(cfg, s, w)
    case Crash(w) => s.(workers := s.workers - {w})
    case Requeue(next) => s.(row := next, failures := [], requeuedAt := Some(s.clock), rejected := false)
  }

  predicate Init<P>(s: State<P>) {
    && (s.row.status.Pending? || s.row.status.Failed?)
    && s.row.failedAttempts == 0
    && s.row.claimedUntil.None?
    && s.workers == map[] && s.failures == [] && s.tokens == [] && s.requeuedAt.None? && !s.rejected
  }

  // ----- at most one worker can record

  predicate Holder<P>(s: State<P>, w: nat) {
    w in s.workers && Holds(s.row, s.workers[w].rec)
  }

  /** The claim a live worker works under was taken at or before the clock. */
  predicate ClaimIsPast<P>(cfg: Config, s: State<P>, w: nat)
    requires w in s.workers
  {
    var rec := s.workers[w].rec;
    && rec.status.InProgress? && rec.claimedUntil.Some?
    && rec.claimedUntil.value - cfg.lease <= s.clock
    && (s.workers[w].Answered? ==> rec.claimedUntil.value - cfg.lease <= s.workers[w].at <= s.clock)
  }

  /** A live worker either sees exactly the stored attempt, or its lease is over. */
  ghost predicate HeldOrExpired<P>(cfg: Config, s: State<P>, w: nat)
    requires w in s.workers && s.workers[w].rec.claimedUntil.Some?
  {
    if Holder(s, w) then s.workers[w].rec == s.row else s.workers[w].rec.claimedUntil.value < s.clock
  }

  ghost predicate Exclusive<P>(cfg: Config, s: State<P>) {
    && (s.row.status.InProgress? ==> s.row.claimedUntil.Some? && s.row.claimedUntil.value - cfg.lease <= s.clock)
    && (forall w :: w in s.workers ==> ClaimIsPast(cfg, s, w))
    && (forall w :: w in s.workers ==> HeldOrExpired(cfg, s, w))
    && (forall w, w' :: Holder(s, w) && Holder(s, w') ==> w == w')
  }

  lemma WorkerKept<P>(cfg: Config, s: State<P>, step: Step<P>, w: nat)
    requires cfg.Valid() && Exclusive(cfg, s) && Enabled(cfg, s, step) && w in Do(cfg, s, step).workers
    ensures ClaimIsPast(cfg, Do(cfg, s, step), w)
    ensures HeldOrExpired(cfg, Do(cfg, s, step), w)
  {
  }

  lemma ExclusiveKept<P>(cfg: Config, s: State<P>, step: Step<P>)
    requires cfg.Valid() && Exclusive(cfg, s) && Enabled(cfg, s, step)
    ensures Exclusive(cfg, Do(cfg, s, step))
  {
    var s' := Do(cfg, s, step);
    forall w | w in s'.workers
      ensures ClaimIsPast(cfg, s', w) && HeldOrExpired(cfg, s', w)
    {
      WorkerKept(cfg, s, step, w);
    }
    forall w, w' | Holder(s', w) && Holder(s', w')
      ensures w == w'
    {
      UniqueKept(cfg, s, step, w, w');
    }
  }

  lemma UniqueKept<P>(cfg: Config, s: State<P>, step: Step<P>, w: nat, w': nat)
    requires cfg.Valid() && Exclusive(cfg, s) && Enabled(cfg, s, step)
    requires Holder(Do(cfg, s, step), w) && Holder(Do(cfg, s, step), w')
    ensures w == w'
  {
  }

  // ----- a lost claim stays lost

  /** A claim by another worker takes the attempt from everyone who worked on it. */
  lemma ClaimTakesOver<P>(cfg: Config, s: State<P>, w': nat, w: nat)
    requires cfg.Valid() && Exclusive(cfg, s) && Enabled(cfg, s, Claim(w')) && w in s.workers
    ensures !Holder(Do(cfg, s, Claim(w')), w)
  {
    assert ClaimIsPast(cfg, s, w) && HeldOrExpired(cfg, s, w);
  }

  /** The worker keeps its claim in hand: it neither records nor stops. */
  predicate Waits<P>(w: nat, steps: seq<Step<P>>) {
    forall i :: 0 <= i < |steps| ==> !(steps[i].Record? && steps[i].w == w) && !(steps[i].Crash? && steps[i].w == w)
  }

  lemma LostStaysLost<P>(cfg: Config, s: State<P>, step: Step<P>, w: nat)
    requires cfg.Valid() && Exclusive(cfg, s) && Enabled(cfg, s, step) && w in s.workers && !Holder(s, w)
    requires !(step.Record? && step.w == w) && !(step.Crash? && step.w == w)
    ensures w in Do(cfg, s, step).workers && !Holder(Do(cfg, s, step), w)
  {
    assert ClaimIsPast(cfg, s, w) && HeldOrExpired(cfg, s, w);
  }

  /** Whatever claims, records, crashes and requeues (also under another key) come between, a lost claim stays lost. */
  lemma {:induction false} LostForever<P>(cfg: Config, s: State<P>, steps: seq<Step<P>>, w: nat)
    requires cfg.Valid() && Exclusive(cfg, s) && Legal(cfg, s, steps) && Waits(w, steps) && w in s.workers && !Holder(s, w)
    ensures Exclusive(cfg, Run(cfg, s, steps)) && w in Run(cfg, s, steps).workers && !Holder(Run(cfg, s, steps), w)
    decreases |steps|
  {
    if steps != [] {
      ExclusiveKept(cfg, s, steps[0]);
      LostStaysLost(cfg, s, steps[0], w);
      LostForever(cfg, Do(cfg, s, steps[0]), steps[1..], w);
    }
  }

  /** The claim of `w` is over: another worker took the attempt, or its result is recorded. */
  predicate Over<P>(cfg: Config, s: State<P>, step: Step<P>, w: nat)
    requires cfg.Valid() && Enabled(cfg, s, step)
  {
    w in s.workers && (step.Claim? || (w in Do(cfg, s, step).workers && !Do(cfg, s, step).row.status.InProgress?))
  }

  /** A worker whose claim is over may answer and record whenever it likes: it changes neither the attempt nor its failures. */
  lemma StaleRecordChangesNothing<P>(cfg: Config, s: State<P>, step: Step<P>, steps: seq<Step<P>>, w: nat)
    requires cfg.Valid() && Exclusive(cfg, s) && Enabled(cfg, s, step) && Over(cfg, s, step, w)
    requires Legal(cfg, Do(cfg, s, step), steps) && Waits(w, steps) && Enabled(cfg, Run(cfg, Do(cfg, s, step), steps), Record(w))
    ensures var e := Run(cfg, Do(cfg, s, step), steps);
            Do(cfg, e, Record(w)) == e.(workers := e.workers - {w})
  {
    ExclusiveKept(cfg, s, step);
    if step.Claim? {
      ClaimTakesOver(cfg, s, step.w, w);
    }
    LostForever(cfg, Do(cfg, s, step), steps, w);
  }

  // ----- the tokens of one attempt grow

  predicate Sorted(ts: seq<Instant>) {
    forall i, j :: 0 <= i < j < |ts| ==> ts[i] <= ts[j]
  }

  predicate TokensOk<P>(cfg: Config, s: State<P>) {
    && Sorted(s.tokens)
    && (s.tokens != [] ==>
          var last := s.tokens[|s.tokens| - 1];
          && last - cfg.lease <= s.clock
          && (s.row.status.InProgress? ==> s.row.claimedUntil == Some(last))
          && (s.row.status.Pending? && s.row.nextAttemptAt.Some? ==>
                if s.requeuedAt.Some?
                then last - cfg.lease <= s.requeuedAt.value <= s.row.nextAttemptAt.value
                else last - cfg.lease < s.row.nextAttemptAt.value))
    && (s.row.status.InProgress? ==> s.tokens != [] && s.requeuedAt.None?)
  }

  lemma TokensKept<P>(cfg: Config, s: State<P>, step: Step<P>)
    requires cfg.Valid() && Exclusive(cfg, s) && TokensOk(cfg, s) && Enabled(cfg, s, step)
    ensures TokensOk(cfg, Do(cfg, s, step))
  {
  }

  /** The attempt was requeued in the instant of its last claim, and that instant is not over. */
  predicate RequeuedWithin<P>(cfg: Config, s: State<P>) {
    s.tokens != [] && s.row.status.Pending? && s.requeuedAt == Some(s.clock) && s.tokens[|s.tokens| - 1] - cfg.lease == s.clock
  }

  /** A claim outgrows the previous token exactly unless claim, requeue and claim fall in one instant. */
  lemma TokenGrowsExactlyWhen<P>(cfg: Config, s: State<P>, w: nat)
    requires cfg.Valid() && Exclusive(cfg, s) && TokensOk(cfg, s) && Enabled(cfg, s, Claim(w))
    ensures (s.tokens != [] ==> s.tokens[|s.tokens| - 1] < s.clock + cfg.lease) <==> !RequeuedWithin(cfg, s)
  {
  }

  // ----- the failures of one round fit in its window

  /** The earliest instant of the failure that follows one at `t`. */
  function Earliest(cfg: Config, windowEndsAt: Option<Instant>, t: Instant): Instant {
    match windowEndsAt
    case None => t + cfg.policy.base as int
    case Some(end) => Min(t + cfg.policy.base as int, end)
  }

  predicate Spaced(cfg: Config, windowEndsAt: Option<Instant>, failures: seq<Instant>) {
    forall i :: 0 < i < |failures| ==> Earliest(cfg, windowEndsAt, failures[i - 1]) <= failures[i]
  }

  predicate BeforeEnd(windowEndsAt: Option<Instant>, failures: seq<Instant>) {
    windowEndsAt.Some? ==> forall i :: 0 <= i < |failures| ==> failures[i] < windowEndsAt.value
  }

  /**
   The failures of a round, seen from the stored attempt: it failed exactly if the
   last of them was a rejection or ended the round, and otherwise its due date
   follows from how many they are and when the last one was.
   */
  predicate RoundOk<P>(cfg: Config, row: Attempt<P>, fs: seq<Instant>, rejected: bool)
    requires cfg.Valid()
  {
    && |fs| == row.failedAttempts
    && Spaced(cfg, row.windowEndsAt, fs)
    && (if row.status.Failed? && fs != [] then BeforeEnd(row.windowEndsAt, fs[..|fs| - 1]) else BeforeEnd(row.windowEndsAt, fs))
    && (cfg.cap.Some? ==> |fs| <= Max(1, cfg.cap.value) - (if row.status.Failed? then 0 else 1))
    && (rejected ==> fs != [])
    && (fs != [] ==> (row.status.Failed? <==> rejected || RoundOver(cfg, |fs|, row.windowEndsAt, fs[|fs| - 1])))
    && (fs != [] && row.status.Pending? ==> row.nextAttemptAt == Some(DueDate(cfg.policy, |fs|, row.windowEndsAt, fs[|fs| - 1])))
    && (fs != [] && row.status.InProgress? ==> HeldAfter(cfg, row, fs[|fs| - 1]))
  }

  predicate HeldAfter<P>(cfg: Config, row: Attempt<P>, last: Instant) {
    row.claimedUntil.Some? && Earliest(cfg, row.windowEndsAt, last) <= row.claimedUntil.value - cfg.lease
  }

  predicate WindowOk<P>(cfg: Config, s: State<P>)
    requires cfg.Valid()
  {
    RoundOk(cfg, s.row, s.failures, s.rejected)
  }

  lemma WindowKept<P>(cfg: Config, s: State<P>, step: Step<P>)
    requires cfg.Valid() && Exclusive(cfg, s) && WindowOk(cfg, s) && Enabled(cfg, s, step)
    ensures WindowOk(cfg, Do(cfg, s, step))
  {
    if step.Record? {
      WindowKeptByRecord(cfg, s, step.w);
    }
  }

  /** A failure is recorded no earlier than its claim, which waited for the due date of the failure before. */
  lemma WindowKeptByRecord<P>(cfg: Config, s: State<P>, w: nat)
    requires cfg.Valid() && Exclusive(cfg, s) && WindowOk(cfg, s) && Enabled(cfg, s, Record(w))
    ensures WindowOk(cfg, RecordOf(cfg, s, w))
  {
    var Answered(rec, outcome, at) := s.workers[w];
    if Holder(s, w) {
      assert ClaimIsPast(cfg, s, w) && HeldOrExpired(cfg, s, w);
      RoundKept(cfg, s.row, s.failures, s.rejected, outcome, at);
    }
  }

  lemma RoundKept<P>(cfg: Config, row: Attempt<P>, fs: seq<Instant>, rejected: bool, outcome: Outcome, at: Instant)
    requires cfg.Valid() && RoundOk(cfg, row, fs, rejected)
    requires row.status.InProgress? && row.claimedUntil.Some? && row.claimedUntil.value - cfg.lease <= at
    ensures var v := Decide(cfg, row, outcome, at);
            RoundOk(cfg, Recorded(row, v), if v.ToConfirm? then fs else fs + [at], outcome.OutcomeRejected?)
  {
    var fs' := fs + [at];
    assert fs'[..|fs'| - 1] == fs;
    SpacedAppend(cfg, row.windowEndsAt, fs, at);
  }

  lemma SpacedAppend(cfg: Config, end: Option<Instant>, fs: seq<Instant>, at: Instant)
    requires Spaced(cfg, end, fs) && (fs != [] ==> Earliest(cfg, end, fs[|fs| - 1]) <= at)
    ensures Spaced(cfg, end, fs + [at])
  {
  }

  /** The quotient rounded up. */
  function CeilDiv(a: int, b: int): int
    requires 0 < b
  {
    (a + b - 1) / b
  }

  lemma {:induction false} SpacedFrom(cfg: Config, end: Instant, fs: seq<Instant>, i: nat)
    requires cfg.Valid() && Spaced(cfg, Some(end), fs) && i < |fs|
    ensures Min(fs[0] + i * cfg.policy.base as int, end) <= fs[i]
  {
    if i > 0 {
      SpacedFrom(cfg, end, fs, i - 1);
      assert (i - 1) * cfg.policy.base as int + cfg.policy.base as int == i * cfg.policy.base as int;
      assert Earliest(cfg, Some(end), fs[i - 1]) <= fs[i];
    }
  }

  /** However often claims crash, a windowed round fails at most ceil((end - first) / base) + 1 times. */
  lemma FailuresFitInWindow<P>(cfg: Config, s: State<P>)
    requires cfg.Valid() && WindowOk(cfg, s) && s.row.windowEndsAt.Some? && s.failures != []
    ensures var end, first := s.row.windowEndsAt.value, s.failures[0];
            |s.failures| <= 1 + (if first < end then CeilDiv(end - first, cfg.policy.base as int) else 0)
  {
    var fs, end, base := s.failures, s.row.windowEndsAt.value, cfg.policy.base as int;
    if |fs| >= 2 {
      var n := |fs| - 2;
      assert fs[..|fs| - 1][n] == fs[n] && fs[..|fs| - 1][0] == fs[0];
      SpacedFrom(cfg, end, fs, n);
      assert fs[0] + n * base < end;
      CeilDivBound(end - fs[0], base, n);
    }
  }

  lemma CeilDivBound(a: int, b: int, n: nat)
    requires 0 < b && n * b < a
    ensures n + 1 <= CeilDiv(a, b)
  {
  }

  // ----- whole runs

  ghost predicate Inv<P>(cfg: Config, s: State<P>)
    requires cfg.Valid()
  {
    Exclusive(cfg, s) && TokensOk(cfg, s) && WindowOk(cfg, s)
  }

  lemma InitInv<P>(cfg: Config, s: State<P>)
    requires cfg.Valid() && Init(s)
    ensures Inv(cfg, s)
  {
  }

  lemma InvKept<P>(cfg: Config, s: State<P>, step: Step<P>)
    requires cfg.Valid() && Inv(cfg, s) && Enabled(cfg, s, step)
    ensures Inv(cfg, Do(cfg, s, step))
  {
    ExclusiveKept(cfg, s, step);
    TokensKept(cfg, s, step);
    WindowKept(cfg, s, step);
  }

  predicate Legal<P>(cfg: Config, s: State<P>, steps: seq<Step<P>>)
    requires cfg.Valid()
    decreases |steps|
  {
    steps == [] || (Enabled(cfg, s, steps[0]) && Legal(cfg, Do(cfg, s, steps[0]), steps[1..]))
  }

  function Run<P>(cfg: Config, s: State<P>, steps: seq<Step<P>>): State<P>
    requires cfg.Valid() && Legal(cfg, s, steps)
    decreases |steps|
  {
    if steps == [] then s else Run(cfg, Do(cfg, s, steps[0]), steps[1..])
  }

  lemma {:induction false} InvAlways<P>(cfg: Config, s: State<P>, steps: seq<Step<P>>)
    requires cfg.Valid() && Inv(cfg, s) && Legal(cfg, s, steps)
    ensures Inv(cfg, Run(cfg, s, steps))
    decreases |steps|
  {
    if steps != [] {
      InvKept(cfg, s, steps[0]);
      InvAlways(cfg, Do(cfg, s, steps[0]), steps[1..]);
    }
  }

  /** No claim of the run follows a requeue in the instant of the claim before. */
  predicate InstantsPass<P>(cfg: Config, s: State<P>, steps: seq<Step<P>>)
    requires cfg.Valid() && Legal(cfg, s, steps)
    decreases |steps|
  {
    steps == [] ||
    ((steps[0].Claim? ==> !RequeuedWithin(cfg, s)) && InstantsPass(cfg, Do(cfg, s, steps[0]), steps[1..]))
  }

  predicate StrictlySorted(ts: seq<Instant>) {
    forall i, j :: 0 <= i < j < |ts| ==> ts[i] < ts[j]
  }

  lemma {:induction false} TokensAreKept<P>(cfg: Config, s: State<P>, steps: seq<Step<P>>)
    requires cfg.Valid() && Legal(cfg, s, steps)
    ensures s.tokens <= Run(cfg, s, steps).tokens
    decreases |steps|
  {
    if steps != [] {
      TokensAreKept(cfg, Do(cfg, s, steps[0]), steps[1..]);
    }
  }

  lemma GrowsByOne<P>(cfg: Config, s: State<P>, step: Step<P>)
    requires cfg.Valid() && Inv(cfg, s) && Enabled(cfg, s, step) && StrictlySorted(s.tokens)
    ensures StrictlySorted(Do(cfg, s, step).tokens) <==> (step.Claim? ==> !RequeuedWithin(cfg, s))
  {
    if step.Claim? {
      TokenGrowsExactlyWhen(cfg, s, step.w);
      AppendKeepsStrict(s.tokens, s.clock + cfg.lease);
    }
  }

  lemma AppendKeepsStrict(ts: seq<Instant>, t: Instant)
    requires StrictlySorted(ts)
    ensures StrictlySorted(ts + [t]) <==> (ts != [] ==> ts[|ts| - 1] < t)
  {
    var ts' := ts + [t];
    assert forall i :: 0 <= i < |ts| ==> ts'[i] == ts[i];
    assert ts'[|ts|] == t;
  }

  /** Over any run: the tokens strictly grow exactly when no claim follows a requeue in the instant of the claim before. */
  lemma {:induction false} TokensGrowExactlyWhen<P>(cfg: Config, s: State<P>, steps: seq<Step<P>>)
    requires cfg.Valid() && Inv(cfg, s) && StrictlySorted(s.tokens) && Legal(cfg, s, steps)
    ensures StrictlySorted(Run(cfg, s, steps).tokens) <==> InstantsPass(cfg, s, steps)
    decreases |steps|
  {
    if steps != [] {
      var s' := Do(cfg, s, steps[0]);
      InvKept(cfg, s, steps[0]);
      GrowsByOne(cfg, s, steps[0]);
      if StrictlySorted(s'.tokens) {
        TokensGrowExactlyWhen(cfg, s', steps[1..]);
      } else {
        TokensAreKept(cfg, s', steps[1..]);
      }
    }
  }

  /** The run that hands out one token twice: claimed, rejected, requeued and claimed again in one instant. */
  lemma RepeatedToken<P>(cfg: Config, payload: P) returns (s: State<P>, steps: seq<Step<P>>)
    requires cfg.Valid()
    ensures Init(s) && Legal(cfg, s, steps) && Run(cfg, s, steps).tokens == [cfg.lease, cfg.lease]
  {
    var row := Attempt("", payload, Pending, 0, None, Some(0), None);
    s := State(0, row, map[], [], [], None, false);
    var a, b, c, d := Claim(0), Answer(0, OutcomeRejected), Record(0), Requeue(row);
    var s1 := Do(cfg, s, a);
    var s2 := Do(cfg, s1, b);
    var s3 := Do(cfg, s2, c);
    var s4 := Do(cfg, s3, d);
    Prepend(cfg, s4, a, []);
    Prepend(cfg, s3, d, [a] + []);
    Prepend(cfg, s2, c, [d] + ([a] + []));
    Prepend(cfg, s1, b, [c] + ([d] + ([a] + [])));
    Prepend(cfg, s, a, [b] + ([c] + ([d] + ([a] + []))));
    steps := [a] + ([b] + ([c] + ([d] + ([a] + []))));
  }

  lemma Prepend<P>(cfg: Config, s: State<P>, step: Step<P>, steps: seq<Step<P>>)
    requires cfg.Valid() && Enabled(cfg, s, step) && Legal(cfg, Do(cfg, s, step), steps)
    ensures Legal(cfg, s, [step] + steps) && Run(cfg, s, [step] + steps) == Run(cfg, Do(cfg, s, step), steps)
  {
    assert ([step] + steps)[1..] == steps;
  }

  /**
   In every run: a round with failures has failed exactly when the last of them
   was a rejection, came at or after the end of its window, or reached its cap;
   while it waits, its due date is one base wait after the last failure, doubled by
   each failure before, within the maximum and the window.
   */
  lemma RoundsFailExactlyWhen<P>(cfg: Config, s: State<P>, steps: seq<Step<P>>)
    requires cfg.Valid() && Init(s) && Legal(cfg, s, steps) && Run(cfg, s, steps).failures != []
    ensures var e := Run(cfg, s, steps);
            var n, last, end := |e.failures|, e.failures[|e.failures| - 1], e.row.windowEndsAt;
            && (e.row.status.Failed? <==> e.rejected || (end.Some? && end.value <= last) || (cfg.cap.Some? && cfg.cap.value <= n))
            && (e.row.status.Pending? ==>
                  var due := last + Min(cfg.policy.base as int * Pow2(n - 1), cfg.policy.max as int);
                  e.row.nextAttemptAt == Some(if end.Some? then Min(due, end.value) else due))
  {
    InitInv(cfg, s);
    InvAlways(cfg, s, steps);
  }

  /** In every run: one worker at most can record a result, tokens never shrink, and failures fit in the window. */
  lemma EveryRunIsSafe<P>(cfg: Config, s: State<P>, steps: seq<Step<P>>)
    requires cfg.Valid() && Init(s) && Legal(cfg, s, steps)
    ensures var e := Run(cfg, s, steps);
            && (forall w, w' :: Holder(e, w) && Holder(e, w') ==> w == w')
            && (forall w :: Holder(e, w) ==> e.workers[w].rec == e.row)
            && Sorted(e.tokens)
            && (cfg.cap.Some? ==> |e.failures| <= Max(1, cfg.cap.value))
            && (e.row.windowEndsAt.Some? && e.failures != [] ==>
                  var end, first := e.row.windowEndsAt.value, e.failures[0];
                  && |e.failures| <= 1 + (if first < end then CeilDiv(end - first, cfg.policy.base as int) else 0)
                  && (e.row.status.Pending? ==> e.row.nextAttemptAt.Some? && e.row.nextAttemptAt.value <= end))
  {
    InitInv(cfg, s);
    InvAlways(cfg, s, steps);
    var e := Run(cfg, s, steps);
    forall w | Holder(e, w)
      ensures e.workers[w].rec == e.row
    {
      assert HeldOrExpired(cfg, e, w);
    }
    if e.row.windowEndsAt.Some? && e.failures != [] {
      FailuresFitInWindow(cfg, e);
    }
  }
}
