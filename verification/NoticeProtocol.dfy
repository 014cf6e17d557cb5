/**
 Every run of the notices of one revocation: workers that claim, call an entity
 and record the answer as a new step, and retries asked for by an operator
 (services/audit/internal/adapters/postgres/notices.go, ports/ports.go). The
 events they write are read back by `Consents.View`.
 */
module NoticeProtocol {
  import opened Common
  import opened Lists
  import opened Lease
  import L = LeaseProtocol
  import opened Retry
  import opened Consents
  import opened ConsentLaws
  import CS = ConsentServices
  import Text

  /**
   The revocation `revoked` of `consent`, and how long a new window lasts.
   `prompt` says that an answer is recorded in the very instant it is dated;
   the code dates it when it arrives and writes it later.
   */
  datatype Config = Config(lease: Lease.Config, window: int, prompt: bool, consent: Consent, revoked: ConsentEvent) {
    predicate Valid() {
      && lease.Valid() && 0 < window
      && Revokes(consent, revoked)
      && (forall i :: 0 <= i < |revoked.entities| ==>
            revoked.entities[i].code != "" && revoked.entities[i].deadlineAt == Some(FirstDeadline()))
    }

    function FirstDeadline(): Instant {
      revoked.occurredAt + window
    }
  }

  datatype Phase =
    | Calling(held: nat, rec: Attempt<string>)
    | Answered(held: nat, rec: Attempt<string>, outcome: Outcome, at: Instant)

  /**
   The last step of a notice and the workers that hold one of its steps;
   `failures` are the failed attempts since its last retry, and `rejected` says
   that the last of them was a rejection.
   */
  datatype Notice = Notice(last: nat, attempt: Attempt<string>, workers: map<nat, Phase>, failures: seq<Instant>, rejected: bool)

  datatype State = State(clock: Instant, notices: map<string, Notice>, log: seq<ConsentEvent>)

  datatype Step =
    | Tick(now: Instant)
    | Claim(code: string, w: nat)
    | Answer(code: string, w: nat, outcome: Outcome)
    | Record(code: string, w: nat)
    | Crash(code: string, w: nat)
    | Resume(code: string)

  predicate Resumable(a: Attempt<string>, now: Instant) {
    a.status.Failed? || (a.status.Pending? && a.windowEndsAt.Some? && a.windowEndsAt.value <= now)
  }

  predicate Enabled(cfg: Config, s: State, step: Step) {
    match step
    case Tick(now) => s.clock <= now
    case Claim(code, w) => code in s.notices && w !in s.notices[code].workers && Claimable(s.notices[code].attempt, s.clock)
    case Answer(code, w, _) => code in s.notices && w in s.notices[code].workers && s.notices[code].workers[w].Calling?
    case Record(code, w) =>
      && code in s.notices && w in s.notices[code].workers && s.notices[code].workers[w].Answered?
      && (cfg.prompt ==> s.notices[code].workers[w].at == s.clock)
    case Crash(code, w) => code in s.notices && w in s.notices[code].workers
    case Resume(code) => code in s.notices && Resumable(s.notices[code].attempt, s.clock)
  }

  function EventId(cfg: Config, code: string, n: nat): string {
    EVENT_PREFIX + cfg.consent.id + "-" + code + "-" + Text.Itoa(n)
  }

  const EVENT_PREFIX := "rne-"

  /** The event a step writes. Its id comes from the step, so a step has one event at most. */
  function EventOf(cfg: Config, code: string, n: nat, status: EventStatus, at: Instant, now: Instant, retry: Option<Instant>): ConsentEvent {
    ConsentEvent(EventId(cfg, code, n), cfg.consent.id, code, status, at, now, "", "", "", [], retry)
  }

  function EventsOf(cfg: Config, code: string, n: nat, v: Verdict, at: Instant, now: Instant): seq<ConsentEvent> {
    match v
    case ToConfirm => [EventOf(cfg, code, n, RevocationConfirmed, at, now, None)]
    case ToFail(_) => [EventOf(cfg, code, n, RevocationNotConfirmed, at, now, None)]
    case ToReschedule(_) => []
  }

  /** The step after the claimed one, unless another writer inserted it before. */
  function Recorded(cfg: Config, s: State, code: string, w: nat): State
    requires cfg.Valid() && code in s.notices && w in s.notices[code].workers && s.notices[code].workers[w].Answered?
  {
    var n := s.notices[code];
    var Answered(held, rec, outcome, at) := n.workers[w];
    var rest := n.(workers := n.workers - {w});
    if held != n.last then s.(notices := s.notices[code := rest])
    else
      var v := Decide(cfg.lease, rec, outcome, at);
      s.(notices := s.notices[code := rest.(last := n.last + 1, attempt := Lease.Recorded(rec, v).(claimedUntil := None),
                                            failures := if v.ToConfirm? then n.failures else n.failures + [at],
                                            rejected := outcome.OutcomeRejected?)],
         log := s.log + EventsOf(cfg, code, n.last + 1, v, at, s.clock))
  }

  function Do(cfg: Config, s: State, step: Step): State
    requires cfg.Valid() && Enabled(cfg, s, step)
  {
    match step
    case Tick(now) => s.(clock := now)
    case Claim(code, w) =>
      var n := s.notices[code];
      var rec := Claimed(n.attempt, s.clock, cfg.lease.lease);
      s.(notices := s.notices[code := n.(last := n.last + 1, attempt := rec, workers := n.workers[w := Calling(n.last + 1, rec)])])
    case Answer(code, w, outcome) =>
      var n := s.notices[code];
      var p := n.workers[w];
      s.(notices := s.notices[code := n.(workers := n.workers[w := Answered(p.held, p.rec, outcome, s.clock)])])
    case Record(code, w) => Recorded(cfg, s, code, w)
    case Crash(code, w) =>
      var n := s.notices[code];
      s.(notices := s.notices[code := n.(workers := n.workers - {w})])
    case Resume(code) =>
      var n, end := s.notices[code], s.clock + cfg.window;
      var again := n.attempt.(status := Pending, failedAttempts := 0, windowEndsAt := Some(end), nextAttemptAt := Some(s.clock), claimedUntil := None);
      s.(notices := s.notices[code := n.(last := n.last + 1, attempt := again, failures := [], rejected := false)],
         log := s.log + [EventOf(cfg, code, n.last + 1, RevocationRetryRequested, s.clock, s.clock, Some(end))])
  }

  /** Just after the revocation was recorded: its events are in the log and each entity has its first step. */
  predicate Start(cfg: Config, s: State) {
    && s.clock == cfg.revoked.occurredAt
    && cfg.revoked in s.log
    && (forall e :: e in s.log ==> e.entityCode == "" && (Revokes(cfg.consent, e) ==> e == cfg.revoked))
    && (forall i :: 0 <= i < |cfg.revoked.entities| ==> cfg.revoked.entities[i].code in s.notices)
    && (forall code :: code in s.notices ==>
          var n := s.notices[code];
          && code != "" && n.workers == map[] && n.attempt.status.Pending?
          && n.attempt.windowEndsAt == Some(cfg.FirstDeadline())
          && n.attempt.nextAttemptAt == Some(s.clock)
          && n.attempt.failedAttempts == 0 && n.failures == [] && !n.rejected)
  }

  /** The first steps that a recorded revocation stores, one for each entity. */
  function StepsOf(r: CS.Revocation): map<string, Notice> {
    var steps := CS.FirstSteps(r);
    map code | code in steps ::
      Notice(1, Attempt(steps[code].key, code, Pending, 0, steps[code].windowEndsAt, Some(steps[code].nextAttemptAt), None), map[], [], false)
  }

  /** A revocation recorded in one transaction is where the runs of its notices start: each entity due at once, until the deadline. */
  lemma RecordedStarts(lease: Lease.Config, prompt: bool, c: Consent, log: seq<ConsentEvent>, r: CS.Revocation,
                       requestEvent: string, revokedEvent: string, receipt: string)
    requires lease.Valid() && r.consentId == c.id && r.effectiveAt < c.expiresAt && r.effectiveAt < r.noticeDeadlineAt
    requires (forall code :: code in r.entities ==> code != "") && forall e :: e in log ==> e.entityCode == "" && !Revokes(c, e)
    ensures var events := CS.EventsOf(r, requestEvent, revokedEvent, receipt);
            var cfg := Config.Config(lease, r.noticeDeadlineAt - r.effectiveAt, prompt, c, events[1]);
            cfg.Valid() && Start(cfg, State(r.effectiveAt, StepsOf(r), log + events))
    ensures forall code :: code in StepsOf(r) <==> code in r.entities
  {
    var events := CS.EventsOf(r, requestEvent, revokedEvent, receipt);
    assert (log + events)[|log| + 1] == events[1];
    var ws := CS.WindowsOf(r);
    assert forall i :: 0 <= i < |ws| ==> ws[i].code == r.entities[i] && r.entities[i] in r.entities;
  }

  // ----- what every step keeps

  /** Each event the workers and operators wrote. */
  predicate WrittenOk(cfg: Config, s: State, e: ConsentEvent) {
    e.consentId == cfg.consent.id && cfg.revoked.occurredAt <= e.occurredAt <= s.clock
  }

  ghost predicate LogOk(cfg: Config, s: State) {
    && cfg.revoked.occurredAt <= s.clock
    && cfg.revoked in s.log
    && (forall e :: e in s.log && Revokes(cfg.consent, e) ==> e == cfg.revoked)
    && (forall e :: e in s.log && e.entityCode != "" ==> WrittenOk(cfg, s, e))
    && (forall i :: 0 <= i < |cfg.revoked.entities| ==> cfg.revoked.entities[i].code in s.notices)
  }

  /** A worker holds an old step, or sees exactly the last one. */
  predicate HoldsOk(cfg: Config, s: State, n: Notice, p: Phase) {
    && (if p.held == n.last then p.rec == n.attempt && n.attempt.status.InProgress? else p.held < n.last)
    && (p.Answered? ==> cfg.revoked.occurredAt <= p.at <= s.clock)
  }

  ghost predicate WorkersOk(cfg: Config, s: State, n: Notice) {
    && (forall w :: w in n.workers ==> HoldsOk(cfg, s, n, n.workers[w]))
    && (forall w, w' :: w in n.workers && w' in n.workers && n.workers[w].held == n.last == n.workers[w'].held ==> w == w')
  }

  /** Until a denial is written, no window of the entity ends before the first one. */
  ghost predicate WindowsOk(cfg: Config, s: State, code: string)
    requires code in s.notices
  {
    || (exists e :: e in s.log && Denies(e, code))
    || (&& !s.notices[code].attempt.status.Failed?
        && s.notices[code].attempt.windowEndsAt.Some? && cfg.FirstDeadline() <= s.notices[code].attempt.windowEndsAt.value
        && forall e :: e in s.log && Reopens(e, code) ==> cfg.FirstDeadline() <= e.retryDeadline.value)
  }

  ghost predicate NoticeOk(cfg: Config, s: State, code: string)
    requires code in s.notices
  {
    && code != ""
    && WorkersOk(cfg, s, s.notices[code])
    && WindowsOk(cfg, s, code)
    && (s.notices[code].attempt.status.Confirmed? <==> exists e :: e in s.log && Confirms(e, code))
  }

  ghost predicate Inv(cfg: Config, s: State) {
    LogOk(cfg, s) && forall code :: code in s.notices ==> NoticeOk(cfg, s, code)
  }

  lemma StartInv(cfg: Config, s: State)
    requires cfg.Valid() && Start(cfg, s)
    ensures Inv(cfg, s)
  {
  }

  /** The code a step is about; a tick is about none. */
  predicate About(step: Step, code: string) {
    !step.Tick? && step.code == code
  }

  lemma LogKept(cfg: Config, s: State, step: Step)
    requires cfg.Valid() && Inv(cfg, s) && Enabled(cfg, s, step)
    ensures LogOk(cfg, Do(cfg, s, step))
  {
    if !step.Tick? {
      assert NoticeOk(cfg, s, step.code);
    }
    if step.Record? {
      assert HoldsOk(cfg, s, s.notices[step.code], s.notices[step.code].workers[step.w]);
    }
  }

  /** What a step appends to the log. */
  function Written(cfg: Config, s: State, step: Step): seq<ConsentEvent>
    requires cfg.Valid() && Enabled(cfg, s, step)
    ensures Do(cfg, s, step).log == s.log + Written(cfg, s, step)
    ensures forall e :: e in Written(cfg, s, step) ==> About(step, e.entityCode)
  {
    match step
    case Record(code, w) =>
      var n := s.notices[code];
      var p := n.workers[w];
      if p.held == n.last then EventsOf(cfg, code, n.last + 1, Decide(cfg.lease, p.rec, p.outcome, p.at), p.at, s.clock) else []
    case Resume(code) => [EventOf(cfg, code, s.notices[code].last + 1, RevocationRetryRequested, s.clock, s.clock, Some(s.clock + cfg.window))]
    case _ => []
  }

  lemma OthersKept(cfg: Config, s: State, step: Step, code: string)
    requires cfg.Valid() && Inv(cfg, s) && Enabled(cfg, s, step) && code in s.notices && !About(step, code)
    ensures code in Do(cfg, s, step).notices && NoticeOk(cfg, Do(cfg, s, step), code)
  {
    var s' := Do(cfg, s, step);
    assert s'.log == s.log + Written(cfg, s, step);
    assert s'.notices[code] == s.notices[code];
    UnwrittenIsKept(cfg, s, s', code, Written(cfg, s, step));
  }

  /** Events of other entities and a later clock leave a notice as it was. */
  lemma UnwrittenIsKept(cfg: Config, s: State, s': State, code: string, more: seq<ConsentEvent>)
    requires code in s.notices && code in s'.notices && s'.notices[code] == s.notices[code] && NoticeOk(cfg, s, code)
    requires s.clock <= s'.clock && s'.log == s.log + more && forall e :: e in more ==> e.entityCode != code
    ensures NoticeOk(cfg, s', code)
  {
  }

  lemma WorkersKept(cfg: Config, s: State, step: Step)
    requires cfg.Valid() && Inv(cfg, s) && Enabled(cfg, s, step) && !step.Tick?
    ensures WorkersOk(cfg, Do(cfg, s, step), Do(cfg, s, step).notices[step.code])
  {
    var s', n, n' := Do(cfg, s, step), s.notices[step.code], Do(cfg, s, step).notices[step.code];
    assert NoticeOk(cfg, s, step.code);
    forall w | w in n'.workers
      ensures HoldsOk(cfg, s', n', n'.workers[w])
    {
      assert w in n.workers ==> HoldsOk(cfg, s, n, n.workers[w]);
    }
  }

  lemma WindowsKept(cfg: Config, s: State, step: Step)
    requires cfg.Valid() && Inv(cfg, s) && Enabled(cfg, s, step) && !step.Tick?
    ensures WindowsOk(cfg, Do(cfg, s, step), step.code)
    ensures Do(cfg, s, step).notices[step.code].attempt.status.Confirmed? <==>
              exists e :: e in Do(cfg, s, step).log && Confirms(e, step.code)
  {
    var code, s', n := step.code, Do(cfg, s, step), s.notices[step.code];
    assert NoticeOk(cfg, s, code);
    var more := Written(cfg, s, step);
    assert s'.log == s.log + more;
    assert |more| <= 1;
    if step.Record? {
      assert HoldsOk(cfg, s, n, n.workers[step.w]);
    }
    assert more != [] ==> more[0] in s'.log;
    assert forall e :: e in s'.log <==> e in s.log || (more != [] && e == more[0]);
  }

  lemma InvKept(cfg: Config, s: State, step: Step)
    requires cfg.Valid() && Inv(cfg, s) && Enabled(cfg, s, step)
    ensures Inv(cfg, Do(cfg, s, step))
  {
    LogKept(cfg, s, step);
    forall code | code in Do(cfg, s, step).notices
      ensures NoticeOk(cfg, Do(cfg, s, step), code)
    {
      assert NoticeOk(cfg, s, code);
      if About(step, code) {
        WorkersKept(cfg, s, step);
        WindowsKept(cfg, s, step);
      } else {
        OthersKept(cfg, s, step, code);
      }
    }
  }

  // ----- whole runs

  predicate Legal(cfg: Config, s: State, steps: seq<Step>)
    requires cfg.Valid()
    decreases |steps|
  {
    steps == [] || (Enabled(cfg, s, steps[0]) && Legal(cfg, Do(cfg, s, steps[0]), steps[1..]))
  }

  function Run(cfg: Config, s: State, steps: seq<Step>): State
    requires cfg.Valid() && Legal(cfg, s, steps)
    decreases |steps|
  {
    if steps == [] then s else Run(cfg, Do(cfg, s, steps[0]), steps[1..])
  }

  lemma {:induction false} InvAlways(cfg: Config, s: State, steps: seq<Step>)
    requires cfg.Valid() && Inv(cfg, s) && Legal(cfg, s, steps)
    ensures Inv(cfg, Run(cfg, s, steps))
    decreases |steps|
  {
    if steps != [] {
      InvKept(cfg, s, steps[0]);
      InvAlways(cfg, Do(cfg, s, steps[0]), steps[1..]);
    }
  }

  // ----- what the holder is shown along a run

  lemma ShownRevocation(cfg: Config, s: State, now: Instant, names: EntityNames)
    requires cfg.Valid() && LogOk(cfg, s)
    ensures var v := View(cfg.consent, s.log, now, names);
            var es := Heard(cfg.consent, cfg.revoked.occurredAt, s.log);
            && v.revocation.Some?
            && (v.status.StatusPartiallyRevoked? <==> AnyPartial(cfg.revoked.entities, es, now))
            && (v.revocation.value.outOfDeadline <==> AnyMissed(cfg.revoked.entities, es, now))
  {
    FirstIsInLog(cfg.consent, s.log);
    FirstIsEarliest(cfg.consent, s.log, cfg.revoked);
  }

  lemma {:induction false} CurrentDeadlineComesFrom(w: EntityWindow, es: seq<ConsentEvent>)
    ensures CurrentDeadline(w, es) == w.deadlineAt || exists e :: e in es && Reopens(e, w.code) && CurrentDeadline(w, es) == e.retryDeadline
  {
    if es != [] && !Reopens(es[|es| - 1], w.code) {
      CurrentDeadlineComesFrom(w, es[..|es| - 1]);
    } else if es != [] {
      assert es[|es| - 1] in es;
    }
  }

  /** In every run, at every instant: a partially revoked consent is also out of deadline. */
  lemma PartialMeansOutOfDeadline(cfg: Config, s0: State, steps: seq<Step>, now: Instant, names: EntityNames)
    requires cfg.Valid() && Start(cfg, s0) && Legal(cfg, s0, steps)
    ensures var v := View(cfg.consent, Run(cfg, s0, steps).log, now, names);
            && Withdrawn(v.status) && v.revocation.Some?
            && (v.status.StatusPartiallyRevoked? ==> v.revocation.value.outOfDeadline)
  {
    StartInv(cfg, s0);
    InvAlways(cfg, s0, steps);
    var s := Run(cfg, s0, steps);
    ShownRevocation(cfg, s, now, names);
    RevokedExactlyWhen(cfg.consent, s.log, now, names);
    var ws, es := cfg.revoked.entities, Heard(cfg.consent, cfg.revoked.occurredAt, s.log);
    if AnyPartial(ws, es, now) {
      var i :| 0 <= i < |ws| && PartialFor(ws[i], es, now);
      TwoFoldsAgree(cfg, s, ws[i], now);
      assert MissedBy(ws[i], es, now);
    }
  }

  lemma TwoFoldsAgree(cfg: Config, s: State, w: EntityWindow, now: Instant)
    requires cfg.Valid() && Inv(cfg, s) && w in cfg.revoked.entities
    ensures var es := Heard(cfg.consent, cfg.revoked.occurredAt, s.log); PartialFor(w, es, now) ==> MissedBy(w, es, now)
  {
    var since, es := cfg.revoked.occurredAt, Heard(cfg.consent, cfg.revoked.occurredAt, s.log);
    assert NoticeOk(cfg, s, w.code);
    PartialMeansLateExactlyWhen(w, es);
    CurrentDeadlineComesFrom(w, es);
    if e :| e in s.log && Denies(e, w.code) {
      assert WrittenOk(cfg, s, e);
      HeardMember(cfg.consent, since, s.log, e);
      var i :| 0 <= i < |es| && es[i] == e;
      assert DeniedIn(es, w.code);
    } else {
      forall e | e in es && Reopens(e, w.code)
        ensures cfg.FirstDeadline() <= e.retryDeadline.value
      {
        HeardMember(cfg.consent, since, s.log, e);
      }
      assert WindowNeverShrinks(w, es);
    }
  }

  /** A confirmed entity is final: no step adds an event of it, so it is confirmed once and never notified again. */
  lemma ConfirmedIsFinal(cfg: Config, s: State, step: Step, code: string)
    requires cfg.Valid() && Inv(cfg, s) && Enabled(cfg, s, step)
    requires code in s.notices && s.notices[code].attempt.status.Confirmed?
    ensures Do(cfg, s, step).notices[code].attempt == s.notices[code].attempt
    ensures forall e :: e in Written(cfg, s, step) ==> e.entityCode != code
  {
    assert NoticeOk(cfg, s, code);
    if step.Record? && step.code == code {
      assert HoldsOk(cfg, s, s.notices[code], s.notices[code].workers[step.w]);
    }
  }

  // ----- what is shown of an entity is what its notice keeps

  /** The present window of the entity started at `t`: with its last retry, or with the revocation. */
  ghost predicate WindowSince(cfg: Config, s: State, code: string, t: Instant) {
    if exists e :: e in s.log && Reopens(e, code)
    then (exists e :: e in s.log && Reopens(e, code) && e.occurredAt == t) && forall e :: e in s.log && Reopens(e, code) ==> e.occurredAt <= t
    else t == cfg.revoked.occurredAt
  }

  ghost predicate RetriesOk(cfg: Config, s: State, code: string)
    requires code in s.notices
  {
    && (forall e :: e in s.log && Reopens(e, code) ==> e.retryDeadline == Some(e.occurredAt + cfg.window))
    && s.notices[code].attempt.windowEndsAt.Some?
    && WindowSince(cfg, s, code, s.notices[code].attempt.windowEndsAt.value - cfg.window)
  }

  lemma RetriesUntouched(cfg: Config, s: State, s': State, code: string, more: seq<ConsentEvent>)
    requires code in s.notices && RetriesOk(cfg, s, code)
    requires code in s'.notices && s'.notices[code].attempt.windowEndsAt == s.notices[code].attempt.windowEndsAt
    requires s'.log == s.log + more && forall e :: e in more ==> !Reopens(e, code)
    ensures RetriesOk(cfg, s', code)
  {
    assert forall e :: e in s'.log && Reopens(e, code) <==> e in s.log && Reopens(e, code);
  }

  lemma RetriesResumed(cfg: Config, s: State, s': State, code: string, retry: ConsentEvent)
    requires code in s.notices && RetriesOk(cfg, s, code) && forall e :: e in s.log && Reopens(e, code) ==> e.occurredAt <= retry.occurredAt
    requires Reopens(retry, code) && retry.retryDeadline == Some(retry.occurredAt + cfg.window)
    requires code in s'.notices && s'.notices[code].attempt.windowEndsAt == retry.retryDeadline && s'.log == s.log + [retry]
    ensures RetriesOk(cfg, s', code)
  {
    assert forall e :: e in s'.log <==> e in s.log || e == retry;
    assert retry in s'.log;
  }

  /** Only a retry moves the window of a notice. */
  lemma OnlyRetriesMove(cfg: Config, s: State, step: Step, code: string)
    requires cfg.Valid() && Inv(cfg, s) && Enabled(cfg, s, step) && code in s.notices && !(step.Resume? && step.code == code)
    ensures code in Do(cfg, s, step).notices
    ensures Do(cfg, s, step).notices[code].attempt.windowEndsAt == s.notices[code].attempt.windowEndsAt
    ensures forall e :: e in Written(cfg, s, step) ==> !Reopens(e, code)
  {
    assert NoticeOk(cfg, s, code);
    if step.Record? && step.code == code {
      assert HoldsOk(cfg, s, s.notices[code], s.notices[code].workers[step.w]);
    }
  }

  lemma RetriesKept(cfg: Config, s: State, step: Step, code: string)
    requires cfg.Valid() && Inv(cfg, s) && Enabled(cfg, s, step) && code in s.notices && RetriesOk(cfg, s, code)
    ensures code in Do(cfg, s, step).notices && RetriesOk(cfg, Do(cfg, s, step), code)
  {
    var s', more := Do(cfg, s, step), Written(cfg, s, step);
    if step.Resume? && step.code == code {
      assert NoticeOk(cfg, s, code);
      forall e | e in s.log && Reopens(e, code)
        ensures e.occurredAt <= s.clock
      {
        assert WrittenOk(cfg, s, e);
      }
      RetriesResumed(cfg, s, s', code, more[0]);
    } else {
      OnlyRetriesMove(cfg, s, step, code);
      RetriesUntouched(cfg, s, s', code, more);
    }
  }

  lemma {:induction false} RetriesAlways(cfg: Config, s: State, steps: seq<Step>, code: string)
    requires cfg.Valid() && Inv(cfg, s) && Legal(cfg, s, steps) && code in s.notices && RetriesOk(cfg, s, code)
    ensures code in Run(cfg, s, steps).notices && RetriesOk(cfg, Run(cfg, s, steps), code)
    decreases |steps|
  {
    if steps != [] {
      InvKept(cfg, s, steps[0]);
      RetriesKept(cfg, s, steps[0], code);
      RetriesAlways(cfg, Do(cfg, s, steps[0]), steps[1..], code);
    }
  }

  /** Over sorted events, the current window is that of a latest retry. */
  lemma {:induction false} CurrentIsLatest(w: EntityWindow, es: seq<ConsentEvent>)
    requires SortedBy(Before, es)
    ensures if exists e :: e in es && Reopens(e, w.code)
            then exists e :: e in es && Reopens(e, w.code) && CurrentDeadline(w, es) == e.retryDeadline
                             && forall x :: x in es && Reopens(x, w.code) ==> x.occurredAt <= e.occurredAt
            else CurrentDeadline(w, es) == w.deadlineAt
  {
    if es != [] {
      var rest, last := es[..|es| - 1], es[|es| - 1];
      assert es == rest + [last];
      if Reopens(last, w.code) {
        forall x | x in rest
          ensures x.occurredAt <= last.occurredAt
        {
          var i :| 0 <= i < |rest| && rest[i] == x;
          assert !Before(es[|es| - 1], es[i]);
        }
      } else {
        CurrentIsLatest(w, rest);
      }
    }
  }

  /** Every event of an entity in the log of a run is heard. */
  lemma HeardIsWritten(cfg: Config, s: State, code: string)
    requires cfg.Valid() && LogOk(cfg, s) && code != ""
    ensures forall e :: e in s.log && e.entityCode == code <==> e in Heard(cfg.consent, cfg.revoked.occurredAt, s.log) && e.entityCode == code
  {
    forall e
      ensures e in s.log && e.entityCode == code <==> e in Heard(cfg.consent, cfg.revoked.occurredAt, s.log) && e.entityCode == code
    {
      HeardMember(cfg.consent, cfg.revoked.occurredAt, s.log, e);
      assert e in s.log && e.entityCode == code ==> WrittenOk(cfg, s, e);
    }
  }

  lemma ConfirmedAgrees(cfg: Config, s: State, code: string)
    requires cfg.Valid() && Inv(cfg, s) && code in s.notices
    ensures ConfirmedIn(Heard(cfg.consent, cfg.revoked.occurredAt, s.log), code) <==> s.notices[code].attempt.status == Confirmed
  {
    assert NoticeOk(cfg, s, code);
    HeardIsWritten(cfg, s, code);
    ConfirmedByMember(Heard(cfg.consent, cfg.revoked.occurredAt, s.log), code);
  }

  lemma DeadlineAgrees(cfg: Config, s: State, w: EntityWindow)
    requires cfg.Valid() && LogOk(cfg, s) && w in cfg.revoked.entities && w.code in s.notices && RetriesOk(cfg, s, w.code)
    ensures CurrentDeadline(w, Heard(cfg.consent, cfg.revoked.occurredAt, s.log)) == s.notices[w.code].attempt.windowEndsAt
  {
    var es := Heard(cfg.consent, cfg.revoked.occurredAt, s.log);
    HeardIsWritten(cfg, s, w.code);
    FilteredIsSorted(IsOfEntities(cfg.consent, cfg.revoked.occurredAt), s.log);
    CurrentIsLatest(w, es);
    LatestIsSince(cfg, s, w, es);
  }

  lemma LatestIsSince(cfg: Config, s: State, w: EntityWindow, es: seq<ConsentEvent>)
    requires w.code in s.notices && RetriesOk(cfg, s, w.code) && w.deadlineAt == Some(cfg.FirstDeadline())
    requires forall e :: e in s.log && e.entityCode == w.code <==> e in es && e.entityCode == w.code
    requires if exists e :: e in es && Reopens(e, w.code)
             then exists e :: e in es && Reopens(e, w.code) && CurrentDeadline(w, es) == e.retryDeadline
                              && forall x :: x in es && Reopens(x, w.code) ==> x.occurredAt <= e.occurredAt
             else CurrentDeadline(w, es) == w.deadlineAt
    ensures CurrentDeadline(w, es) == s.notices[w.code].attempt.windowEndsAt
  {
    if exists e :: e in es && Reopens(e, w.code) {
      var e :| e in es && Reopens(e, w.code) && CurrentDeadline(w, es) == e.retryDeadline
               && forall x :: x in es && Reopens(x, w.code) ==> x.occurredAt <= e.occurredAt;
      assert e in s.log;
      var x :| x in s.log && Reopens(x, w.code) && x.occurredAt == s.notices[w.code].attempt.windowEndsAt.value - cfg.window;
      assert x in es;
    }
  }

  lemma ShownEntity(cfg: Config, s: State, now: Instant, names: EntityNames, i: nat)
    requires cfg.Valid() && LogOk(cfg, s) && i < |cfg.revoked.entities|
    ensures var v := View(cfg.consent, s.log, now, names);
            && v.revocation.Some? && i < |v.revocation.value.entities|
            && v.revocation.value.entities[i] == NoticeOf(cfg.revoked.entities[i], Heard(cfg.consent, cfg.revoked.occurredAt, s.log), now, names)
  {
    FirstIsInLog(cfg.consent, s.log);
    FirstIsEarliest(cfg.consent, s.log, cfg.revoked);
  }

  /**
   In every run, at every instant: an entity is shown as confirmed exactly when its
   notice is, and otherwise with the end of the window that its notice keeps.
   */
  lemma ShownIsWhatTheNoticeKeeps(cfg: Config, s0: State, steps: seq<Step>, now: Instant, names: EntityNames, i: nat)
    requires cfg.Valid() && Start(cfg, s0) && Legal(cfg, s0, steps) && i < |cfg.revoked.entities|
    ensures var s, code := Run(cfg, s0, steps), cfg.revoked.entities[i].code;
            var v := View(cfg.consent, s.log, now, names);
            && code in s.notices && v.revocation.Some? && i < |v.revocation.value.entities|
            && var n := v.revocation.value.entities[i];
            && n.entity.code == code
            && (n.status == NoticeConfirmed <==> s.notices[code].attempt.status == Confirmed)
            && (n.status != NoticeConfirmed ==> n.deadlineAt == s.notices[code].attempt.windowEndsAt)
  {
    StartInv(cfg, s0);
    InvAlways(cfg, s0, steps);
    var w := cfg.revoked.entities[i];
    assert RetriesOk(cfg, s0, w.code);
    RetriesAlways(cfg, s0, steps, w.code);
    var s := Run(cfg, s0, steps);
    ShownEntity(cfg, s, now, names, i);
    NoticeRule(w, Heard(cfg.consent, cfg.revoked.occurredAt, s.log));
    ConfirmedAgrees(cfg, s, w.code);
    DeadlineAgrees(cfg, s, w);
  }

  /** While a notice without a denial waits, it is shown as not confirmed exactly when an operator may retry it. */
  lemma RetriedExactlyWhenShown(cfg: Config, s0: State, steps: seq<Step>, names: EntityNames, i: nat)
    requires cfg.Valid() && Start(cfg, s0) && Legal(cfg, s0, steps) && i < |cfg.revoked.entities|
    requires var s, code := Run(cfg, s0, steps), cfg.revoked.entities[i].code;
             && code in s.notices && s.notices[code].attempt.status.Pending?
             && !DeniedIn(Heard(cfg.consent, cfg.revoked.occurredAt, s.log), code)
    ensures var s, code := Run(cfg, s0, steps), cfg.revoked.entities[i].code;
            var v := View(cfg.consent, s.log, s.clock, names);
            && v.revocation.Some? && i < |v.revocation.value.entities|
            && (v.revocation.value.entities[i].status == NoticeNotConfirmed <==> Enabled(cfg, s, Resume(code)))
  {
    StartInv(cfg, s0);
    InvAlways(cfg, s0, steps);
    assert RetriesOk(cfg, s0, cfg.revoked.entities[i].code);
    RetriesAlways(cfg, s0, steps, cfg.revoked.entities[i].code);
    WaitingIsShown(cfg, Run(cfg, s0, steps), names, i);
  }

  lemma WaitingIsShown(cfg: Config, s: State, names: EntityNames, i: nat)
    requires cfg.Valid() && Inv(cfg, s) && i < |cfg.revoked.entities|
    requires var code := cfg.revoked.entities[i].code;
             && code in s.notices && RetriesOk(cfg, s, code) && s.notices[code].attempt.status.Pending?
             && !DeniedIn(Heard(cfg.consent, cfg.revoked.occurredAt, s.log), code)
    ensures var v := View(cfg.consent, s.log, s.clock, names);
            && v.revocation.Some? && i < |v.revocation.value.entities|
            && (v.revocation.value.entities[i].status == NoticeNotConfirmed <==> Enabled(cfg, s, Resume(cfg.revoked.entities[i].code)))
  {
    var w := cfg.revoked.entities[i];
    ShownEntity(cfg, s, s.clock, names, i);
    ConfirmedAgrees(cfg, s, w.code);
    DeadlineAgrees(cfg, s, w);
    OnlyTheWindowSays(w, Heard(cfg.consent, cfg.revoked.occurredAt, s.log), s.clock, names);
  }

  lemma OnlyTheWindowSays(w: EntityWindow, es: seq<ConsentEvent>, now: Instant, names: EntityNames)
    requires !ConfirmedIn(es, w.code) && !DeniedIn(es, w.code)
    ensures NoticeOf(w, es, now, names).status == NoticeNotConfirmed <==> Over(CurrentDeadline(w, es), now)
  {
    NoticeRule(w, es);
  }

  /** A retried notice can be taken at once, for a whole new window. */
  lemma RetriedIsDue(cfg: Config, s: State, code: string, w: nat)
    requires cfg.Valid() && Enabled(cfg, s, Resume(code)) && w !in s.notices[code].workers
    ensures var s' := Do(cfg, s, Resume(code));
            Enabled(cfg, s', Claim(code, w)) && s'.notices[code].attempt.windowEndsAt == Some(s.clock + cfg.window)
  {
  }

  // ----- the attempts of a notice

  /** The attempts of a notice since its last retry are a round of the runner, and its claim was taken at or before the clock. */
  ghost predicate NoticeRoundOk(cfg: Config, clock: Instant, n: Notice)
    requires cfg.Valid()
  {
    && L.RoundOk(cfg.lease, n.attempt, n.failures, n.rejected)
    && (n.attempt.status.InProgress? ==> ClaimedBy(cfg, n, clock))
    && (forall w :: w in n.workers && n.workers[w].Answered? && n.workers[w].held == n.last ==> ClaimedBy(cfg, n, n.workers[w].at))
  }

  predicate ClaimedBy(cfg: Config, n: Notice, t: Instant) {
    n.attempt.claimedUntil.Some? && n.attempt.claimedUntil.value - cfg.lease.lease <= t
  }

  lemma ClaimKeepsRound(cfg: Config, clock: Instant, n: Notice, w: nat)
    requires cfg.Valid() && NoticeRoundOk(cfg, clock, n) && Claimable(n.attempt, clock) && forall v :: v in n.workers ==> n.workers[v].held <= n.last
    ensures var rec := Claimed(n.attempt, clock, cfg.lease.lease);
            NoticeRoundOk(cfg, clock, n.(last := n.last + 1, attempt := rec, workers := n.workers[w := Calling(n.last + 1, rec)]))
  {
  }

  lemma RecordKeepsRound(cfg: Config, clock: Instant, n: Notice, outcome: Outcome, at: Instant, workers: map<nat, Phase>)
    requires cfg.Valid() && NoticeRoundOk(cfg, clock, n) && n.attempt.status.InProgress? && ClaimedBy(cfg, n, at)
    requires forall v :: v in workers ==> workers[v].held <= n.last
    ensures var v := Decide(cfg.lease, n.attempt, outcome, at);
            NoticeRoundOk(cfg, clock, Notice(n.last + 1, Lease.Recorded(n.attempt, v).(claimedUntil := None), workers,
                                             if v.ToConfirm? then n.failures else n.failures + [at], outcome.OutcomeRejected?))
  {
    L.RoundKept(cfg.lease, n.attempt, n.failures, n.rejected, outcome, at);
    RoundWithoutClaim(cfg.lease, Lease.Recorded(n.attempt, Decide(cfg.lease, n.attempt, outcome, at)),
                      if outcome.OutcomeConfirmed? then n.failures else n.failures + [at], outcome.OutcomeRejected?);
  }

  lemma RoundWithoutClaim(lease: Lease.Config, a: Attempt<string>, fs: seq<Instant>, rejected: bool)
    requires lease.Valid() && L.RoundOk(lease, a, fs, rejected) && !a.status.InProgress?
    ensures L.RoundOk(lease, a.(claimedUntil := None), fs, rejected)
  {
  }

  lemma NoticeRoundKept(cfg: Config, s: State, step: Step, code: string)
    requires cfg.Valid() && Enabled(cfg, s, step) && code in s.notices && WorkersOk(cfg, s, s.notices[code])
    requires NoticeRoundOk(cfg, s.clock, s.notices[code])
    ensures code in Do(cfg, s, step).notices && NoticeRoundOk(cfg, Do(cfg, s, step).clock, Do(cfg, s, step).notices[code])
  {
    var n := s.notices[code];
    assert forall w :: w in n.workers ==> HoldsOk(cfg, s, n, n.workers[w]);
    if About(step, code) {
      match step
      case Claim(_, w) => ClaimKeepsRound(cfg, s.clock, n, w);
      case Record(_, w) =>
        if n.workers[w].held == n.last {
          RecordKeepsRound(cfg, s.clock, n, n.workers[w].outcome, n.workers[w].at, n.workers - {w});
        }
      case _ =>
    }
  }

  lemma {:induction false} NoticeRoundAlways(cfg: Config, s: State, steps: seq<Step>, code: string)
    requires cfg.Valid() && Inv(cfg, s) && Legal(cfg, s, steps) && code in s.notices && NoticeRoundOk(cfg, s.clock, s.notices[code])
    ensures code in Run(cfg, s, steps).notices && NoticeRoundOk(cfg, Run(cfg, s, steps).clock, Run(cfg, s, steps).notices[code])
    decreases |steps|
  {
    if steps != [] {
      InvKept(cfg, s, steps[0]);
      assert NoticeOk(cfg, s, code);
      NoticeRoundKept(cfg, s, steps[0], code);
      NoticeRoundAlways(cfg, Do(cfg, s, steps[0]), steps[1..], code);
    }
  }

  /**
   In every run a notice with failed attempts has failed exactly when the last of
   them was a rejection or ended its window (or its count); while it waits, its
   due date is the doubled wait after the last one, within the window.
   */
  lemma NoticesFailExactlyWhen(cfg: Config, s0: State, steps: seq<Step>, code: string)
    requires cfg.Valid() && Start(cfg, s0) && Legal(cfg, s0, steps) && code in s0.notices
    ensures code in Run(cfg, s0, steps).notices
    ensures var n := Run(cfg, s0, steps).notices[code];
            n.failures != [] ==>
              var k, last, end := |n.failures|, n.failures[|n.failures| - 1], n.attempt.windowEndsAt;
              && (n.attempt.status == Failed <==> n.rejected || RoundOver(cfg.lease, k, end, last))
              && (n.attempt.status == Pending ==> n.attempt.nextAttemptAt == Some(DueDate(cfg.lease.policy, k, end, last)))
  {
    StartInv(cfg, s0);
    NoticeRoundAlways(cfg, s0, steps, code);
  }

  // ----- event ids along a run

  /** The event was written by a step that the notice of its entity already took. */
  predicate TakenId(cfg: Config, s: State, e: ConsentEvent) {
    e.entityCode in s.notices && exists n: nat :: n <= s.notices[e.entityCode].last && e.eventId == EventId(cfg, e.entityCode, n)
  }

  ghost predicate IdsOk(cfg: Config, s: State) {
    && DistinctIds(s.log)
    && (forall e :: e in s.log ==> if e.entityCode == "" then !(EVENT_PREFIX <= e.eventId) else TakenId(cfg, s, e))
  }

  lemma IdsTellApart(cfg: Config, a: string, m: nat, b: string, n: nat)
    ensures EventId(cfg, a, m) == EventId(cfg, b, n) ==> a == b && m == n
  {
    var p := EVENT_PREFIX + cfg.consent.id + "-";
    assert EventId(cfg, a, m) == (p + a) + "-" + Text.Itoa(m) && EventId(cfg, b, n) == (p + b) + "-" + Text.Itoa(n);
    if EventId(cfg, a, m) == EventId(cfg, b, n) {
      Text.OrdinalIsReadBack(p + a, m, p + b, n);
      assert (p + a)[|p|..] == a && (p + b)[|p|..] == b;
    }
  }

  /** A step takes places that no event has yet. */
  lemma LastsGrow(cfg: Config, s: State, step: Step, code: string)
    requires cfg.Valid() && Enabled(cfg, s, step) && code in s.notices
    ensures code in Do(cfg, s, step).notices && s.notices[code].last <= Do(cfg, s, step).notices[code].last
    ensures |Written(cfg, s, step)| <= 1
    ensures Written(cfg, s, step) != [] ==>
              var e := Written(cfg, s, step)[0];
              && !step.Tick? && e.entityCode == step.code && step.code in s.notices
              && e.eventId == EventId(cfg, e.entityCode, s.notices[step.code].last + 1)
              && Do(cfg, s, step).notices[step.code].last == s.notices[step.code].last + 1
  {
  }

  lemma NewIdIsFree(cfg: Config, s: State, e: ConsentEvent)
    requires IdsOk(cfg, s) && e.entityCode in s.notices && e.eventId == EventId(cfg, e.entityCode, s.notices[e.entityCode].last + 1)
    ensures forall x :: x in s.log ==> x.eventId != e.eventId
  {
    forall x | x in s.log
      ensures x.eventId != e.eventId
    {
      if x.entityCode == "" {
        assert EVENT_PREFIX <= e.eventId;
      } else {
        assert TakenId(cfg, s, x);
        var n: nat :| n <= s.notices[x.entityCode].last && x.eventId == EventId(cfg, x.entityCode, n);
        IdsTellApart(cfg, x.entityCode, n, e.entityCode, s.notices[e.entityCode].last + 1);
      }
    }
  }

  lemma IdsKept(cfg: Config, s: State, step: Step)
    requires cfg.Valid() && IdsOk(cfg, s) && Enabled(cfg, s, step) && "" !in s.notices
    ensures IdsOk(cfg, Do(cfg, s, step)) && "" !in Do(cfg, s, step).notices
  {
    var s', more := Do(cfg, s, step), Written(cfg, s, step);
    forall code | code in s.notices
      ensures code in s'.notices && s.notices[code].last <= s'.notices[code].last
    {
      LastsGrow(cfg, s, step, code);
    }
    IdsStayTaken(cfg, s, s');
    if more == [] {
      assert s'.log == s.log;
    } else {
      LastsGrow(cfg, s, step, step.code);
      assert more == [more[0]];
      IdsAppended(cfg, s, s', more[0]);
    }
  }

  lemma IdsStayTaken(cfg: Config, s: State, s': State)
    requires IdsOk(cfg, s)
    requires forall code :: code in s.notices ==> code in s'.notices && s.notices[code].last <= s'.notices[code].last
    ensures forall e :: e in s.log && e.entityCode != "" ==> TakenId(cfg, s', e)
  {
    forall e | e in s.log && e.entityCode != ""
      ensures TakenId(cfg, s', e)
    {
      assert TakenId(cfg, s, e);
    }
  }

  lemma IdsAppended(cfg: Config, s: State, s': State, e: ConsentEvent)
    requires IdsOk(cfg, s) && s'.log == s.log + [e] && e.entityCode != "" && e.entityCode in s.notices && e.entityCode in s'.notices
    requires e.eventId == EventId(cfg, e.entityCode, s.notices[e.entityCode].last + 1)
    requires s'.notices[e.entityCode].last == s.notices[e.entityCode].last + 1
    requires forall x :: x in s.log && x.entityCode != "" ==> TakenId(cfg, s', x)
    ensures IdsOk(cfg, s')
  {
    assert TakenId(cfg, s', e);
    NewIdIsFree(cfg, s, e);
    AppendKeepsDistinct(s.log, e);
  }

  lemma AppendKeepsDistinct(log: seq<ConsentEvent>, e: ConsentEvent)
    requires DistinctIds(log) && forall x :: x in log ==> x.eventId != e.eventId
    ensures DistinctIds(log + [e])
  {
    var log' := log + [e];
    forall i, j | 0 <= i < j < |log'|
      ensures log'[i].eventId != log'[j].eventId
    {
      assert log'[i] == log[i] && log[i] in log;
    }
  }

  lemma {:induction false} IdsAlways(cfg: Config, s: State, steps: seq<Step>)
    requires cfg.Valid() && IdsOk(cfg, s) && "" !in s.notices && Legal(cfg, s, steps)
    ensures IdsOk(cfg, Run(cfg, s, steps))
    decreases |steps|
  {
    if steps != [] {
      IdsKept(cfg, s, steps[0]);
      IdsAlways(cfg, Do(cfg, s, steps[0]), steps[1..]);
    }
  }

  /** The log of every run gives the same view in any order, as the ids of its events stay distinct. */
  lemma RunsForgetOrder(cfg: Config, s0: State, steps: seq<Step>, log': seq<ConsentEvent>, now: Instant, names: EntityNames)
    requires cfg.Valid() && Start(cfg, s0) && Legal(cfg, s0, steps) && DistinctIds(s0.log)
    requires forall e :: e in s0.log ==> !(EVENT_PREFIX <= e.eventId)
    requires multiset(Run(cfg, s0, steps).log) == multiset(log')
    ensures DistinctIds(Run(cfg, s0, steps).log)
    ensures View(cfg.consent, log', now, names) == View(cfg.consent, Run(cfg, s0, steps).log, now, names)
  {
    IdsAlways(cfg, s0, steps);
    ViewForgetsOrder(cfg.consent, Run(cfg, s0, steps).log, log', now, names);
  }

  // ----- lateness along a run

  /** The entity missed its first window, as a read at the clock of the state says. */
  predicate Late(cfg: Config, s: State, w: EntityWindow) {
    MissedBy(w, Heard(cfg.consent, cfg.revoked.occurredAt, s.log), s.clock)
  }

  lemma LateStays(cfg: Config, s: State, step: Step, w: EntityWindow)
    requires cfg.Valid() && cfg.prompt && Inv(cfg, s) && Enabled(cfg, s, step) && Late(cfg, s, w)
    ensures Late(cfg, Do(cfg, s, step), w)
  {
    LatenessStays(cfg.consent, cfg.revoked.occurredAt, w, s.log, Written(cfg, s, step), s.clock, Do(cfg, s, step).clock);
  }

  lemma {:induction false} LateForever(cfg: Config, s: State, steps: seq<Step>, w: EntityWindow)
    requires cfg.Valid() && cfg.prompt && Inv(cfg, s) && Legal(cfg, s, steps) && Late(cfg, s, w)
    ensures Late(cfg, Run(cfg, s, steps), w)
    decreases |steps|
  {
    if steps != [] {
      InvKept(cfg, s, steps[0]);
      LateStays(cfg, s, steps[0], w);
      LateForever(cfg, Do(cfg, s, steps[0]), steps[1..], w);
    }
  }

  /** The holder of the last step of the notice to `code` records a confirmation dated before the first window ended. */
  predicate RecordsInTime(cfg: Config, s: State, step: Step, code: string)
    requires Enabled(cfg, s, step)
  {
    && step.Record? && step.code == code
    && var n := s.notices[code];
    && var p := n.workers[step.w];
    && p.held == n.last && p.outcome.OutcomeConfirmed? && p.at < cfg.FirstDeadline()
  }

  /**
   One step undoes the lateness of an entity exactly when it is the write of an
   answer that came in time, the window having ended meanwhile, and nothing in
   the log denies the notice.
   */
  lemma LatenessUndoneExactlyWhen(cfg: Config, s: State, step: Step, w: EntityWindow)
    requires cfg.Valid() && Inv(cfg, s) && Enabled(cfg, s, step) && w in cfg.revoked.entities && Late(cfg, s, w)
    ensures !Late(cfg, Do(cfg, s, step), w) <==>
              RecordsInTime(cfg, s, step, w.code) && !DeniedIn(Heard(cfg.consent, cfg.revoked.occurredAt, s.log), w.code)
  {
    var since, s', more := cfg.revoked.occurredAt, Do(cfg, s, step), Written(cfg, s, step);
    assert NoticeOk(cfg, s, w.code);
    if !step.Tick? {
      assert NoticeOk(cfg, s, step.code);
    }
    if step.Record? {
      assert HoldsOk(cfg, s, s.notices[step.code], s.notices[step.code].workers[step.w]);
    }
    LatenessRevertsExactlyWhen(cfg.consent, since, w, s.log, more, s.clock, s'.clock);
    DenialsGrow(cfg.consent, since, s.log, more, w.code);
    assert RecordsInTime(cfg, s, step, w.code) ==> forall e :: e in more ==> !Denies(e, w.code);
    WrittenInTime(cfg, s, step, w);
  }

  /** What a step writes is a confirmation in time exactly when its holder records one. */
  lemma WrittenInTime(cfg: Config, s: State, step: Step, w: EntityWindow)
    requires cfg.Valid() && Inv(cfg, s) && Enabled(cfg, s, step) && w in cfg.revoked.entities
    ensures (exists e :: e in Written(cfg, s, step) && InTime(cfg.consent, cfg.revoked.occurredAt, w, e)) <==> RecordsInTime(cfg, s, step, w.code)
  {
    var more := Written(cfg, s, step);
    if step.Record? {
      assert NoticeOk(cfg, s, step.code);
      assert HoldsOk(cfg, s, s.notices[step.code], s.notices[step.code].workers[step.w]);
      if RecordsInTime(cfg, s, step, w.code) {
        assert more[0] in more && InTime(cfg.consent, cfg.revoked.occurredAt, w, more[0]);
      }
    }
  }

  /** Two reads along any run, the second after `more` steps: a late entity of the revocation is late again. */
  ghost predicate LatenessNeverReverts(cfg: Config)
    requires cfg.Valid()
  {
    forall s0, steps, more, i ::
      Start(cfg, s0) && Legal(cfg, s0, steps) && Legal(cfg, Run(cfg, s0, steps), more) && 0 <= i < |cfg.revoked.entities| ==>
        Late(cfg, Run(cfg, s0, steps), cfg.revoked.entities[i]) ==> Late(cfg, Run(cfg, Run(cfg, s0, steps), more), cfg.revoked.entities[i])
  }

  /** The entity answered in the first instant of its window, and the window ended before anything was written. */
  predicate WaitsToRecord(cfg: Config, s: State)
    requires cfg.revoked.entities != []
  {
    var code := cfg.revoked.entities[0].code;
    && s.log == [cfg.revoked] && s.clock == cfg.FirstDeadline()
    && code in s.notices && 0 in s.notices[code].workers
    && var p := s.notices[code].workers[0];
    && p.Answered? && p.held == s.notices[code].last && p.outcome.OutcomeConfirmed? && p.at == cfg.revoked.occurredAt
  }

  lemma AnswerInTime(cfg: Config) returns (s0: State, steps: seq<Step>)
    requires cfg.Valid() && cfg.revoked.entities != []
    ensures Start(cfg, s0) && Legal(cfg, s0, steps) && WaitsToRecord(cfg, Run(cfg, s0, steps))
  {
    var code, start, end := cfg.revoked.entities[0].code, cfg.revoked.occurredAt, cfg.FirstDeadline();
    var codes := set i | 0 <= i < |cfg.revoked.entities| :: cfg.revoked.entities[i].code;
    s0 := State(start, map k | k in codes :: Notice(1, Attempt("", k, Pending, 0, Some(end), Some(start), None), map[], [], false), [cfg.revoked]);
    var a, b, c := Claim(code, 0), Answer(code, 0, OutcomeConfirmed), Tick(end);
    steps := [a, b, c];
    assert Do(cfg, s0, a).notices[code].workers[0].held == 2;
    RunOfThree(cfg, s0, a, b, c);
  }

  lemma RecordTooLate(cfg: Config, s: State)
    requires cfg.Valid() && !cfg.prompt && cfg.revoked.entities != [] && WaitsToRecord(cfg, s)
    ensures var w, d := cfg.revoked.entities[0], Record(cfg.revoked.entities[0].code, 0);
            && Late(cfg, s, w)
            && Legal(cfg, s, [d]) && !Late(cfg, Run(cfg, s, [d]), w)
  {
    var code := cfg.revoked.entities[0].code;
    var d := Record(code, 0);
    assert [d][1..] == [];
    NotHeardIsLate(cfg, s);
    var confirmation := EventOf(cfg, code, s.notices[code].last + 1, RevocationConfirmed, cfg.revoked.occurredAt, s.clock, None);
    assert Do(cfg, s, d).log == [cfg.revoked, confirmation];
    HeardInTime(cfg, Do(cfg, s, d), confirmation);
  }

  lemma RunOfThree(cfg: Config, s: State, a: Step, b: Step, c: Step)
    requires cfg.Valid() && Enabled(cfg, s, a) && Enabled(cfg, Do(cfg, s, a), b) && Enabled(cfg, Do(cfg, Do(cfg, s, a), b), c)
    ensures Legal(cfg, s, [a, b, c]) && Run(cfg, s, [a, b, c]) == Do(cfg, Do(cfg, Do(cfg, s, a), b), c)
  {
    var s1 := Do(cfg, s, a);
    var s2 := Do(cfg, s1, b);
    assert [a, b, c][1..] == [b, c] && [b, c][1..] == [c] && [c][1..] == [];
    assert Legal(cfg, s2, [c]) && Run(cfg, s2, [c]) == Do(cfg, s2, c);
    assert Legal(cfg, s1, [b, c]) && Run(cfg, s1, [b, c]) == Do(cfg, s2, c);
  }

  lemma NotHeardIsLate(cfg: Config, s: State)
    requires cfg.Valid() && cfg.revoked.entities != [] && s.log == [cfg.revoked] && cfg.FirstDeadline() <= s.clock
    ensures Late(cfg, s, cfg.revoked.entities[0])
  {
    var since, w := cfg.revoked.occurredAt, cfg.revoked.entities[0];
    var es := Heard(cfg.consent, since, s.log);
    FilteredIsSorted(IsOfEntities(cfg.consent, since), s.log);
    MissedRule(w, es, s.clock);
    ConfirmedByMember(es, w.code);
    forall e | e in es
      ensures false
    {
      HeardMember(cfg.consent, since, s.log, e);
    }
  }

  lemma HeardInTime(cfg: Config, s: State, e: ConsentEvent)
    requires cfg.Valid() && cfg.revoked.entities != [] && s.log == [cfg.revoked, e]
    requires e.consentId == cfg.consent.id && Confirms(e, cfg.revoked.entities[0].code)
    requires cfg.revoked.occurredAt <= e.occurredAt < cfg.FirstDeadline()
    ensures !Late(cfg, s, cfg.revoked.entities[0])
  {
    var since, w := cfg.revoked.occurredAt, cfg.revoked.entities[0];
    var es := Heard(cfg.consent, since, s.log);
    FilteredIsSorted(IsOfEntities(cfg.consent, since), s.log);
    MissedRule(w, es, s.clock);
    HeardMember(cfg.consent, since, s.log, e);
    forall i | 0 <= i < |es|
      ensures !Denies(es[i], w.code)
    {
      HeardMember(cfg.consent, since, s.log, es[i]);
    }
  }

  /** Lateness never reverts along any run exactly when answers are recorded as they are dated (or nobody is notified). */
  lemma NeverRevertsExactlyWhenPrompt(cfg: Config)
    requires cfg.Valid()
    ensures LatenessNeverReverts(cfg) <==> cfg.prompt || cfg.revoked.entities == []
  {
    if !cfg.prompt && cfg.revoked.entities != [] {
      var s0, steps := AnswerInTime(cfg);
      RecordTooLate(cfg, Run(cfg, s0, steps));
    } else {
      forall s0, steps, more, i |
        && Start(cfg, s0) && Legal(cfg, s0, steps) && Legal(cfg, Run(cfg, s0, steps), more)
        && 0 <= i < |cfg.revoked.entities| && Late(cfg, Run(cfg, s0, steps), cfg.revoked.entities[i])
        ensures Late(cfg, Run(cfg, Run(cfg, s0, steps), more), cfg.revoked.entities[i])
      {
        StartInv(cfg, s0);
        InvAlways(cfg, s0, steps);
        LateForever(cfg, Run(cfg, s0, steps), more, cfg.revoked.entities[i]);
      }
    }
  }
}
