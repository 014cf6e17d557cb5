/** The services over the consents: verifying one and revoking it (services/audit/internal/consents). */
module ConsentServices {
  import opened Common
  import opened Consents
  import opened ConsentLaws

  // ----- may the customer be profiled now?

  datatype Verification = NoConsent | Verification(consentId: string, active: bool, sources: seq<string>)

  /** The latest consent of each customer and, once wired, the events of each consent. */
  class Service {
    var latest: map<string, Consent>
    var events: Option<map<string, seq<ConsentEvent>>>

    constructor (latest: map<string, Consent>, events: Option<map<string, seq<ConsentEvent>>>)
      ensures this.latest == latest && this.events == events
    {
      this.latest, this.events := latest, events;
    }

    function LogOf(id: string): seq<ConsentEvent>
      requires events.Some?
      reads this
    {
      if id in events.value then events.value[id] else []
    }

    /** Active while the record is and no event ended it, and never once a revocation is in the log. */
    method Verify(customer: string, now: Instant) returns (v: Verification)
      ensures v.NoConsent? <==> customer !in latest
      ensures v.Verification? ==>
                var c := latest[customer];
                && v.consentId == c.id
                && (v.active <==> now < c.expiresAt && (events.Some? ==> Derive(c, LogOf(c.id), now, map[]).status.StatusActive?))
                && (events.Some? && (exists e :: e in LogOf(c.id) && Revokes(c, e)) ==> !v.active)
                && v.sources == if v.active then c.scope else []
    {
      if customer !in latest {
        return NoConsent;
      }
      var c := latest[customer];
      v := Verification(c.id, now < c.expiresAt, if now < c.expiresAt then c.scope else []);
      if events.None? || !v.active {
        return;
      }
      var d := DeriveStatus(c, LogOf(c.id), now, map[]);
      RevokedExactlyWhen(c, LogOf(c.id), now, map[]);
      if !d.status.StatusActive? {
        v := v.(active := false, sources := []);
      }
    }
  }

  // ----- the store of revocations

  datatype Revocation = Revocation(
    consentId: string,
    requestId: string,
    requestedAt: Instant,
    effectiveAt: Instant,
    channel: string,
    device: string,
    entities: seq<string>,
    noticeDeadlineAt: Instant)

  /** The stored revocations, unique by consent and by request. */
  datatype Table = Table(byConsent: map<string, Revocation>, byRequest: map<string, string>)

  predicate Consistent(t: Table) {
    && (forall k :: k in t.byConsent ==>
          var r := t.byConsent[k];
          r.consentId == k && r.requestId in t.byRequest && t.byRequest[r.requestId] == k)
    && (forall q :: q in t.byRequest ==> t.byRequest[q] in t.byConsent && t.byConsent[t.byRequest[q]].requestId == q)
  }

  datatype Answer = Created(stored: Revocation) | Same(stored: Revocation) | KeyReused | Already

  function AnswerTo(t: Table, r: Revocation): Answer
    requires Consistent(t)
  {
    if r.requestId in t.byRequest then
      if t.byRequest[r.requestId] == r.consentId then Same(t.byConsent[r.consentId]) else KeyReused
    else if r.consentId in t.byConsent then Already
    else Created(r)
  }

  function After(t: Table, r: Revocation): (t': Table)
    requires Consistent(t)
    ensures Consistent(t')
  {
    if AnswerTo(t, r).Created?
    then Table(t.byConsent[r.consentId := r], t.byRequest[r.requestId := r.consentId])
    else t
  }

  /** The entities notified and the end of their window. */
  function WindowsOf(r: Revocation): seq<EntityWindow> {
    seq(|r.entities|, i requires 0 <= i < |r.entities| => EntityWindow(r.entities[i], Some(r.noticeDeadlineAt)))
  }

  /** The two events a recorded revocation writes. */
  function EventsOf(r: Revocation, requestEvent: string, revokedEvent: string, receipt: string): seq<ConsentEvent> {
    [ConsentEvent(requestEvent, r.consentId, "", RevocationRequested, r.requestedAt, r.effectiveAt, "", r.channel, r.device, [], None),
     ConsentEvent(revokedEvent, r.consentId, "", Revoked, r.effectiveAt, r.effectiveAt, receipt, r.channel, r.device, WindowsOf(r), None)]
  }

  /** The header of the notice to an entity and its first step, pending and due at once. */
  datatype Notice = Notice(key: string, windowEndsAt: Option<Instant>, nextAttemptAt: Instant)

  function FirstSteps(r: Revocation): map<string, Notice> {
    map code | code in r.entities :: Notice("revocation-" + r.consentId + "-" + code, Some(r.noticeDeadlineAt), r.effectiveAt)
  }

  /** Every stored revocation has its revoked event. */
  predicate Logged(t: Table, log: seq<ConsentEvent>) {
    forall k :: k in t.byConsent ==> LoggedFor(t.byConsent[k], log)
  }

  predicate LoggedFor(r: Revocation, log: seq<ConsentEvent>) {
    exists i :: 0 <= i < |log| && log[i].consentId == r.consentId && log[i].entityCode == "" && log[i].status.Revoked? &&
                log[i].occurredAt == r.effectiveAt && log[i].entities == WindowsOf(r)
  }

  class RevocationStore {
    var table: Table
    var log: seq<ConsentEvent>
    var notices: map<string, map<string, Notice>>

    /** Every stored revocation has its events and its notices, whole. */
    ghost predicate Valid()
      reads this
    {
      Consistent(table) && Logged(table, log) && notices.Keys == table.byConsent.Keys
    }

    constructor ()
      ensures Valid() && table == Table(map[], map[]) && log == [] && notices == map[]
    {
      table, log, notices := Table(map[], map[]), [], map[];
    }

    /** One transaction: the revocation with its two events and the first step of each notice, or nothing. */
    method Record(r: Revocation, requestEvent: string, revokedEvent: string, receipt: string) returns (a: Answer)
      requires Valid()
      modifies this
      ensures Valid()
      ensures a == AnswerTo(old(table), r) && table == After(old(table), r)
      ensures log == old(log) + if a.Created? then EventsOf(r, requestEvent, revokedEvent, receipt) else []
      ensures notices == if a.Created? then old(notices)[r.consentId := FirstSteps(r)] else old(notices)
    {
      if r.requestId !in table.byRequest && r.consentId !in table.byConsent {
        LoggedAfter(table, log, r, requestEvent, revokedEvent, receipt);
        table := Table(table.byConsent[r.consentId := r], table.byRequest[r.requestId := r.consentId]);
        log := log + EventsOf(r, requestEvent, revokedEvent, receipt);
        notices := notices[r.consentId := FirstSteps(r)];
        return Created(r);
      }
      if r.requestId in table.byRequest {
        if table.byRequest[r.requestId] == r.consentId {
          a := Same(table.byConsent[r.consentId]);
        } else {
          a := KeyReused;
        }
      } else {
        a := Already;
      }
    }
  }

  lemma LoggedAfter(t: Table, log: seq<ConsentEvent>, r: Revocation, requestEvent: string, revokedEvent: string, receipt: string)
    requires Consistent(t) && Logged(t, log) && AnswerTo(t, r).Created?
    ensures Logged(After(t, r), log + EventsOf(r, requestEvent, revokedEvent, receipt))
  {
    var log' := log + EventsOf(r, requestEvent, revokedEvent, receipt);
    LoggedGrows(t, log, log');
    assert log'[|log'| - 1] == EventsOf(r, requestEvent, revokedEvent, receipt)[1];
    assert LoggedFor(r, log');
  }

  // ----- what is recorded is what is shown

  /** A log without notices, in which nothing asks for a revocation of the consent or revokes it. */
  predicate Unasked(c: Consent, log: seq<ConsentEvent>) {
    forall e :: e in log && e.consentId == c.id ==> e.entityCode == "" && e.status != RevocationRequested && !Revokes(c, e)
  }

  /** The last request up to the revocation, or the revocation itself without one. */
  lemma {:induction false} RequestedAtRule(revoked: ConsentEvent, own: seq<ConsentEvent>, t: Instant)
    requires forall e :: e in own && e.status == RevocationRequested && e.occurredAt <= revoked.occurredAt ==> e.occurredAt == t
    ensures RequestedAt(revoked, own) ==
              if exists e :: e in own && e.status == RevocationRequested && e.occurredAt <= revoked.occurredAt then t else revoked.occurredAt
  {
    if own != [] {
      var last := own[|own| - 1];
      if !(last.status.RevocationRequested? && last.occurredAt <= revoked.occurredAt) {
        var rest := own[..|own| - 1];
        assert own == rest + [last];
        RequestedAtRule(revoked, rest, t);
      } else {
        assert last in own;
      }
    }
  }

  /** The log of a recorded revocation: its revoked event is the first revocation, and no notice was heard of. */
  lemma RecordedIsFirst(c: Consent, log: seq<ConsentEvent>, request: ConsentEvent, revoked: ConsentEvent)
    requires Unasked(c, log) && Revokes(c, revoked) && request.consentId == c.id && request.entityCode == "" && !request.status.Revoked?
    ensures FirstIn(c, log + [request, revoked]) == Some(revoked)
    ensures Heard(c, revoked.occurredAt, log + [request, revoked]) == []
  {
    var log' := log + [request, revoked];
    assert log'[|log| + 1] == revoked;
    FirstIsEarliest(c, log', revoked);
    FirstIsInLog(c, log');
    var es := Heard(c, revoked.occurredAt, log');
    if es != [] {
      HeardMember(c, revoked.occurredAt, log', es[0]);
    }
  }

  lemma RecordedRequest(c: Consent, log: seq<ConsentEvent>, request: ConsentEvent, revoked: ConsentEvent)
    requires Unasked(c, log) && Revokes(c, revoked) && request.consentId == c.id && request.entityCode == "" && request.status == RevocationRequested
    ensures RequestedAt(revoked, Own(c, SortEvents(log + [request, revoked]))) == Min(request.occurredAt, revoked.occurredAt)
  {
    var log' := log + [request, revoked];
    var own := Own(c, SortEvents(log'));
    assert log'[|log|] == request;
    forall e
      ensures e in own && e.status == RevocationRequested <==> e == request
    {
      FilteredMember(IsOwn(c), log', e);
    }
    RequestedAtRule(revoked, own, request.occurredAt);
  }

  /** Entities nobody heard of: pending until the end of their window, and not confirmed from it on. */
  lemma Unheard(ws: seq<EntityWindow>, deadline: Instant, now: Instant, names: EntityNames)
    requires forall i :: 0 <= i < |ws| ==> ws[i].deadlineAt == Some(deadline)
    ensures forall i :: 0 <= i < |ws| ==>
              NoticesOf(ws, [], now, names)[i] ==
                EntityNotice(EntityOf(names, ws[i].code), if deadline <= now then NoticeNotConfirmed else NoticePending, None, Some(deadline))
    ensures AnyPartial(ws, [], now) <==> ws != [] && deadline <= now
    ensures AnyMissed(ws, [], now) <==> ws != [] && deadline <= now
    ensures Summarize(NoticesOf(ws, [], now, names), AnyPartial(ws, [], now)) ==
              if ws == [] then Completed else if deadline <= now then Partial else InProgress
  {
    forall i | 0 <= i < |ws|
      ensures PartialFor(ws[i], [], now) <==> deadline <= now
      ensures MissedBy(ws[i], [], now) <==> deadline <= now
    {
    }
    if ws != [] {
      assert PartialFor(ws[0], [], now) <==> deadline <= now;
      assert MissedBy(ws[0], [], now) <==> deadline <= now;
      assert !NoticesOf(ws, [], now, names)[0].status.NoticeConfirmed?;
    }
  }

  /**
   What a revocation records is what is shown of it at any later read: receipt,
   both instants, channel, device, and every entity with the end of its window,
   pending before it and not confirmed from it on.
   */
  lemma RecordedIsShown(c: Consent, log: seq<ConsentEvent>, r: Revocation, requestEvent: string, revokedEvent: string, receipt: string,
                        now: Instant, names: EntityNames)
    requires r.consentId == c.id && r.effectiveAt < c.expiresAt && Unasked(c, log)
    ensures var v := View(c, log + EventsOf(r, requestEvent, revokedEvent, receipt), now, names);
            && v.revocation.Some? && v.endedAt == Some(r.effectiveAt) && v.revocationReceiptId == receipt
            && var rev, over := v.revocation.value, r.noticeDeadlineAt <= now;
            && rev.receiptNumber == receipt && rev.channel == r.channel && rev.device == r.device
            && rev.effectiveAt == r.effectiveAt && rev.requestedAt == Min(r.requestedAt, r.effectiveAt)
            && |rev.entities| == |r.entities|
            && (forall i :: 0 <= i < |r.entities| ==>
                  && rev.entities[i].entity.code == r.entities[i] && rev.entities[i].deadlineAt == Some(r.noticeDeadlineAt)
                  && rev.entities[i].status == (if over then NoticeNotConfirmed else NoticePending))
            && rev.summary == (if r.entities == [] then Completed else if over then Partial else InProgress)
            && v.status == (if r.entities != [] && over then StatusPartiallyRevoked else StatusRevoked)
            && (rev.outOfDeadline <==> r.entities != [] && over)
  {
    var events := EventsOf(r, requestEvent, revokedEvent, receipt);
    var log' := log + events;
    assert events == [events[0], events[1]];
    RecordedIsFirst(c, log, events[0], events[1]);
    RecordedRequest(c, log, events[0], events[1]);
    Unheard(WindowsOf(r), r.noticeDeadlineAt, now, names);
  }

  /** One key per entity of a revocation. */
  lemma NoticeKeysTellApart(r: Revocation, a: string, b: string)
    requires a in r.entities && b in r.entities
    ensures FirstSteps(r)[a].key == "revocation-" + r.consentId + "-" + a
    ensures FirstSteps(r)[a].key == FirstSteps(r)[b].key <==> a == b
  {
    var p := "revocation-" + r.consentId + "-";
    assert (p + a)[|p|..] == a && (p + b)[|p|..] == b;
  }

  lemma LoggedGrows(t: Table, log: seq<ConsentEvent>, log': seq<ConsentEvent>)
    requires Logged(t, log) && log <= log'
    ensures Logged(t, log')
  {
  }

  // ----- racing and repeated requests

  function AfterAll(t: Table, rs: seq<Revocation>): (t': Table)
    requires Consistent(t)
    ensures Consistent(t')
    decreases |rs|
  {
    if rs == [] then t else AfterAll(After(t, rs[0]), rs[1..])
  }

  /** How many of the requests created the revocation of the consent. */
  function Creations(t: Table, rs: seq<Revocation>, consent: string): nat
    requires Consistent(t)
    decreases |rs|
  {
    if rs == [] then 0
    else (if rs[0].consentId == consent && AnswerTo(t, rs[0]).Created? then 1 else 0) + Creations(After(t, rs[0]), rs[1..], consent)
  }

  /** Some request for the consent came with an id that no request for another consent uses. */
  predicate Asked(t: Table, rs: seq<Revocation>, consent: string) {
    exists i :: 0 <= i < |rs| && rs[i].consentId == consent && rs[i].requestId !in t.byRequest &&
                forall k :: 0 <= k < i && rs[k].requestId == rs[i].requestId ==> rs[k].consentId == consent
  }

  /** However requests race or repeat: one creates the record of a consent, the rest change nothing, and it is never replaced. */
  lemma {:induction false} ExactlyOneCreates(t: Table, rs: seq<Revocation>, consent: string)
    requires Consistent(t)
    ensures Creations(t, rs, consent) == if consent !in t.byConsent && consent in AfterAll(t, rs).byConsent then 1 else 0
    ensures consent in t.byConsent ==>
              consent in AfterAll(t, rs).byConsent && AfterAll(t, rs).byConsent[consent] == t.byConsent[consent]
    ensures Asked(t, rs, consent) ==> consent in AfterAll(t, rs).byConsent
    decreases |rs|
  {
    if rs != [] {
      var t' := After(t, rs[0]);
      ExactlyOneCreates(t', rs[1..], consent);
      if Asked(t, rs, consent) && consent !in t'.byConsent {
        AskedLater(t, rs, consent);
      }
    }
  }

  lemma AskedLater(t: Table, rs: seq<Revocation>, consent: string)
    requires Consistent(t) && rs != [] && Asked(t, rs, consent) && consent !in After(t, rs[0]).byConsent
    ensures Asked(After(t, rs[0]), rs[1..], consent)
  {
  }

  // ----- revoking

  datatype RevokeError = NoRequestId | NotRevocable(why: RevocableError) | InvalidRequest | ReusedKey | LostTheRace

  datatype RevokeResult = Ok(view: ConsentView, created: bool) | Refused(error: RevokeError)

  /** The stored revocation of the consent is the one of this request. */
  predicate RecordedBy(t: Table, consent: string, request: string) {
    consent in t.byConsent && t.byConsent[consent].requestId == request
  }

  /** What the other requests may do between the read of a request and its write: add, never replace. */
  predicate Extends(t: Table, log: seq<ConsentEvent>, t': Table, log': seq<ConsentEvent>) {
    && Consistent(t') && Logged(t', log') && log <= log'
    && (forall k :: k in t.byConsent ==> k in t'.byConsent && t'.byConsent[k] == t.byConsent[k])
  }

  /** The stored revocation of a consent took effect before it expired. */
  predicate Timely(c: Consent, t: Table) {
    c.id in t.byConsent ==> t.byConsent[c.id].effectiveAt < c.expiresAt
  }

  lemma LoggedIsWithdrawn(c: Consent, t: Table, log: seq<ConsentEvent>, now: Instant, names: EntityNames)
    requires Logged(t, log) && Consistent(t) && Timely(c, t) && c.id in t.byConsent
    ensures Withdrawn(View(c, log, now, names).status)
  {
    var r := t.byConsent[c.id];
    assert LoggedFor(r, log);
    var i :| 0 <= i < |log| && log[i].consentId == r.consentId && log[i].entityCode == "" && log[i].status.Revoked? &&
             log[i].occurredAt == r.effectiveAt && log[i].entities == WindowsOf(r);
    RevocationIsIrreversible(c, log, log[i], log, now, names);
  }

  lemma ActiveIsUnexpired(c: Consent, log: seq<ConsentEvent>, now: Instant, names: EntityNames)
    ensures View(c, log, now, names).status.StatusActive? ==> now < c.expiresAt
  {
  }

  /** What a request finds: the stored revocations and the log when it reads, and what others left when it writes. */
  datatype Scene = Scene(table: Table, log: seq<ConsentEvent>, table': Table, log': seq<ConsentEvent>)

  /** The instants of the read and of the answer, the ids of the two events and the receipt. */
  datatype Turn = Turn(now: Instant, later: Instant, requestEvent: string, revokedEvent: string, receipt: string)

  function LogAfter(t: Table, log: seq<ConsentEvent>, r: Revocation, u: Turn): seq<ConsentEvent>
    requires Consistent(t)
  {
    log + if AnswerTo(t, r).Created? then EventsOf(r, u.requestEvent, u.revokedEvent, u.receipt) else []
  }

  /** What is answered without writing: a missing key, a consent that cannot be revoked (or was, by this request), bad data. */
  function EarlyAnswer(r: Revocation, view: ConsentView, same: bool, valid: bool): Option<RevokeResult> {
    if r.requestId == "" then Some(Refused(NoRequestId))
    else match CheckRevocable(view.status)
      case Some(why) => Some(if why.AlreadyRevoked? && same then Ok(view, false) else Refused(NotRevocable(why)))
      case None => if valid then None else Some(Refused(InvalidRequest))
  }

  function EarlyAnswerIn(c: Consent, r: Revocation, valid: bool, s: Scene, u: Turn, names: EntityNames): Option<RevokeResult> {
    EarlyAnswer(r, View(c, s.log, u.now, names), RecordedBy(s.table, c.id, r.requestId), valid)
  }

  /** The answer to every request. */
  function RevokeAnswer(c: Consent, r: Revocation, valid: bool, s: Scene, u: Turn, names: EntityNames): RevokeResult
    requires Consistent(s.table')
  {
    match EarlyAnswerIn(c, r, valid, s, u, names)
    case Some(res) => res
    case None => WriteAnswer(c, AnswerTo(s.table', r), LogAfter(s.table', s.log', r, u), u, names)
  }

  /** The answer that follows what the store said, with the view of what it then holds. */
  function WriteAnswer(c: Consent, a: Answer, log: seq<ConsentEvent>, u: Turn, names: EntityNames): RevokeResult {
    match a
    case KeyReused => Refused(ReusedKey)
    case Already => Refused(LostTheRace)
    case _ => Ok(View(c, log, u.later, names), a.Created?)
  }

  /** Whatever others do between the read and the write, a success shows the consent withdrawn, by this very request. */
  lemma SuccessMeansWithdrawn(c: Consent, r: Revocation, valid: bool, s: Scene, u: Turn, names: EntityNames)
    requires Extends(s.table, s.log, s.table', s.log') && Timely(c, s.table')
    requires r.consentId == c.id && r.effectiveAt == u.now
    ensures var res := RevokeAnswer(c, r, valid, s, u, names);
            res.Ok? ==>
              && Withdrawn(res.view.status) && !res.view.revocable
              && RecordedBy(After(s.table', r), c.id, r.requestId)
              && (res.created <==> c.id !in s.table'.byConsent)
    ensures EarlyAnswerIn(c, r, valid, s, u, names).None? ==> Timely(c, After(s.table', r))
  {
    ActiveIsUnexpired(c, s.log, u.now, names);
    var res := RevokeAnswer(c, r, valid, s, u, names);
    if EarlyAnswerIn(c, r, valid, s, u, names).None? && res.Ok? {
      if res.created {
        LoggedAfter(s.table', s.log', r, u.requestEvent, u.revokedEvent, u.receipt);
      } else {
        assert s.log' + [] == s.log';
      }
      LoggedIsWithdrawn(c, After(s.table', r), LogAfter(s.table', s.log', r, u), u.later, names);
    }
  }

  /**
   Which answer a request gets. Without an id it is refused; a consent that is
   withdrawn answers the request that revoked it and refuses any other; one that
   is not active for another reason is refused, and so is bad data. What is left
   is decided by what the store holds when the request writes: the id used for
   another consent, the revocation of another request, this very request, or none.
   */
  lemma AnswersExactlyWhen(c: Consent, r: Revocation, valid: bool, s: Scene, u: Turn, names: EntityNames)
    requires Consistent(s.table') && r.consentId == c.id
    ensures var res, status := RevokeAnswer(c, r, valid, s, u, names), View(c, s.log, u.now, names).status;
            var mine := c.id in s.table.byConsent && s.table.byConsent[c.id].requestId == r.requestId;
            var writes := r.requestId != "" && status == StatusActive && valid;
            var t := s.table';
            && (res == Refused(NoRequestId) <==> r.requestId == "")
            && (res == Refused(NotRevocable(AlreadyRevoked)) <==> r.requestId != "" && Withdrawn(status) && !mine)
            && (res == Refused(NotRevocable(ConsentNotActive)) <==>
                  r.requestId != "" && (status == StatusExpired || status == StatusRevocationPending))
            && (res == Refused(InvalidRequest) <==> r.requestId != "" && status == StatusActive && !valid)
            && (res == Refused(ReusedKey) <==> writes && r.requestId in t.byRequest && t.byRequest[r.requestId] != c.id)
            && (res == Refused(LostTheRace) <==> writes && r.requestId !in t.byRequest && c.id in t.byConsent)
            && (res.Ok? && res.created <==> writes && r.requestId !in t.byRequest && c.id !in t.byConsent)
            && (res.Ok? && !res.created <==>
                  || (r.requestId != "" && Withdrawn(status) && mine)
                  || (writes && r.requestId in t.byRequest && t.byRequest[r.requestId] == c.id))
  {
  }

  /** One request. `table'`, `log'` and `notices'` are what the others left between its read and its write. */
  method Revoke(store: RevocationStore, c: Consent, r: Revocation, valid: bool, u: Turn, names: EntityNames,
                table': Table, log': seq<ConsentEvent>, notices': map<string, map<string, Notice>>)
    returns (res: RevokeResult)
    requires store.Valid() && Consistent(table') && Logged(table', log') && notices'.Keys == table'.byConsent.Keys
    modifies store
    ensures var s := Scene(old(store.table), old(store.log), table', log');
            && res == RevokeAnswer(c, r, valid, s, u, names)
            && (if EarlyAnswerIn(c, r, valid, s, u, names).None?
                then store.table == After(table', r) && store.log == LogAfter(s.table', s.log', r, u)
                else store.table == table' && store.log == log')
    ensures store.Valid()
  {
    var view := BuildView(c, store.log, u.now, names);
    var same := RecordedBy(store.table, c.id, r.requestId);
    store.table, store.log, store.notices := table', log', notices';
    var early := EarlyAnswer(r, view, same, valid);
    if early.Some? {
      return early.value;
    }
    res := Write(store, c, r, u, names);
  }

  method Write(store: RevocationStore, c: Consent, r: Revocation, u: Turn, names: EntityNames) returns (res: RevokeResult)
    requires store.Valid()
    modifies store
    ensures store.Valid() && store.table == After(old(store.table), r) && store.log == LogAfter(old(store.table), old(store.log), r, u)
    ensures res == WriteAnswer(c, AnswerTo(old(store.table), r), store.log, u, names)
  {
    var a := store.Record(r, u.requestEvent, u.revokedEvent, u.receipt);
    match a
    case KeyReused => return Refused(ReusedKey);
    case Already => return Refused(LostTheRace);
    case _ =>
      var view := BuildView(c, store.log, u.later, names);
      return Ok(view, a.Created?);
  }
}
