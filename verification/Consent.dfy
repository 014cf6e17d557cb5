/**
 A consent and its revocation, derived from an append-only log of events in any
 order and the clock (services/audit/internal/domain/consent_view.go and
 revocation.go). The details of an event come decoded: the entities of a
 revoked event and the deadline of a retry.
 */
module Consents {
  import opened Common
  import opened Lists
  import Text

  datatype EventStatus =
    | Active | Expired | Revoked | RevocationPending | PartiallyRevoked
    | RevocationRequested | RevocationConfirmed | RevocationNotConfirmed | RevocationRetryRequested
    | Other(text: string)

  datatype EntityWindow = EntityWindow(code: string, deadlineAt: Option<Instant>)

  /** A change of a consent, or of one entity of it when `entityCode` is not empty. */
  datatype ConsentEvent = ConsentEvent(
    eventId: string,
    consentId: string,
    entityCode: string,
    status: EventStatus,
    occurredAt: Instant,
    recordedAt: Instant,
    receiptId: string,
    channel: string,
    device: string,
    entities: seq<EntityWindow>,
    retryDeadline: Option<Instant>)

  datatype Consent = Consent(
    id: string,
    partnerId: string,
    channel: string,
    scope: seq<string>,
    grantedAt: Instant,
    expiresAt: Instant)

  type EntityNames = map<string, string>

  datatype Entity = Entity(code: string, name: string)

  function EntityOf(names: EntityNames, code: string): Entity {
    if code in names && names[code] != "" then Entity(code, names[code]) else Entity(code, code)
  }

  /** The entity of the code, under its name when there is one, else under its code. */
  predicate Names(e: Entity, code: string, names: EntityNames) {
    && e.code == code
    && (code in names && names[code] != "" ==> e.name == names[code])
    && (code in names && names[code] == "" ==> e.name == code)
    && (code !in names ==> e.name == code)
  }

  datatype ConsentStatus = StatusActive | StatusExpired | StatusRevoked | StatusRevocationPending | StatusPartiallyRevoked

  /** The status an event names, when it names one. */
  function Known(s: EventStatus): Option<ConsentStatus> {
    match s
    case Active => Some(StatusActive)
    case Expired => Some(StatusExpired)
    case Revoked => Some(StatusRevoked)
    case RevocationPending => Some(StatusRevocationPending)
    case PartiallyRevoked => Some(StatusPartiallyRevoked)
    case _ => None
  }

  // ----- the order of the events

  /** By instant, then by the instant it was recorded, then by id. */
  predicate Before(a: ConsentEvent, b: ConsentEvent) {
    if a.occurredAt != b.occurredAt then a.occurredAt < b.occurredAt
    else if a.recordedAt != b.recordedAt then a.recordedAt < b.recordedAt
    else Text.Less(a.eventId, b.eventId)
  }

  function SortEvents(log: seq<ConsentEvent>): seq<ConsentEvent> {
    Sort(Before, log)
  }

  lemma NotBeforeIsTransitive(a: ConsentEvent, b: ConsentEvent, c: ConsentEvent)
    requires !Before(b, a) && !Before(c, b)
    ensures !Before(c, a)
  {
    Text.LessIsTotal(a.eventId, b.eventId);
    Text.LessIsTotal(b.eventId, c.eventId);
    Text.LessIsTotal(a.eventId, c.eventId);
    if Text.Less(a.eventId, b.eventId) && Text.Less(b.eventId, c.eventId) {
      Text.LessIsTransitive(a.eventId, b.eventId, c.eventId);
    }
  }

  lemma BeforeIsStrictWeak()
    ensures StrictWeak(Before)
  {
    forall a, b | Before(a, b)
      ensures !Before(b, a)
    {
      Text.LessIsTotal(a.eventId, b.eventId);
    }
    forall a, b, c | !Before(b, a) && !Before(c, b)
      ensures !Before(c, a)
    {
      NotBeforeIsTransitive(a, b, c);
    }
  }

  /** No two events of the log share an id. */
  predicate DistinctIds(log: seq<ConsentEvent>) {
    forall i, j :: 0 <= i < j < |log| ==> log[i].eventId != log[j].eventId
  }

  lemma SortEventsForgetsOrder(log: seq<ConsentEvent>, log': seq<ConsentEvent>)
    requires DistinctIds(log) && multiset(log) == multiset(log')
    ensures SortEvents(log) == SortEvents(log')
  {
    BeforeIsStrictWeak();
    forall x, y | x in log && y in log && x != y
      ensures Before(x, y) || Before(y, x)
    {
      Text.LessIsTotal(x.eventId, y.eventId);
    }
    SortForgetsOrder(Before, log, log');
  }

  // ----- the notice to one entity

  datatype NoticeStatus = NoticePending | NoticeConfirmed | NoticeNotConfirmed

  datatype EntityNotice = EntityNotice(entity: Entity, status: NoticeStatus, confirmedAt: Option<Instant>, deadlineAt: Option<Instant>)

  predicate Confirms(e: ConsentEvent, code: string) {
    e.entityCode == code && e.status.RevocationConfirmed?
  }

  predicate Denies(e: ConsentEvent, code: string) {
    e.entityCode == code && e.status.RevocationNotConfirmed?
  }

  /** A retry with a readable deadline. */
  predicate Reopens(e: ConsentEvent, code: string) {
    e.entityCode == code && e.status.RevocationRetryRequested? && e.retryDeadline.Some?
  }

  predicate ConfirmedIn(es: seq<ConsentEvent>, code: string) {
    exists i :: 0 <= i < |es| && Confirms(es[i], code)
  }

  predicate DeniedIn(es: seq<ConsentEvent>, code: string) {
    exists i :: 0 <= i < |es| && Denies(es[i], code)
  }

  /** The instant of the first confirmation. */
  function FirstConfirmation(es: seq<ConsentEvent>, code: string): Option<Instant> {
    if es == [] then None
    else
      var earlier := FirstConfirmation(es[..|es| - 1], code);
      var last := es[|es| - 1];
      if earlier.None? && Confirms(last, code) then Some(last.occurredAt) else earlier
  }

  /** The window of the last retry, or the first one. */
  function CurrentDeadline(w: EntityWindow, es: seq<ConsentEvent>): Option<Instant> {
    if es == [] then w.deadlineAt
    else if Reopens(es[|es| - 1], w.code) then es[|es| - 1].retryDeadline
    else CurrentDeadline(w, es[..|es| - 1])
  }

  predicate Over(deadline: Option<Instant>, now: Instant) {
    deadline.Some? && deadline.value <= now
  }

  /** The entity makes the revocation partial: no confirmation, and a denial or a window that ended. */
  predicate PartialFor(w: EntityWindow, es: seq<ConsentEvent>, now: Instant) {
    !ConfirmedIn(es, w.code) && (DeniedIn(es, w.code) || Over(CurrentDeadline(w, es), now))
  }

  /** The entity missed its first window: a denial, or no confirmation before it ended. */
  predicate MissedBy(w: EntityWindow, es: seq<ConsentEvent>, now: Instant) {
    || DeniedIn(es, w.code)
    || (w.deadlineAt.Some? &&
        var first := FirstConfirmation(es, w.code);
        w.deadlineAt.value <= if first.Some? then first.value else now)
  }

  /** What the loop over the events of an entity carries. */
  datatype Progress = Progress(status: NoticeStatus, confirmedAt: Option<Instant>, deadlineAt: Option<Instant>, unresolved: bool)

  function Follow(w: EntityWindow, es: seq<ConsentEvent>): Progress {
    if es == [] then Progress(NoticePending, None, w.deadlineAt, false)
    else
      var p, e := Follow(w, es[..|es| - 1]), es[|es| - 1];
      if e.entityCode != w.code || p.status.NoticeConfirmed? then p
      else match e.status
        case RevocationConfirmed => p.(status := NoticeConfirmed, confirmedAt := Some(e.occurredAt), unresolved := false)
        case RevocationNotConfirmed => p.(status := NoticeNotConfirmed, unresolved := true)
        case RevocationRetryRequested =>
          if e.retryDeadline.Some? then p.(status := NoticePending, deadlineAt := e.retryDeadline) else p
        case _ => p
  }

  /** The fold over the events of an entity is the declarative rule. */
  lemma {:induction false} NoticeRule(w: EntityWindow, es: seq<ConsentEvent>)
    ensures var p := Follow(w, es);
            && (p.status.NoticeConfirmed? <==> ConfirmedIn(es, w.code))
            && p.confirmedAt == FirstConfirmation(es, w.code)
            && (p.status.NoticeConfirmed? <==> p.confirmedAt.Some?)
            && (p.unresolved <==> DeniedIn(es, w.code) && !ConfirmedIn(es, w.code))
            && (p.status.NoticeNotConfirmed? ==> p.unresolved)
            && (!ConfirmedIn(es, w.code) ==> p.deadlineAt == CurrentDeadline(w, es))
  {
    if es != [] {
      var rest, last := es[..|es| - 1], es[|es| - 1];
      NoticeRule(w, rest);
      InAfterSnoc(rest, last, w.code);
      assert es == rest + [last];
    }
  }

  lemma InAfterSnoc(es: seq<ConsentEvent>, e: ConsentEvent, code: string)
    ensures ConfirmedIn(es + [e], code) <==> ConfirmedIn(es, code) || Confirms(e, code)
    ensures DeniedIn(es + [e], code) <==> DeniedIn(es, code) || Denies(e, code)
  {
    var es' := es + [e];
    assert forall i :: 0 <= i < |es| ==> es'[i] == es[i];
    assert es'[|es|] == e;
  }

  /** The notice shown at `now`. */
  function NoticeOf(w: EntityWindow, es: seq<ConsentEvent>, now: Instant, names: EntityNames): EntityNotice {
    var p := Follow(w, es);
    var status := if p.status.NoticePending? && Over(p.deadlineAt, now) then NoticeNotConfirmed else p.status;
    EntityNotice(EntityOf(names, w.code), status, p.confirmedAt, p.deadlineAt)
  }

  function NoticesOf(ws: seq<EntityWindow>, es: seq<ConsentEvent>, now: Instant, names: EntityNames): seq<EntityNotice> {
    seq(|ws|, i requires 0 <= i < |ws| => NoticeOf(ws[i], es, now, names))
  }

  predicate AnyPartial(ws: seq<EntityWindow>, es: seq<ConsentEvent>, now: Instant) {
    exists i :: 0 <= i < |ws| && PartialFor(ws[i], es, now)
  }

  predicate AnyMissed(ws: seq<EntityWindow>, es: seq<ConsentEvent>, now: Instant) {
    exists i :: 0 <= i < |ws| && MissedBy(ws[i], es, now)
  }

  method DeriveNotices(ws: seq<EntityWindow>, es: seq<ConsentEvent>, now: Instant, names: EntityNames)
    returns (notices: seq<EntityNotice>, partial: bool)
    ensures notices == NoticesOf(ws, es, now, names)
    ensures forall i :: 0 <= i < |ws| ==> Names(notices[i].entity, ws[i].code, names)
    ensures partial <==> AnyPartial(ws, es, now)
  {
    notices, partial := [], false;
    for i := 0 to |ws|
      invariant notices == NoticesOf(ws, es, now, names)[..i]
      invariant partial <==> AnyPartial(ws[..i], es, now)
    {
      var w := ws[i];
      var n := EntityNotice(EntityOf(names, w.code), NoticePending, None, w.deadlineAt);
      var unresolved := false;
      for j := 0 to |es|
        invariant Progress(n.status, n.confirmedAt, n.deadlineAt, unresolved) == Follow(w, es[..j])
        invariant n.entity == EntityOf(names, w.code)
      {
        var e := es[j];
        assert es[..j + 1][..j] == es[..j];
        if e.entityCode == w.code && !n.status.NoticeConfirmed? {
          match e.status {
            case RevocationConfirmed =>
              n := n.(status := NoticeConfirmed, confirmedAt := Some(e.occurredAt));
              unresolved := false;
            case RevocationNotConfirmed =>
              n := n.(status := NoticeNotConfirmed);
              unresolved := true;
            case RevocationRetryRequested =>
              if e.retryDeadline.Some? {
                n := n.(status := NoticePending, deadlineAt := e.retryDeadline);
              }
            case _ =>
          }
        }
      }
      assert es[..|es|] == es;
      if n.status.NoticePending? && n.deadlineAt.Some? && !(now < n.deadlineAt.value) {
        n := n.(status := NoticeNotConfirmed);
      }
      NoticeRule(w, es);
      assert (n.status.NoticeNotConfirmed? || unresolved) <==> PartialFor(w, es, now);
      PartialAfterSnoc(ws, i, es, now);
      if n.status.NoticeNotConfirmed? || unresolved {
        partial := true;
      }
      notices := notices + [n];
    }
    assert ws[..|ws|] == ws;
  }

  lemma PartialAfterSnoc(ws: seq<EntityWindow>, i: nat, es: seq<ConsentEvent>, now: Instant)
    requires i < |ws|
    ensures AnyPartial(ws[..i + 1], es, now) <==> AnyPartial(ws[..i], es, now) || PartialFor(ws[i], es, now)
  {
  }

  method OutOfDeadline(ws: seq<EntityWindow>, es: seq<ConsentEvent>, now: Instant) returns (late: bool)
    ensures late <==> AnyMissed(ws, es, now)
  {
    for i := 0 to |ws|
      invariant forall k :: 0 <= k < i ==> !MissedBy(ws[k], es, now)
    {
      var w := ws[i];
      var confirmedAt: Option<Instant> := None;
      var notConfirmed := false;
      for j := 0 to |es|
        invariant confirmedAt == FirstConfirmation(es[..j], w.code)
        invariant notConfirmed <==> DeniedIn(es[..j], w.code)
      {
        assert es[..j + 1][..j] == es[..j] && es[..j + 1] == es[..j] + [es[j]];
        InAfterSnoc(es[..j], es[j], w.code);
        if es[j].entityCode == w.code {
          match es[j].status {
            case RevocationConfirmed =>
              if confirmedAt.None? {
                confirmedAt := Some(es[j].occurredAt);
              }
            case RevocationNotConfirmed => notConfirmed := true;
            case _ =>
          }
        }
      }
      assert es[..|es|] == es;
      if notConfirmed {
        return true;
      }
      if w.deadlineAt.Some? {
        var at := if confirmedAt.Some? then confirmedAt.value else now;
        if !(at < w.deadlineAt.value) {
          return true;
        }
      }
    }
    return false;
  }

  // ----- the revocation and the status

  datatype NoticeSummary = InProgress | Completed | Partial

  predicate AllConfirmed(notices: seq<EntityNotice>) {
    forall i :: 0 <= i < |notices| ==> notices[i].status.NoticeConfirmed?
  }

  function Summarize(notices: seq<EntityNotice>, partial: bool): NoticeSummary {
    if partial then Partial else if AllConfirmed(notices) then Completed else InProgress
  }

  /** What the summary says: partial, completed when every entity confirmed, in progress otherwise. */
  lemma SummaryRule(ws: seq<EntityWindow>, es: seq<ConsentEvent>, now: Instant, names: EntityNames)
    ensures var r := Summarize(NoticesOf(ws, es, now, names), AnyPartial(ws, es, now));
            && (r == Partial <==> exists i :: 0 <= i < |ws| && PartialFor(ws[i], es, now))
            && (r == Completed <==> forall i :: 0 <= i < |ws| ==> ConfirmedIn(es, ws[i].code))
            && (r == InProgress <==>
                  && (forall i :: 0 <= i < |ws| ==> !PartialFor(ws[i], es, now))
                  && exists i :: 0 <= i < |ws| && !ConfirmedIn(es, ws[i].code))
  {
    var notices := NoticesOf(ws, es, now, names);
    forall i | 0 <= i < |ws|
      ensures notices[i].status.NoticeConfirmed? <==> ConfirmedIn(es, ws[i].code)
    {
      NoticeRule(ws[i], es);
    }
  }

  datatype RevocationView = RevocationView(
    receiptNumber: string,
    status: ConsentStatus,
    requestedAt: Instant,
    effectiveAt: Instant,
    channel: string,
    device: string,
    summary: NoticeSummary,
    entities: seq<EntityNotice>,
    outOfDeadline: bool)

  /** The events of the whole consent. */
  function Own(c: Consent, es: seq<ConsentEvent>): seq<ConsentEvent> {
    Filter(IsOwn(c), es)
  }

  function IsOwn(c: Consent): ConsentEvent -> bool {
    (e: ConsentEvent) => e.consentId == c.id && e.entityCode == ""
  }

  /** The events of its entities since the revocation took effect. */
  function OfEntities(c: Consent, since: Instant, es: seq<ConsentEvent>): seq<ConsentEvent> {
    Filter(IsOfEntities(c, since), es)
  }

  function IsOfEntities(c: Consent, since: Instant): ConsentEvent -> bool {
    (e: ConsentEvent) => e.consentId == c.id && e.entityCode != "" && since <= e.occurredAt
  }

  /** An event of the whole consent that ends it. */
  predicate Ends(c: Consent, e: ConsentEvent) {
    e.status.Revoked? && e.occurredAt < c.expiresAt
  }

  function FirstRevocation(c: Consent, own: seq<ConsentEvent>): Option<ConsentEvent> {
    if own == [] then None
    else if Ends(c, own[0]) then Some(own[0])
    else FirstRevocation(c, own[1..])
  }

  /** The last request of the revocation that does not come after it. */
  function RequestedAt(revoked: ConsentEvent, own: seq<ConsentEvent>): Instant {
    if own == [] then revoked.occurredAt
    else
      var last := own[|own| - 1];
      if last.status.RevocationRequested? && last.occurredAt <= revoked.occurredAt then last.occurredAt
      else RequestedAt(revoked, own[..|own| - 1])
  }

  function RevocationOf(c: Consent, revoked: ConsentEvent, sorted: seq<ConsentEvent>, now: Instant, names: EntityNames): RevocationView {
    var es := OfEntities(c, revoked.occurredAt, sorted);
    var notices, partial := NoticesOf(revoked.entities, es, now, names), AnyPartial(revoked.entities, es, now);
    RevocationView(revoked.receiptId, if partial then StatusPartiallyRevoked else StatusRevoked,
                   RequestedAt(revoked, Own(c, sorted)), revoked.occurredAt, revoked.channel, revoked.device,
                   Summarize(notices, partial), notices, AnyMissed(revoked.entities, es, now))
  }

  datatype Derived = Derived(status: ConsentStatus, endedAt: Option<Instant>, receiptId: string, revocation: Option<RevocationView>)

  /** The status of a consent that nothing revoked: the last event of the whole consent may name it. */
  function UnrevokedStatus(c: Consent, own: seq<ConsentEvent>, now: Instant): Derived {
    if c.expiresAt <= now then Derived(StatusExpired, Some(c.expiresAt), "", None)
    else
      var named := if own == [] then None else Known(own[|own| - 1].status);
      if named == Some(StatusRevocationPending) then Derived(StatusRevocationPending, None, "", None)
      else Derived(StatusActive, None, "", None)
  }

  function Derive(c: Consent, log: seq<ConsentEvent>, now: Instant, names: EntityNames): Derived {
    var sorted := SortEvents(log);
    match FirstRevocation(c, Own(c, sorted))
    case Some(e) =>
      var rev := RevocationOf(c, e, sorted, now, names);
      Derived(rev.status, Some(e.occurredAt), e.receiptId, Some(rev))
    case None => UnrevokedStatus(c, Own(c, sorted), now)
  }

  method DeriveRevocation(c: Consent, revoked: ConsentEvent, own: seq<ConsentEvent>, sorted: seq<ConsentEvent>, now: Instant, names: EntityNames)
    returns (rev: RevocationView)
    requires own == Own(c, sorted)
    ensures rev == RevocationOf(c, revoked, sorted, now, names)
    ensures var ws, es := revoked.entities, OfEntities(c, revoked.occurredAt, sorted);
            && (rev.summary == Partial <==> exists i :: 0 <= i < |ws| && PartialFor(ws[i], es, now))
            && (rev.summary == Completed <==> forall i :: 0 <= i < |ws| ==> ConfirmedIn(es, ws[i].code))
            && (rev.status == StatusPartiallyRevoked <==> rev.summary == Partial)
  {
    var requestedAt := revoked.occurredAt;
    for i := 0 to |own|
      invariant requestedAt == RequestedAt(revoked, own[..i])
    {
      assert own[..i + 1][..i] == own[..i];
      if own[i].status.RevocationRequested? && !(revoked.occurredAt < own[i].occurredAt) {
        requestedAt := own[i].occurredAt;
      }
    }
    assert own[..|own|] == own;
    var es: seq<ConsentEvent> := [];
    for i := 0 to |sorted|
      invariant es == OfEntities(c, revoked.occurredAt, sorted[..i])
    {
      FilterSnoc(IsOfEntities(c, revoked.occurredAt), sorted, i);
      if sorted[i].consentId == c.id && sorted[i].entityCode != "" && !(sorted[i].occurredAt < revoked.occurredAt) {
        es := es + [sorted[i]];
      }
    }
    assert sorted[..|sorted|] == sorted;
    var notices, partial := DeriveNotices(revoked.entities, es, now, names);
    var late := OutOfDeadline(revoked.entities, es, now);
    SummaryRule(revoked.entities, es, now, names);
    rev := RevocationView(revoked.receiptId, if partial then StatusPartiallyRevoked else StatusRevoked,
                          requestedAt, revoked.occurredAt, revoked.channel, revoked.device,
                          Summarize(notices, partial), notices, late);
  }

  method DeriveStatus(c: Consent, log: seq<ConsentEvent>, now: Instant, names: EntityNames) returns (d: Derived)
    ensures d == Derive(c, log, now, names)
  {
    var sorted := SortEvents(log);
    var own: seq<ConsentEvent> := [];
    for i := 0 to |sorted|
      invariant own == Own(c, sorted[..i])
    {
      FilterSnoc(IsOwn(c), sorted, i);
      if sorted[i].consentId == c.id && sorted[i].entityCode == "" {
        own := own + [sorted[i]];
      }
    }
    assert sorted[..|sorted|] == sorted;
    for i := 0 to |own|
      invariant FirstRevocation(c, own) == FirstRevocation(c, own[i..])
    {
      if own[i].status.Revoked? && own[i].occurredAt < c.expiresAt {
        var rev := DeriveRevocation(c, own[i], own, sorted, now, names);
        return Derived(rev.status, Some(own[i].occurredAt), own[i].receiptId, Some(rev));
      }
      assert own[i..][1..] == own[i + 1..];
    }
    if !(now < c.expiresAt) {
      return Derived(StatusExpired, Some(c.expiresAt), "", None);
    }
    if own != [] {
      var last := Known(own[|own| - 1].status);
      if last.Some? && last.value != StatusRevoked && last.value != StatusExpired && last.value != StatusPartiallyRevoked {
        return Derived(last.value, None, "", None);
      }
    }
    return Derived(StatusActive, None, "", None);
  }

  // ----- what the holder sees

  datatype HistoryStatus = HistoryGranted | HistoryOf(status: EventStatus)

  datatype HistoryEntry = HistoryEntry(status: HistoryStatus, occurredAt: Instant, receiptId: string, channel: string, entityCode: string)

  datatype ConsentView = ConsentView(
    consent: Consent,
    status: ConsentStatus,
    current: bool,
    entities: seq<Entity>,
    endedAt: Option<Instant>,
    revocationReceiptId: string,
    revocable: bool,
    revocation: Option<RevocationView>,
    history: seq<HistoryEntry>)

  predicate Earlier(a: HistoryEntry, b: HistoryEntry) {
    a.occurredAt < b.occurredAt
  }

  function EntryOf(e: ConsentEvent): HistoryEntry {
    HistoryEntry(HistoryOf(e.status), e.occurredAt, e.receiptId, e.channel, e.entityCode)
  }

  function GrantEntry(c: Consent): HistoryEntry {
    HistoryEntry(HistoryGranted, c.grantedAt, "", c.channel, "")
  }

  function ExpiryEntry(c: Consent): HistoryEntry {
    HistoryEntry(HistoryOf(Expired), c.expiresAt, "", "", "")
  }

  function IsOf(c: Consent): ConsentEvent -> bool {
    (e: ConsentEvent) => e.consentId == c.id
  }

  function Entries(es: seq<ConsentEvent>): seq<HistoryEntry> {
    seq(|es|, i requires 0 <= i < |es| => EntryOf(es[i]))
  }

  function Recounted(c: Consent, log: seq<ConsentEvent>): seq<HistoryEntry> {
    [GrantEntry(c)] + Entries(Filter(IsOf(c), SortEvents(log)))
  }

  function History(c: Consent, log: seq<ConsentEvent>, now: Instant): seq<HistoryEntry> {
    if c.expiresAt <= now then Sort(Earlier, Recounted(c, log) + [ExpiryEntry(c)]) else Recounted(c, log)
  }

  function View(c: Consent, log: seq<ConsentEvent>, now: Instant, names: EntityNames): ConsentView {
    var d := Derive(c, log, now, names);
    ConsentView(c, d.status, d.status.StatusActive?, [EntityOf(names, c.partnerId)], d.endedAt, d.receiptId,
                d.status.StatusActive?, d.revocation, History(c, log, now))
  }

  method BuildView(c: Consent, log: seq<ConsentEvent>, now: Instant, names: EntityNames) returns (v: ConsentView)
    ensures v == View(c, log, now, names)
    ensures v.consent == c && |v.entities| == 1 && Names(v.entities[0], c.partnerId, names)
    ensures v.current == v.revocable == (v.status == StatusActive)
  {
    var d := DeriveStatus(c, log, now, names);
    var history := BuildHistory(c, log, now);
    v := ConsentView(c, d.status, d.status.StatusActive?, [EntityOf(names, c.partnerId)], d.endedAt, d.receiptId,
                     d.status.StatusActive?, d.revocation, history);
  }

  method BuildHistory(c: Consent, log: seq<ConsentEvent>, now: Instant) returns (history: seq<HistoryEntry>)
    ensures history == History(c, log, now)
  {
    history := [GrantEntry(c)];
    var sorted := SortEvents(log);
    for i := 0 to |sorted|
      invariant history == [GrantEntry(c)] + Entries(Filter(IsOf(c), sorted[..i]))
    {
      FilterSnoc(IsOf(c), sorted, i);
      if sorted[i].consentId == c.id {
        history := history + [EntryOf(sorted[i])];
      }
    }
    assert sorted[..|sorted|] == sorted;
    if !(now < c.expiresAt) {
      history := Sort(Earlier, history + [ExpiryEntry(c)]);
    }
  }

  datatype RevocableError = ConsentNotActive | AlreadyRevoked

  /** Why a consent with this status cannot be revoked, if so. */
  function CheckRevocable(status: ConsentStatus): Option<RevocableError> {
    match status
    case StatusActive => None
    case StatusRevoked => Some(AlreadyRevoked)
    case StatusPartiallyRevoked => Some(AlreadyRevoked)
    case _ => Some(ConsentNotActive)
  }
}
