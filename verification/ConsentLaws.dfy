/** What holds of every consent, whatever its log: order, irreversibility, and how the view moves with time and with the log. */
module ConsentLaws {
  import opened Common
  import opened Lists
  import opened Consents
  import Text

  // ----- the order of the log does not matter

  /** With distinct event ids, every permutation of the log gives the same view. */
  lemma ViewForgetsOrder(c: Consent, log: seq<ConsentEvent>, log': seq<ConsentEvent>, now: Instant, names: EntityNames)
    requires DistinctIds(log) && multiset(log) == multiset(log')
    ensures View(c, log, now, names) == View(c, log', now, names)
  {
    SortEventsForgetsOrder(log, log');
  }

  /** The log is read by instant, then by the instant it was recorded, then by id. */
  lemma ReadInOrder(log: seq<ConsentEvent>, i: nat, j: nat)
    requires i < j < |SortEvents(log)|
    ensures var a, b := SortEvents(log)[i], SortEvents(log)[j];
            || a.occurredAt < b.occurredAt
            || (a.occurredAt == b.occurredAt && a.recordedAt < b.recordedAt)
            || (a.occurredAt == b.occurredAt && a.recordedAt == b.recordedAt && !Text.Less(b.eventId, a.eventId))
  {
    BeforeIsStrictWeak();
    SortIsSorted(Before, log);
  }

  // ----- the history

  lemma EarlierIsStrictWeak()
    ensures StrictWeak(Earlier)
  {
  }

  /** The events of the consent that are shown as the entry: its status, instant, receipt, channel and entity. */
  function ShownAs(c: Consent, h: HistoryEntry): ConsentEvent -> bool {
    (e: ConsentEvent) =>
      && e.consentId == c.id
      && h.status == HistoryOf(e.status) && h.occurredAt == e.occurredAt && h.receiptId == e.receiptId
      && h.channel == e.channel && h.entityCode == e.entityCode
  }

  lemma {:induction false} EntriesCount(c: Consent, es: seq<ConsentEvent>, h: HistoryEntry)
    ensures multiset(Entries(Filter(IsOf(c), es)))[h] == |Filter(ShownAs(c, h), es)|
  {
    if es != [] {
      var rest, e := es[..|es| - 1], es[|es| - 1];
      EntriesCount(c, rest, h);
      var shown := Filter(IsOf(c), rest);
      assert Entries(shown + [e]) == Entries(shown) + [EntryOf(e)];
      assert e.consentId != c.id ==> Filter(IsOf(c), es) == shown;
    }
  }

  /** Every entry is in the history as often as the log, the grant and the expiry call for. */
  lemma HistoryLosesNothing(c: Consent, log: seq<ConsentEvent>, now: Instant, h: HistoryEntry)
    ensures multiset(History(c, log, now))[h] ==
              |Filter(ShownAs(c, h), log)| +
              (if h == HistoryEntry(HistoryGranted, c.grantedAt, "", c.channel, "") then 1 else 0) +
              (if c.expiresAt <= now && h == HistoryEntry(HistoryOf(Expired), c.expiresAt, "", "", "") then 1 else 0)
  {
    var sorted := SortEvents(log);
    SortIsPermutation(Before, log);
    FilterLengthPermutes(ShownAs(c, h), sorted, log);
    EntriesCount(c, sorted, h);
    SortIsPermutation(Earlier, Recounted(c, log) + [ExpiryEntry(c)]);
  }

  /** An event of the log, filtered after sorting. */
  lemma FilteredMember(keep: ConsentEvent -> bool, log: seq<ConsentEvent>, e: ConsentEvent)
    ensures e in Filter(keep, SortEvents(log)) <==> e in log && keep(e)
  {
    SortMembers(Before, log);
    FilterMember(keep, SortEvents(log), e);
  }

  lemma FilteredIsSorted(keep: ConsentEvent -> bool, log: seq<ConsentEvent>)
    ensures SortedBy(Before, Filter(keep, SortEvents(log)))
  {
    BeforeIsStrictWeak();
    SortIsSorted(Before, log);
    FilterKeepsOrder(Before, keep, SortEvents(log));
  }

  /** The history reads in time order exactly when the consent expired or no event precedes its grant. */
  lemma HistoryInOrderExactlyWhen(c: Consent, log: seq<ConsentEvent>, now: Instant)
    ensures SortedBy(Earlier, History(c, log, now))
       <==> c.expiresAt <= now || forall e :: e in log && e.consentId == c.id ==> c.grantedAt <= e.occurredAt
  {
    if c.expiresAt <= now {
      EarlierIsStrictWeak();
      SortIsSorted(Earlier, Recounted(c, log) + [ExpiryEntry(c)]);
    } else {
      var es := Filter(IsOf(c), SortEvents(log));
      FilteredIsSorted(IsOf(c), log);
      forall e
        ensures e in es <==> e in log && e.consentId == c.id
      {
        FilteredMember(IsOf(c), log, e);
      }
      RecountedInOrder(c, es);
    }
  }

  lemma RecountedInOrder(c: Consent, es: seq<ConsentEvent>)
    requires SortedBy(Before, es)
    ensures SortedBy(Earlier, [GrantEntry(c)] + Entries(es)) <==> forall e :: e in es ==> c.grantedAt <= e.occurredAt
  {
    var h := [GrantEntry(c)] + Entries(es);
    assert forall i :: 0 < i < |h| ==> h[i] == EntryOf(es[i - 1]);
    if SortedBy(Earlier, h) {
      forall e | e in es
        ensures c.grantedAt <= e.occurredAt
      {
        var i :| 0 <= i < |es| && es[i] == e;
        assert !Earlier(h[i + 1], h[0]);
      }
    }
    if forall e :: e in es ==> c.grantedAt <= e.occurredAt {
      forall i, j | 0 <= i < j < |h|
        ensures !Earlier(h[j], h[i])
      {
        assert es[j - 1] in es;
        assert i > 0 ==> !Before(es[j - 1], es[i - 1]);
      }
    }
  }

  /** The expiry follows everything that happened in its instant. */
  lemma ExpiryGoesLast(c: Consent, log: seq<ConsentEvent>, now: Instant)
    requires c.expiresAt <= now
    ensures var same := Like(Earlier, ExpiryEntry(c));
            Filter(same, History(c, log, now)) == Filter(same, Recounted(c, log)) + [ExpiryEntry(c)]
  {
    var same, expiry := Like(Earlier, ExpiryEntry(c)), ExpiryEntry(c);
    EarlierIsStrictWeak();
    SortIsStable(Earlier, Recounted(c, log) + [expiry], expiry);
    FilterConcat(same, Recounted(c, log), [expiry]);
    FilterOne(same, expiry);
  }

  // ----- a revocation is final

  lemma {:induction false} FirstRevocationIsFirst(c: Consent, own: seq<ConsentEvent>)
    ensures FirstRevocation(c, own).Some? <==> exists i :: 0 <= i < |own| && Ends(c, own[i])
    ensures FirstRevocation(c, own).Some? ==>
              var r := FirstRevocation(c, own).value;
              exists i :: 0 <= i < |own| && own[i] == r && Ends(c, r) && forall k :: 0 <= k < i ==> !Ends(c, own[k])
  {
    if own != [] && !Ends(c, own[0]) {
      FirstRevocationIsFirst(c, own[1..]);
      var rest := own[1..];
      if FirstRevocation(c, rest).Some? {
        var i :| 0 <= i < |rest| && rest[i] == FirstRevocation(c, rest).value && Ends(c, rest[i]) &&
                 forall k :: 0 <= k < i ==> !Ends(c, rest[k]);
        assert own[i + 1] == rest[i];
        assert forall k :: 0 < k < i + 1 ==> own[k] == rest[k - 1];
      }
      assert forall i :: 0 < i < |own| ==> own[i] == rest[i - 1];
    }
  }

  /** Whole-consent events that end the consent, wherever they are in the log. */
  predicate Revokes(c: Consent, e: ConsentEvent) {
    e.consentId == c.id && e.entityCode == "" && Ends(c, e)
  }

  predicate Withdrawn(s: ConsentStatus) {
    s.StatusRevoked? || s.StatusPartiallyRevoked?
  }

  function FirstIn(c: Consent, log: seq<ConsentEvent>): Option<ConsentEvent> {
    FirstRevocation(c, Own(c, SortEvents(log)))
  }

  lemma FirstIsInLog(c: Consent, log: seq<ConsentEvent>)
    ensures FirstIn(c, log).Some? ==> FirstIn(c, log).value in log && Revokes(c, FirstIn(c, log).value)
  {
    FirstRevocationIsFirst(c, Own(c, SortEvents(log)));
    if FirstIn(c, log).Some? {
      FilteredMember(IsOwn(c), log, FirstIn(c, log).value);
    }
  }

  lemma FirstIsEarliest(c: Consent, log: seq<ConsentEvent>, e: ConsentEvent)
    requires e in log && Revokes(c, e)
    ensures FirstIn(c, log).Some? && FirstIn(c, log).value.occurredAt <= e.occurredAt
  {
    var own := Own(c, SortEvents(log));
    FirstRevocationIsFirst(c, own);
    FilteredIsSorted(IsOwn(c), log);
    FilteredMember(IsOwn(c), log, e);
    var j :| 0 <= j < |own| && own[j] == e;
    var i :| 0 <= i < |own| && Some(own[i]) == FirstIn(c, log) && forall k :: 0 <= k < i ==> !Ends(c, own[k]);
    assert i < j ==> !Before(own[j], own[i]);
  }

  /** The consent ended at its earliest revocation, and only a revocation withdraws it. */
  lemma RevokedExactlyWhen(c: Consent, log: seq<ConsentEvent>, now: Instant, names: EntityNames)
    ensures var d := Derive(c, log, now, names);
            && (d.revocation.Some? <==> exists e :: e in log && Revokes(c, e))
            && (d.revocation.Some? <==> Withdrawn(d.status))
            && (forall e :: e in log && Revokes(c, e) ==> d.endedAt.Some? && d.endedAt.value <= e.occurredAt)
  {
    FirstIsInLog(c, log);
    forall e | e in log && Revokes(c, e)
      ensures FirstIn(c, log).Some? && FirstIn(c, log).value.occurredAt <= e.occurredAt
    {
      FirstIsEarliest(c, log, e);
    }
  }

  /** Events of the whole consent: the last one is the one that nothing follows. */
  predicate LastOwn(c: Consent, log: seq<ConsentEvent>, e: ConsentEvent) {
    e in log && IsOwn(c)(e) && forall x :: x in log && IsOwn(c)(x) ==> !Before(e, x)
  }

  lemma LastOwnIsLast(c: Consent, log: seq<ConsentEvent>)
    ensures var own := Own(c, SortEvents(log));
            own != [] ==> LastOwn(c, log, own[|own| - 1])
    ensures Own(c, SortEvents(log)) == [] <==> forall e :: e in log ==> !IsOwn(c)(e)
  {
    var own := Own(c, SortEvents(log));
    forall e
      ensures e in own <==> e in log && IsOwn(c)(e)
    {
      FilteredMember(IsOwn(c), log, e);
    }
    FilteredIsSorted(IsOwn(c), log);
    if own != [] {
      var last := own[|own| - 1];
      forall x | x in own
        ensures !Before(last, x)
      {
        var i :| 0 <= i < |own| && own[i] == x;
        BeforeIsStrictWeak();
        assert i < |own| - 1 ==> !Before(own[|own| - 1], own[i]);
      }
    }
  }

  /**
   A consent that nothing revoked is expired from its expiry on. Before it, it is
   pending revocation exactly when the last event of the whole consent says so,
   and active otherwise.
   */
  lemma UnrevokedExactlyWhen(c: Consent, log: seq<ConsentEvent>, now: Instant, names: EntityNames)
    requires DistinctIds(log) && forall e :: e in log ==> !Revokes(c, e)
    ensures var d := Derive(c, log, now, names);
            && (d.status == StatusExpired <==> c.expiresAt <= now)
            && (d.status == StatusRevocationPending <==>
                  now < c.expiresAt && exists e :: LastOwn(c, log, e) && e.status == RevocationPending)
            && (d.status == StatusActive <==>
                  now < c.expiresAt && forall e :: LastOwn(c, log, e) ==> e.status != RevocationPending)
            && d.endedAt == (if c.expiresAt <= now then Some(c.expiresAt) else None)
  {
    RevokedExactlyWhen(c, log, now, names);
    LastOwnIsLast(c, log);
    var own := Own(c, SortEvents(log));
    if own != [] {
      forall e | LastOwn(c, log, e)
        ensures e == own[|own| - 1]
      {
        Text.LessIsTotal(e.eventId, own[|own| - 1].eventId);
      }
    }
  }

  /** Once revoked before its expiry, every larger log at every instant shows the consent revoked. */
  lemma RevocationIsIrreversible(c: Consent, log: seq<ConsentEvent>, e: ConsentEvent, log': seq<ConsentEvent>, now: Instant, names: EntityNames)
    requires e in log && Revokes(c, e) && (forall x :: x in log ==> x in log')
    ensures Withdrawn(View(c, log', now, names).status)
    ensures !View(c, log', now, names).current && !View(c, log', now, names).revocable
  {
    RevokedExactlyWhen(c, log', now, names);
  }

  // ----- time

  /** What one notice may become as time passes over the same log. */
  predicate NoticeAges(a: EntityNotice, b: EntityNotice) {
    || a == b
    || (a.status.NoticePending? && b == a.(status := NoticeNotConfirmed))
  }

  predicate StatusAges(a: ConsentStatus, b: ConsentStatus) {
    a == b || (a.StatusRevoked? && b.StatusPartiallyRevoked?) || (!Withdrawn(a) && b.StatusExpired?)
  }

  lemma PartialAges(w: EntityWindow, es: seq<ConsentEvent>, now: Instant, later: Instant, names: EntityNames)
    requires now <= later
    ensures PartialFor(w, es, now) ==> PartialFor(w, es, later)
    ensures MissedBy(w, es, now) ==> MissedBy(w, es, later)
    ensures NoticeAges(NoticeOf(w, es, now, names), NoticeOf(w, es, later, names))
  {
  }

  /** With the log fixed, time only turns active into expired, revoked into partially revoked and pending into not confirmed. */
  lemma OnlyTimePasses(c: Consent, log: seq<ConsentEvent>, now: Instant, later: Instant, names: EntityNames)
    requires now <= later
    ensures var d, d' := Derive(c, log, now, names), Derive(c, log, later, names);
            && StatusAges(d.status, d'.status)
            && (d.revocation.Some? <==> d'.revocation.Some?)
            && (d.revocation.Some? ==>
                  var r, r' := d.revocation.value, d'.revocation.value;
                  && |r.entities| == |r'.entities|
                  && (forall i :: 0 <= i < |r.entities| ==> NoticeAges(r.entities[i], r'.entities[i]))
                  && (r.outOfDeadline ==> r'.outOfDeadline)
                  && r' == r.(status := r'.status, summary := r'.summary, entities := r'.entities, outOfDeadline := r'.outOfDeadline))
  {
    var sorted := SortEvents(log);
    var first := FirstRevocation(c, Own(c, sorted));
    if first.Some? {
      var ws, es := first.value.entities, OfEntities(c, first.value.occurredAt, sorted);
      forall i | 0 <= i < |ws|
        ensures PartialFor(ws[i], es, now) ==> PartialFor(ws[i], es, later)
        ensures MissedBy(ws[i], es, now) ==> MissedBy(ws[i], es, later)
        ensures NoticeAges(NoticeOf(ws[i], es, now, names), NoticeOf(ws[i], es, later, names))
      {
        PartialAges(ws[i], es, now, later, names);
      }
    }
  }

  // ----- completion

  /** The events that decide the notices of a revocation that took effect at `since`. */
  function Heard(c: Consent, since: Instant, log: seq<ConsentEvent>): seq<ConsentEvent> {
    OfEntities(c, since, SortEvents(log))
  }

  lemma HeardMember(c: Consent, since: Instant, log: seq<ConsentEvent>, e: ConsentEvent)
    ensures e in Heard(c, since, log) <==> e in log && e.consentId == c.id && e.entityCode != "" && since <= e.occurredAt
  {
    FilteredMember(IsOfEntities(c, since), log, e);
  }

  /** A larger log confirms and denies what the smaller one did. */
  lemma HeardGrows(c: Consent, since: Instant, log: seq<ConsentEvent>, log': seq<ConsentEvent>, code: string)
    requires forall x :: x in log ==> x in log'
    ensures ConfirmedIn(Heard(c, since, log), code) ==> ConfirmedIn(Heard(c, since, log'), code)
    ensures DeniedIn(Heard(c, since, log), code) ==> DeniedIn(Heard(c, since, log'), code)
  {
    var es, es' := Heard(c, since, log), Heard(c, since, log');
    forall i | 0 <= i < |es|
      ensures exists j :: 0 <= j < |es'| && es'[j] == es[i]
    {
      HeardMember(c, since, log, es[i]);
      HeardMember(c, since, log', es[i]);
    }
  }

  /** What is denied stays denied, and appended events that deny nothing add no denial. */
  lemma DenialsGrow(c: Consent, since: Instant, log: seq<ConsentEvent>, more: seq<ConsentEvent>, code: string)
    ensures DeniedIn(Heard(c, since, log), code) ==> DeniedIn(Heard(c, since, log + more), code)
    ensures (forall e :: e in more ==> !Denies(e, code)) && DeniedIn(Heard(c, since, log + more), code) ==> DeniedIn(Heard(c, since, log), code)
  {
    HeardGrows(c, since, log, log + more, code);
    var es, es' := Heard(c, since, log), Heard(c, since, log + more);
    if (forall e :: e in more ==> !Denies(e, code)) && DeniedIn(es', code) {
      var i :| 0 <= i < |es'| && Denies(es'[i], code);
      HeardMember(c, since, log + more, es'[i]);
      HeardMember(c, since, log, es'[i]);
      var j :| 0 <= j < |es| && es[j] == es'[i];
    }
  }

  /** An entity of the revocation without a confirmation, and with a denial or an ended current window. */
  predicate SomePartial(ws: seq<EntityWindow>, es: seq<ConsentEvent>, now: Instant) {
    exists i :: 0 <= i < |ws| && !ConfirmedIn(es, ws[i].code) && (DeniedIn(es, ws[i].code) || Over(CurrentDeadline(ws[i], es), now))
  }

  /**
   What is shown of any log at any instant. The summary is partial exactly when
   some entity has no confirmation and a denial or an ended current window, which
   is when the status is partially revoked; completed exactly when every entity
   confirmed; and in progress otherwise.
   */
  lemma SummaryExactlyWhen(c: Consent, log: seq<ConsentEvent>, now: Instant, names: EntityNames)
    requires FirstIn(c, log).Some?
    ensures var v, first := View(c, log, now, names), FirstIn(c, log).value;
            var ws, es := first.entities, Heard(c, first.occurredAt, log);
            && v.revocation.Some?
            && (v.revocation.value.summary == Partial <==> SomePartial(ws, es, now))
            && (v.status == StatusPartiallyRevoked <==> SomePartial(ws, es, now))
            && (v.revocation.value.summary == Completed <==> forall i :: 0 <= i < |ws| ==> ConfirmedIn(es, ws[i].code))
            && (v.revocation.value.summary == InProgress <==>
                  !SomePartial(ws, es, now) && exists i :: 0 <= i < |ws| && !ConfirmedIn(es, ws[i].code))
  {
    var first := FirstIn(c, log).value;
    SummaryRule(first.entities, Heard(c, first.occurredAt, log), now, names);
  }

  /** While one revocation ended the consent, completed stays completed under any further events, at any instant. */
  lemma CompletedIsAbsorbing(c: Consent, log: seq<ConsentEvent>, log': seq<ConsentEvent>, now: Instant, now': Instant, names: EntityNames)
    requires forall x :: x in log ==> x in log'
    requires forall x, y :: x in log' && y in log' && Revokes(c, x) && Revokes(c, y) ==> x == y
    requires var d := Derive(c, log, now, names); d.revocation.Some? && d.revocation.value.summary.Completed?
    ensures var d' := Derive(c, log', now', names);
            d'.status.StatusRevoked? && d'.revocation.Some? && d'.revocation.value.summary.Completed?
  {
    RevokedExactlyWhen(c, log', now', names);
    RevokedExactlyWhen(c, log, now, names);
    FirstIsInLog(c, log);
    FirstIsInLog(c, log');
    var r := FirstIn(c, log).value;
    assert FirstIn(c, log') == Some(r);
    var ws, es, es' := r.entities, Heard(c, r.occurredAt, log), Heard(c, r.occurredAt, log');
    SummaryRule(ws, es, now, names);
    forall i | 0 <= i < |ws|
      ensures ConfirmedIn(es', ws[i].code)
    {
      HeardGrows(c, r.occurredAt, log, log', ws[i].code);
    }
    SummaryRule(ws, es', now', names);
  }

  // ----- the deadline

  lemma {:induction false} FirstConfirmationIsEarliest(es: seq<ConsentEvent>, code: string)
    requires SortedBy(Before, es)
    ensures FirstConfirmation(es, code).Some? <==> ConfirmedIn(es, code)
    ensures FirstConfirmation(es, code).Some? ==>
              && (forall i :: 0 <= i < |es| && Confirms(es[i], code) ==> FirstConfirmation(es, code).value <= es[i].occurredAt)
              && (exists i :: 0 <= i < |es| && Confirms(es[i], code) && FirstConfirmation(es, code).value == es[i].occurredAt)
  {
    if es != [] {
      var rest, n := es[..|es| - 1], |es| - 1;
      FirstConfirmationIsEarliest(rest, code);
      InAfterSnoc(rest, es[n], code);
      assert es == rest + [es[n]];
      assert forall i :: 0 <= i < n ==> rest[i] == es[i] && !Before(es[n], es[i]);
    }
  }

  /** Lateness without the order of the events: a denial, or no confirmation before the end of the first window. */
  lemma MissedRule(w: EntityWindow, es: seq<ConsentEvent>, now: Instant)
    requires SortedBy(Before, es)
    ensures MissedBy(w, es, now) <==>
              || DeniedIn(es, w.code)
              || (w.deadlineAt.Some? &&
                  (forall e :: e in es && Confirms(e, w.code) ==> w.deadlineAt.value <= e.occurredAt) &&
                  (!ConfirmedIn(es, w.code) ==> w.deadlineAt.value <= now))
  {
    FirstConfirmationIsEarliest(es, w.code);
    if ConfirmedIn(es, w.code) {
      var i :| 0 <= i < |es| && Confirms(es[i], w.code) && FirstConfirmation(es, w.code).value == es[i].occurredAt;
      assert es[i] in es;
    }
  }

  /** A confirmation of the entity, heard since the revocation, dated before the end of its first window. */
  predicate InTime(c: Consent, since: Instant, w: EntityWindow, e: ConsentEvent) {
    && e.consentId == c.id && since <= e.occurredAt && e.entityCode != "" && Confirms(e, w.code)
    && w.deadlineAt.Some? && e.occurredAt < w.deadlineAt.value
  }

  /**
   An entity that was late stays late as time passes and events are appended,
   except exactly when no event denies the notice and an appended one confirms
   it with a date inside the first window.
   */
  lemma LatenessRevertsExactlyWhen(c: Consent, since: Instant, w: EntityWindow, log: seq<ConsentEvent>, more: seq<ConsentEvent>,
                                   now: Instant, later: Instant)
    requires now <= later && MissedBy(w, Heard(c, since, log), now)
    ensures !MissedBy(w, Heard(c, since, log + more), later)
       <==> !DeniedIn(Heard(c, since, log + more), w.code) && exists e :: e in more && InTime(c, since, w, e)
  {
    var es, es' := Heard(c, since, log), Heard(c, since, log + more);
    FilteredIsSorted(IsOfEntities(c, since), log);
    FilteredIsSorted(IsOfEntities(c, since), log + more);
    MissedRule(w, es, now);
    MissedRule(w, es', later);
    HeardGrows(c, since, log, log + more, w.code);
    forall e
      ensures e in es' <==> e in es || (e in more && e.consentId == c.id && e.entityCode != "" && since <= e.occurredAt)
    {
      HeardMember(c, since, log, e);
      HeardMember(c, since, log + more, e);
    }
    ConfirmedByMember(es, w.code);
    ConfirmedByMember(es', w.code);
  }

  lemma ConfirmedByMember(es: seq<ConsentEvent>, code: string)
    ensures ConfirmedIn(es, code) <==> exists e :: e in es && Confirms(e, code)
  {
  }

  /** Events dated no earlier than the last read, over a log without future notices, never undo lateness. */
  lemma LatenessStays(c: Consent, since: Instant, w: EntityWindow, log: seq<ConsentEvent>, more: seq<ConsentEvent>,
                      now: Instant, later: Instant)
    requires now <= later && MissedBy(w, Heard(c, since, log), now)
    requires forall e :: e in log && e.entityCode != "" ==> e.occurredAt <= now
    requires forall e :: e in more ==> now <= e.occurredAt
    ensures MissedBy(w, Heard(c, since, log + more), later)
  {
    LatenessRevertsExactlyWhen(c, since, w, log, more, now, later);
    HeardGrows(c, since, log, log + more, w.code);
    var es := Heard(c, since, log);
    FilteredIsSorted(IsOfEntities(c, since), log);
    MissedRule(w, es, now);
    ConfirmedByMember(es, w.code);
    forall e | e in more && InTime(c, since, w, e)
      ensures DeniedIn(es, w.code)
    {
      forall x | x in es
        ensures x in log
      {
        HeardMember(c, since, log, x);
      }
    }
  }

  // ----- two folds over the same events

  /** The current window of the entity is not shorter than its first one. */
  predicate WindowNeverShrinks(w: EntityWindow, es: seq<ConsentEvent>) {
    var current := CurrentDeadline(w, es);
    current.Some? ==> w.deadlineAt.Some? && w.deadlineAt.value <= current.value
  }

  /** The two folds agree on an entity at every instant exactly when a retry never leaves it a shorter window. */
  lemma PartialMeansLateExactlyWhen(w: EntityWindow, es: seq<ConsentEvent>)
    ensures (forall now :: PartialFor(w, es, now) ==> MissedBy(w, es, now))
       <==> ConfirmedIn(es, w.code) || DeniedIn(es, w.code) || WindowNeverShrinks(w, es)
  {
    NoticeRule(w, es);
    var current := CurrentDeadline(w, es);
    if !ConfirmedIn(es, w.code) && !DeniedIn(es, w.code) && !WindowNeverShrinks(w, es) {
      assert PartialFor(w, es, current.value) && !MissedBy(w, es, current.value);
    }
  }

  /** The condition is needed: a retry with a deadline before the first one makes the revocation partial but not late. */
  lemma PartialWithoutBeingLate()
    ensures var w := EntityWindow("bank", Some(300));
            var retry := ConsentEvent("e", "c", "bank", RevocationRetryRequested, 10, 10, "", "", "", [], Some(100));
            PartialFor(w, [retry], 200) && !MissedBy(w, [retry], 200)
  {
  }
}
