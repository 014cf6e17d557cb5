/** The outbox relay: pending events are claimed, published and marked, or rescheduled (pkg/outbox/outbox.go). */
module Outbox {
  import opened Common
  import opened Retry

  datatype Row = Row(decodes: bool, attempts: nat, nextAttemptAt: Instant, claimedUntil: Option<Instant>, publishedAt: Option<Instant>)

  datatype Message = Message(eventId: string, decodes: bool, attempts: nat, claimedUntil: Instant)

  /** The relay claims `batch` messages at a time and gives each publication `publishTimeout`. */
  datatype Config = Config(lease: int, batch: nat, publishTimeout: int, retry: RetryPolicy) {
    predicate Valid() {
      0 < batch && 0 < publishTimeout < lease && retry.Valid()
    }

    /** The longest time from the claim of a batch to the end of its last publication. */
    function Span(): int {
      batch * publishTimeout
    }
  }

  function Sum(durations: seq<int>): int {
    if durations == [] then 0 else Sum(durations[..|durations| - 1]) + durations[|durations| - 1]
  }

  /** How long the publications of one batch, one after the other, may take. */
  predicate Durations(cfg: Config, durations: seq<int>) {
    |durations| <= cfg.batch && forall i :: 0 <= i < |durations| ==> 0 <= durations[i] <= cfg.publishTimeout
  }

  lemma {:induction false} SumIsBounded(durations: seq<int>, each: int)
    requires 0 <= each && forall i :: 0 <= i < |durations| ==> durations[i] <= each
    ensures Sum(durations) <= |durations| * each
  {
    if durations != [] {
      var n := |durations| - 1;
      SumIsBounded(durations[..n], each);
      assert (n + 1) * each == n * each + each;
    }
  }

  lemma {:induction false} SlowestBatch(n: nat, each: int)
    ensures Sum(seq(n, _ => each)) == n * each
  {
    if n > 0 {
      SlowestBatch(n - 1, each);
      assert seq(n, _ => each)[..n - 1] == seq(n - 1, _ => each);
      assert n * each == (n - 1) * each + each;
    }
  }

  /** The publications of a batch end within `limit` of its claim, however long each takes, exactly when batch times timeout does. */
  lemma BatchEndsWithin(cfg: Config, limit: int)
    requires cfg.Valid()
    ensures (forall durations :: Durations(cfg, durations) ==> Sum(durations) <= limit) <==> cfg.Span() <= limit
  {
    var slowest := seq(cfg.batch, _ => cfg.publishTimeout);
    SlowestBatch(cfg.batch, cfg.publishTimeout);
    assert Durations(cfg, slowest);
    if cfg.Span() <= limit {
      forall durations | Durations(cfg, durations)
        ensures Sum(durations) <= limit
      {
        SumIsBounded(durations, cfg.publishTimeout);
        Scaled(|durations|, cfg.batch, cfg.publishTimeout);
      }
    }
  }

  lemma Scaled(a: int, b: int, c: int)
    requires a <= b && 0 <= c
    ensures a * c <= b * c
  {
  }

  /** Not published, due, and without a live lease. */
  predicate Claimable(r: Row, now: Instant) {
    r.publishedAt.None? && r.nextAttemptAt <= now && (r.claimedUntil.None? || r.claimedUntil.value < now)
  }

  function Claimed(r: Row, now: Instant, lease: int): Row {
    r.(claimedUntil := Some(now + lease), attempts := r.attempts + 1)
  }

  function MessageOf(id: string, r: Row): Message
    requires r.claimedUntil.Some?
  {
    Message(id, r.decodes, r.attempts, r.claimedUntil.value)
  }

  predicate Holds(r: Row, m: Message) {
    r.publishedAt.None? && r.claimedUntil == Some(m.claimedUntil)
  }

  function Published(r: Row, at: Instant): Row {
    r.(publishedAt := Some(at), claimedUntil := None)
  }

  function Rescheduled(r: Row, next: Instant): Row {
    r.(nextAttemptAt := next, claimedUntil := None)
  }

  /** Which calls fail during a pass: publications, and writes to the table. */
  datatype Faults = Faults(publish: set<string>, write: set<string>)

  /** What publishing one message leaves, and whether the broker got it. */
  function Handled(cfg: Config, r: Row, m: Message, f: Faults, now: Instant): Row
    requires cfg.Valid()
  {
    if m.eventId in f.write || !Holds(r, m) then r
    else if !m.decodes || m.eventId in f.publish then Rescheduled(r, now + Wait(cfg.retry, m.attempts))
    else Published(r, now)
  }

  predicate Reaches(m: Message, f: Faults) {
    m.decodes && m.eventId !in f.publish
  }

  class Store {
    var rows: map<string, Row>
    var broker: set<string>

    constructor ()
      ensures rows == map[] && broker == {} && Honest()
    {
      rows, broker := map[], {};
    }

    /** Nothing is marked published that the broker did not get. */
    ghost predicate Honest()
      reads this
    {
      forall id :: id in rows && rows[id].publishedAt.Some? ==> id in broker
    }

    method Release(m: Message, next: Row, fails: bool)
      modifies this`rows
      ensures rows == if !fails && m.eventId in old(rows) && Holds(old(rows)[m.eventId], m) then old(rows)[m.eventId := next] else old(rows)
    {
      if !fails && m.eventId in rows && Holds(rows[m.eventId], m) {
        rows := rows[m.eventId := next];
      }
    }

    method Publish(cfg: Config, m: Message, f: Faults, now: Instant)
      requires cfg.Valid() && Honest() && m.eventId in rows
      modifies this
      ensures Honest()
      ensures rows == old(rows)[m.eventId := Handled(cfg, old(rows)[m.eventId], m, f, now)]
      ensures broker == old(broker) + if Reaches(m, f) then {m.eventId} else {}
      ensures m.eventId !in f.write && Holds(old(rows)[m.eventId], m) ==>
                var r, r' := old(rows)[m.eventId], rows[m.eventId];
                && r'.claimedUntil == None && r'.attempts == r.attempts && r'.decodes == r.decodes
                && (r'.publishedAt == Some(now) <==> Reaches(m, f)) && (Reaches(m, f) ==> r'.nextAttemptAt == r.nextAttemptAt)
                && (!Reaches(m, f) && 0 < m.attempts ==> r'.nextAttemptAt == DueDate(cfg.retry, m.attempts, None, now))
    {
      var r := rows[m.eventId];
      if !m.decodes || m.eventId in f.publish {
        var wait := Backoff(cfg.retry, m.attempts);
        Release(m, Rescheduled(r, now + wait as int), m.eventId in f.write);
        return;
      }
      broker := broker + {m.eventId};
      Release(m, Published(r, now), m.eventId in f.write);
    }

    /** One pass over a claimed batch: each message is handled on its own, whatever happens to the others. */
    method ProcessBatch(cfg: Config, batch: seq<Message>, f: Faults, now: Instant)
      requires cfg.Valid() && Honest()
      requires forall i :: 0 <= i < |batch| ==> batch[i].eventId in rows
      requires forall i, j :: 0 <= i < j < |batch| ==> batch[i].eventId != batch[j].eventId
      modifies this
      ensures Honest() && rows.Keys == old(rows).Keys
      ensures forall i :: 0 <= i < |batch| ==>
                rows[batch[i].eventId] == Handled(cfg, old(rows)[batch[i].eventId], batch[i], f, now)
      ensures forall i :: 0 <= i < |batch| && Reaches(batch[i], f) ==> batch[i].eventId in broker
      ensures forall id :: id in rows && (forall i :: 0 <= i < |batch| ==> batch[i].eventId != id) ==> rows[id] == old(rows)[id]
    {
      for k := 0 to |batch|
        invariant Honest() && rows.Keys == old(rows).Keys
        invariant forall i :: 0 <= i < k ==>
                    rows[batch[i].eventId] == Handled(cfg, old(rows)[batch[i].eventId], batch[i], f, now)
        invariant forall i :: 0 <= i < k && Reaches(batch[i], f) ==> batch[i].eventId in broker
        invariant forall id :: id in rows && (forall i :: 0 <= i < k ==> batch[i].eventId != id) ==> rows[id] == old(rows)[id]
      {
        Publish(cfg, batch[k], f, now);
      }
    }
  }
}

/** Any number of relays over one event. */
module OutboxProtocol {
  import opened Common
  import opened Retry
  import opened Outbox

  /** A relay holds a message; `sent` once the broker took it from this relay, which may still see an error. */
  datatype Relay = Relay(message: Message, sent: bool)

  /** `claimedAt` is when the present lease was taken, `failedAt` when the event was last rescheduled, `claims` how often it was claimed. */
  datatype State = State(clock: Instant, row: Row, relays: map<nat, Relay>, delivered: bool, claimedAt: Instant, failedAt: Option<Instant>, claims: nat)

  datatype Step =
    | Tick(now: Instant)
    | Claim(w: nat)
    | Send(w: nat)
    | Mark(w: nat)
    | Reschedule(w: nat)
    | Crash(w: nat)

  /** The relay may still be publishing what it claimed. */
  predicate MaySend(cfg: Config, s: State, w: nat) {
    && w in s.relays && s.relays[w].message.decodes && !s.relays[w].sent
    && s.clock <= s.relays[w].message.claimedUntil - cfg.lease + cfg.Span()
  }

  predicate Enabled(cfg: Config, s: State, step: Step) {
    match step
    case Tick(now) => s.clock <= now
    case Claim(w) => w !in s.relays && Claimable(s.row, s.clock)
    case Send(w) => MaySend(cfg, s, w)
    case Mark(w) => w in s.relays && s.relays[w].sent
    case Reschedule(w) => w in s.relays
    case Crash(w) => w in s.relays
  }

  function Do(cfg: Config, id: string, s: State, step: Step): State
    requires cfg.Valid() && Enabled(cfg, s, step)
  {
    match step
    case Tick(now) => s.(clock := now)
    case Claim(w) =>
      var r := Claimed(s.row, s.clock, cfg.lease);
      s.(row := r, relays := s.relays[w := Relay(MessageOf(id, r), false)], claimedAt := s.clock, claims := s.claims + 1)
    case Send(w) => s.(relays := s.relays[w := s.relays[w].(sent := true)], delivered := true)
    case Mark(w) =>
      var rest := s.(relays := s.relays - {w});
      if Holds(s.row, s.relays[w].message) then rest.(row := Published(s.row, s.clock)) else rest
    case Reschedule(w) =>
      var m := s.relays[w].message;
      var rest := s.(relays := s.relays - {w});
      if Holds(s.row, m) then rest.(row := Rescheduled(s.row, s.clock + Wait(cfg.retry, m.attempts)), failedAt := Some(s.clock)) else rest
    case Crash(w) => s.(relays := s.relays - {w})
  }

  ghost predicate Inv(cfg: Config, s: State) {
    && (s.row.publishedAt.Some? ==> s.delivered)
    && (forall w :: w in s.relays && s.relays[w].sent ==> s.delivered)
    && s.claimedAt <= s.clock && (s.failedAt.Some? ==> s.failedAt.value <= s.clock)
    && (if s.failedAt.Some?
        then s.failedAt.value + cfg.retry.base as int <= s.row.nextAttemptAt <= s.failedAt.value + cfg.retry.max as int
        else s.row.nextAttemptAt <= s.clock)
    && (s.row.claimedUntil.Some? ==> s.row.claimedUntil.value == s.claimedAt + cfg.lease)
  }

  predicate Start(s: State) {
    && s.row.publishedAt.None? && s.row.claimedUntil.None? && s.row.nextAttemptAt <= s.clock && s.row.attempts == s.claims == 0
    && s.relays == map[] && !s.delivered && s.failedAt.None? && s.claimedAt <= s.clock
  }

  predicate Legal(cfg: Config, id: string, s: State, steps: seq<Step>)
    requires cfg.Valid()
    decreases |steps|
  {
    steps == [] || (Enabled(cfg, s, steps[0]) && Legal(cfg, id, Do(cfg, id, s, steps[0]), steps[1..]))
  }

  function Run(cfg: Config, id: string, s: State, steps: seq<Step>): State
    requires cfg.Valid() && Legal(cfg, id, s, steps)
    decreases |steps|
  {
    if steps == [] then s else Run(cfg, id, Do(cfg, id, s, steps[0]), steps[1..])
  }

  lemma {:induction false} InvAlways(cfg: Config, id: string, s: State, steps: seq<Step>)
    requires cfg.Valid() && Inv(cfg, s) && Legal(cfg, id, s, steps)
    ensures Inv(cfg, Run(cfg, id, s, steps))
    decreases |steps|
  {
    if steps != [] {
      InvAlways(cfg, id, Do(cfg, id, s, steps[0]), steps[1..]);
    }
  }

  /** The later of the end of the lease and the due date. */
  function FreeAfter(r: Row): Instant {
    if r.claimedUntil.Some? then Max(r.nextAttemptAt, r.claimedUntil.value + 1) else r.nextAttemptAt
  }

  /**
   In every run: an event marked published reached the broker. One that is not
   marked can be claimed at an instant exactly from the later of its lease end and
   its due date on, and the due date is at most the longest wait after the
   failure, the lease end one lease after the claim.
   */
  lemma NeverLostNeverStuck(cfg: Config, id: string, s: State, steps: seq<Step>, now: Instant)
    requires cfg.Valid() && Start(s) && Legal(cfg, id, s, steps)
    ensures var e := Run(cfg, id, s, steps);
            && (e.row.publishedAt.Some? ==> e.delivered)
            && (e.row.publishedAt.None? ==> (Claimable(e.row, now) <==> FreeAfter(e.row) <= now))
            && (e.failedAt.Some? ==> e.row.nextAttemptAt <= e.failedAt.value + cfg.retry.max as int)
            && (e.failedAt.None? ==> e.row.nextAttemptAt <= e.clock)
            && (e.row.claimedUntil.Some? ==> e.row.claimedUntil.value == e.claimedAt + cfg.lease)
            && FreeAfter(e.row) <= e.clock + Max(cfg.lease + 1, cfg.retry.max as int)
  {
    InvAlways(cfg, id, s, steps);
  }

  // ----- one publisher at a time

  /** A relay whose lease is not over holds the event. */
  predicate HoldsOrOver(s: State, w: nat)
    requires w in s.relays
  {
    Holds(s.row, s.relays[w].message) || s.relays[w].message.claimedUntil < s.clock
  }

  ghost predicate HeldOk(cfg: Config, s: State) {
    && (s.row.claimedUntil.Some? ==> s.row.claimedUntil.value <= s.clock + cfg.lease)
    && (forall w :: w in s.relays ==> HoldsOrOver(s, w))
    && (forall w, w' :: Holding(s, w) && Holding(s, w') ==> w == w')
  }

  predicate Holding(s: State, w: nat) {
    w in s.relays && Holds(s.row, s.relays[w].message)
  }

  lemma HeldKept(cfg: Config, id: string, s: State, step: Step)
    requires cfg.Valid() && HeldOk(cfg, s) && Enabled(cfg, s, step)
    ensures HeldOk(cfg, Do(cfg, id, s, step))
  {
    var s' := Do(cfg, id, s, step);
    forall w | w in s'.relays
      ensures HoldsOrOver(s', w)
    {
      RelayKept(cfg, id, s, step, w);
    }
    forall w, w' | Holding(s', w) && Holding(s', w')
      ensures w == w'
    {
      OneHolder(cfg, id, s, step, w, w');
    }
  }

  lemma RelayKept(cfg: Config, id: string, s: State, step: Step, w: nat)
    requires cfg.Valid() && HeldOk(cfg, s) && Enabled(cfg, s, step) && w in Do(cfg, id, s, step).relays
    ensures HoldsOrOver(Do(cfg, id, s, step), w)
  {
    if w in s.relays {
      assert HoldsOrOver(s, w);
      assert step.Mark? || step.Reschedule? ==> !(Holding(s, w) && Holding(s, step.w));
    }
  }

  lemma OneHolder(cfg: Config, id: string, s: State, step: Step, w: nat, w': nat)
    requires cfg.Valid() && HeldOk(cfg, s) && Enabled(cfg, s, step)
    requires Holding(Do(cfg, id, s, step), w) && Holding(Do(cfg, id, s, step), w')
    ensures w == w'
  {
    if w in s.relays && w' in s.relays {
      assert HoldsOrOver(s, w) && HoldsOrOver(s, w');
      assert !step.Claim? ==> Holding(s, w) && Holding(s, w');
    }
  }

  lemma {:induction false} HeldAlways(cfg: Config, id: string, s: State, steps: seq<Step>)
    requires cfg.Valid() && HeldOk(cfg, s) && Legal(cfg, id, s, steps)
    ensures HeldOk(cfg, Run(cfg, id, s, steps))
    decreases |steps|
  {
    if steps != [] {
      HeldKept(cfg, id, s, steps[0]);
      HeldAlways(cfg, id, Do(cfg, id, s, steps[0]), steps[1..]);
    }
  }

  // ----- the wait grows with every claim

  ghost predicate CountOk(cfg: Config, s: State)
    requires cfg.Valid()
  {
    && s.row.attempts == s.claims
    && (s.row.claimedUntil.Some? ==> 0 < s.claims)
    && (forall w :: Holding(s, w) ==> s.relays[w].message.attempts == s.claims)
    && (s.row.claimedUntil.None? && s.row.publishedAt.None? && s.failedAt.Some? ==>
          0 < s.claims && s.row.nextAttemptAt == DueDate(cfg.retry, s.claims, None, s.failedAt.value))
  }

  lemma CountKept(cfg: Config, id: string, s: State, step: Step)
    requires cfg.Valid() && HeldOk(cfg, s) && CountOk(cfg, s) && Enabled(cfg, s, step)
    ensures CountOk(cfg, Do(cfg, id, s, step))
  {
    var s' := Do(cfg, id, s, step);
    forall w | Holding(s', w)
      ensures s'.relays[w].message.attempts == s'.claims
    {
      if w in s.relays {
        assert HoldsOrOver(s, w);
        assert step.Claim? || Holding(s, w);
      }
    }
  }

  lemma {:induction false} CountAlways(cfg: Config, id: string, s: State, steps: seq<Step>)
    requires cfg.Valid() && HeldOk(cfg, s) && CountOk(cfg, s) && Legal(cfg, id, s, steps)
    ensures CountOk(cfg, Run(cfg, id, s, steps))
    decreases |steps|
  {
    if steps != [] {
      HeldKept(cfg, id, s, steps[0]);
      CountKept(cfg, id, s, steps[0]);
      CountAlways(cfg, id, Do(cfg, id, s, steps[0]), steps[1..]);
    }
  }

  /** In every run, an event that failed and nobody claimed since is due one base wait after, doubled by each earlier claim, within the maximum. */
  lemma WaitsDouble(cfg: Config, id: string, s: State, steps: seq<Step>)
    requires cfg.Valid() && Start(s) && Legal(cfg, id, s, steps)
    ensures var e := Run(cfg, id, s, steps);
            e.row.claimedUntil.None? && e.row.publishedAt.None? && e.failedAt.Some? ==>
              0 < e.claims && e.row.nextAttemptAt == e.failedAt.value + Min(cfg.retry.base as int * Pow2(e.claims - 1), cfg.retry.max as int)
  {
    CountAlways(cfg, id, s, steps);
  }

  /** No run lets a relay publish an event that it does not hold any more. */
  ghost predicate NeverOutlivesItsLease(cfg: Config, id: string)
    requires cfg.Valid()
  {
    forall s, steps, w :: Start(s) && Legal(cfg, id, s, steps) && MaySend(cfg, Run(cfg, id, s, steps), w) ==> Holding(Run(cfg, id, s, steps), w)
  }

  const PENDING := State(0, Row(true, 0, 0, None, None), map[], false, 0, None, 0)

  lemma Prepend(cfg: Config, id: string, s: State, step: Step, steps: seq<Step>)
    requires cfg.Valid() && Enabled(cfg, s, step) && Legal(cfg, id, Do(cfg, id, s, step), steps)
    ensures Legal(cfg, id, s, [step] + steps) && Run(cfg, id, s, [step] + steps) == Run(cfg, id, Do(cfg, id, s, step), steps)
  {
    assert ([step] + steps)[1..] == steps;
  }

  lemma RunOfThree(cfg: Config, id: string, s: State, a: Step, b: Step, c: Step)
    requires cfg.Valid() && Enabled(cfg, s, a) && Enabled(cfg, Do(cfg, id, s, a), b) && Enabled(cfg, Do(cfg, id, Do(cfg, id, s, a), b), c)
    ensures Legal(cfg, id, s, [a, b, c]) && Run(cfg, id, s, [a, b, c]) == Do(cfg, id, Do(cfg, id, Do(cfg, id, s, a), b), c)
  {
    var s1 := Do(cfg, id, s, a);
    Prepend(cfg, id, Do(cfg, id, s1, b), c, []);
    Prepend(cfg, id, s1, b, [c] + []);
    Prepend(cfg, id, s, a, [b] + ([c] + []));
    assert [a] + ([b] + ([c] + [])) == [a, b, c];
  }

  /** The last message of a slow batch: its lease ran out, and another relay claimed it. */
  lemma PublishWithoutTheClaim(cfg: Config, id: string)
    requires cfg.Valid() && cfg.lease < cfg.Span()
    ensures !NeverOutlivesItsLease(cfg, id)
  {
    var a, b, c := Claim(0), Tick(cfg.lease + 1), Claim(1);
    var s1 := Do(cfg, id, PENDING, a);
    var s2 := Do(cfg, id, s1, b);
    var s3 := Do(cfg, id, s2, c);
    RunOfThree(cfg, id, PENDING, a, b, c);
    assert MaySend(cfg, s3, 0) && !Holding(s3, 0);
  }

  /** A publication never outlives its lease exactly when the whole batch fits in it; a lease longer than one publication is not enough. */
  lemma NeverOutlivesExactlyWhen(cfg: Config, id: string)
    requires cfg.Valid()
    ensures NeverOutlivesItsLease(cfg, id) <==> cfg.batch * cfg.publishTimeout <= cfg.lease
  {
    if cfg.Span() <= cfg.lease {
      forall s, steps, w | Start(s) && Legal(cfg, id, s, steps) && MaySend(cfg, Run(cfg, id, s, steps), w)
        ensures Holding(Run(cfg, id, s, steps), w)
      {
        HeldAlways(cfg, id, s, steps);
        assert HoldsOrOver(Run(cfg, id, s, steps), w);
      }
    } else {
      PublishWithoutTheClaim(cfg, id);
    }
  }

  /** Ten messages of up to 5 s each under a lease of 30 s, as the defaults set them, in milliseconds. */
  lemma DefaultsMayOutlive(id: string)
    ensures var cfg := Config(30_000, 10, 5_000, RetryPolicy(500, 60_000, 0)); cfg.Valid() && !NeverOutlivesItsLease(cfg, id)
  {
    NeverOutlivesExactlyWhen(Config(30_000, 10, 5_000, RetryPolicy(500, 60_000, 0)), id);
  }
}
