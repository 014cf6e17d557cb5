/**
 Every run of the premium charge of one acceptance: any number of workers, a
 gateway that may process a request at any later time, lost answers, crashes,
 expired leases, analysts that resume and customers that hand over payment methods.
 */
module ChargeProtocol {
  import opened Common
  import opened Retry
  import opened Lease
  import L = LeaseProtocol
  import opened Charges

  /**
   What the gateway answers to a key it already knows when the body differs:
   the stored answer, or a refusal (422, which the client takes for a rejection).
   */
  datatype Gateway = Replays | Refuses

  /**
   `binding`: every rejection is the answer the gateway keeps for the key, so that
   no 400, 401, 403 or 404 leaves an earlier request of the key to be processed.
   `guarded`: a method replaces another on a pending charge only if no analyst
   resumed the charge since; the code as written does not look.
   */
  datatype Config = Config(
    lease: Lease.Config,
    gateway: Gateway,
    binding: bool,
    guarded: bool,
    acceptance: string,
    snapshot: Snapshot,
    addMonths: Calendar)
  {
    predicate Valid() {
      lease.Valid() && lease.cap.None?
    }

    /** The retries of this configuration end. */
    predicate Windowed() {
      0 < lease.policy.window
    }

    /** A rejection is a decline, and the key alone decides what the gateway answers or never carries two methods. */
    predicate Safe() {
      binding && (gateway.Replays? || guarded || !Windowed())
    }
  }

  datatype Request = Request(key: string, token: string)

  /** The first answer of a key. */
  datatype Bound = Bound(token: string, charged: bool)

  /**
   `used` maps every key the charge ever had to its ordinal; `sent` are the
   requests that left, each of which the gateway may process at any time;
   `publishers` are workers about to hand over an activation, `handed` what
   consumers received.
   */
  datatype State = State(
    core: L.State<Option<PaymentMethod>>,
    billing: Billing,
    used: map<string, nat>,
    sent: set<Request>,
    answers: map<string, Bound>,
    publishers: map<nat, CoverageActivated>,
    handed: seq<CoverageActivated>)

  datatype Step =
    | Tick(now: Instant)
    | Attach(kind: MethodKind, token: string)
    | Resume
    | Expire
    | Claim(w: nat)
    | Send(w: nat)
    | Process(request: Request, charged: bool)
    | Answer(w: nat, outcome: Outcome)
    | Record(w: nat)
    | Crash(w: nat)
    | TakeActivation(w: nat)
    | HandOver(w: nat)

  function ChargeOf(cfg: Config, s: State): Charge {
    Charge(cfg.acceptance, cfg.snapshot, s.core.row, s.billing)
  }

  function TokenOf(m: Option<PaymentMethod>): string {
    if m.Some? then m.value.token else ""
  }

  function RequestOf(rec: Attempt<Option<PaymentMethod>>): Request {
    Request(rec.key, TokenOf(rec.payload))
  }

  /** What the gateway answers to a request for a key it knows. */
  function GatewayAnswer(g: Gateway, b: Bound, token: string): Outcome {
    if g.Refuses? && b.token != token then OutcomeRejected
    else if b.charged then OutcomeConfirmed
    else OutcomeRejected
  }

  /** An answer that reached the worker comes from the gateway; silence is always possible. */
  predicate CanAnswer(cfg: Config, s: State, rec: Attempt<Option<PaymentMethod>>, outcome: Outcome) {
    outcome.OutcomeConfirmed? || outcome.OutcomeRejected? ==>
      && RequestOf(rec) in s.sent
      && (|| (outcome.OutcomeRejected? && !cfg.binding)
          || (rec.key in s.answers && outcome == GatewayAnswer(cfg.gateway, s.answers[rec.key], TokenOf(rec.payload))))
  }

  predicate CanAttach(cfg: Config, c: Charge) {
    TakesPaymentMethod(c) && (cfg.guarded && c.attempt.status.Pending? ==> !ResumedSinceCapture(c))
  }

  predicate Enabled(cfg: Config, s: State, step: Step) {
    match step
    case Tick(now) => s.core.clock <= now
    case Attach(_, _) => CanAttach(cfg, ChargeOf(cfg, s))
    case Resume => s.core.row.status.Failed?
    case Expire => WaitedTooLong(ChargeOf(cfg, s), s.core.clock)
    case Claim(w) => w !in s.core.workers && Claimable(s.core.row, s.core.clock)
    case Send(w) => w in s.core.workers && s.core.workers[w].Calling?
    case Process(request, _) => request in s.sent
    case Answer(w, outcome) =>
      w in s.core.workers && s.core.workers[w].Calling? && CanAnswer(cfg, s, s.core.workers[w].rec, outcome)
    case Record(w) => w in s.core.workers && s.core.workers[w].Answered?
    case Crash(w) => w in s.core.workers
    case TakeActivation(w) => s.billing.activation.Some?
    case HandOver(w) => w in s.publishers
  }

  /** A statement of the repository other than the runner's. */
  function Requeued(s: State, c: Charge): State {
    s.(core := s.core.(row := c.attempt, failures := [], requeuedAt := Some(s.core.clock), rejected := false), billing := c.billing)
  }

  function Attached(cfg: Config, s: State, kind: MethodKind, token: string): State {
    var c := WithPaymentMethod(ChargeOf(cfg, s), kind, token, s.core.clock);
    Requeued(s, c).(used := if s.core.row.status.Failed? then s.used[c.attempt.key := c.billing.paymentAttempt] else s.used)
  }

  /** The write of a worker that has its answer: result, reason and activation in one statement. */
  function RecordedBy(cfg: Config, s: State, w: nat): State
    requires cfg.Valid() && Enabled(cfg, s, Record(w))
  {
    var p := s.core.workers[w];
    var core' := L.RecordOf(cfg.lease, s.core, w);
    if !Holds(s.core.row, p.rec) then s.(core := core')
    else
      var v := Decide(cfg.lease, p.rec, p.outcome, p.at);
      var c := RecordedCharge(cfg.addMonths, ChargeOf(cfg, s), v, p.at);
      s.(core := core', billing := c.billing,
         publishers := if v.ToConfirm? then s.publishers[w := ActivationEvent(c)] else s.publishers)
  }

  function Do(cfg: Config, s: State, step: Step): State
    requires cfg.Valid() && Enabled(cfg, s, step)
  {
    match step
    case Tick(now) => s.(core := L.Do(cfg.lease, s.core, L.Tick(now)))
    case Attach(kind, token) => Attached(cfg, s, kind, token)
    case Resume => Requeued(s, Resumed(ChargeOf(cfg, s), s.core.clock, WindowEnd(cfg.lease.policy, s.core.clock)))
    case Expire => Requeued(s, ExpiredWithoutMethod(ChargeOf(cfg, s)))
    case Claim(w) => s.(core := L.Do(cfg.lease, s.core, L.Claim(w)))
    case Send(w) => s.(sent := s.sent + {RequestOf(s.core.workers[w].rec)})
    case Process(r, charged) =>
      if r.key in s.answers then s else s.(answers := s.answers[r.key := Bound(r.token, charged)])
    case Answer(w, outcome) => s.(core := L.Do(cfg.lease, s.core, L.Answer(w, outcome)))
    case Record(w) => RecordedBy(cfg, s, w)
    case Crash(w) => s.(core := L.Do(cfg.lease, s.core, L.Crash(w)), publishers := s.publishers - {w})
    case TakeActivation(w) => s.(publishers := s.publishers[w := ActivationEvent(ChargeOf(cfg, s))])
    case HandOver(w) => s.(handed := s.handed + [s.publishers[w]])
  }

  /** The charge has just been created, waiting for its first payment method. */
  function Start(cfg: Config, clock: Instant): State {
    var c := NewCharge(cfg.acceptance, cfg.snapshot, WindowEnd(cfg.lease.policy, clock));
    State(L.State(clock, c.attempt, map[], [], [], None, false), c.billing, map[c.attempt.key := 1], {}, map[], map[], [])
  }

  // ----- what every step keeps

  /** The key was definitively declined: no request under it can ever charge. */
  predicate Settled(s: State, key: string) {
    key in s.answers && !s.answers[key].charged
  }

  predicate ChargedKey(s: State, key: string) {
    key in s.answers && s.answers[key].charged
  }

  ghost predicate AtMostOneKeyCharged(s: State) {
    forall k, k' :: ChargedKey(s, k) && ChargedKey(s, k') ==> k == k'
  }

  /** Keys carry ordinals that only grow; every request, answer and claim is under a key of this charge. */
  ghost predicate KeysOk(cfg: Config, s: State) {
    var key, n := s.core.row.key, s.billing.paymentAttempt;
    && key in s.used && s.used[key] <= Max(1, n)
    && (forall k :: k in s.used ==> k == ChargeKeyFor(cfg.acceptance, s.used[k]) && 1 <= s.used[k] <= s.used[key])
    && (forall r :: r in s.sent ==> r.key in s.used)
    && (forall k :: k in s.answers ==> k in s.used && Request(k, s.answers[k].token) in s.sent)
    && (forall w :: w in s.core.workers ==> s.core.workers[w].rec.key in s.used)
  }

  /** Who may be due, what a failure says, and that nothing is sent before the first payment method. */
  ghost predicate ShapeOk(cfg: Config, s: State) {
    var row, b := s.core.row, s.billing;
    && (row.payload.Some? <==> 0 < b.paymentAttempt)
    && (row.payload.Some? ==> row.payload.value.capturedAt <= s.core.clock)
    && (row.payload.None? ==> s.sent == {} && s.core.workers == map[] && (row.status.Pending? || row.status.Failed?))
    && (row.status.Pending? && row.nextAttemptAt.Some? ==> row.payload.Some?)
    && (row.status.Pending? && row.nextAttemptAt.None? ==> row.failedAttempts == 0 && row.payload.None?)
    && (row.status.Failed? <==> b.reason.Some?)
    && (row.status.Failed? ==> (b.reason == Some(PaymentMethodMissing) <==> row.payload.None?))
    && (row.status.Pending? || row.status.Failed? ==> row.claimedUntil.None?)
    && (!cfg.Windowed() ==> row.windowEndsAt.None? && b.reason != Some(RetryWindowExpired))
  }

  /** Only a charged key is confirmed. */
  ghost predicate PaidOk(s: State) {
    && (s.core.row.status.Confirmed? ==> ChargedKey(s, s.core.row.key))
    && (forall w :: w in s.core.workers ==> AnswerPaid(s, s.core.workers[w]))
  }

  predicate AnswerPaid(s: State, p: L.Phase<Option<PaymentMethod>>) {
    p.Answered? && p.outcome.OutcomeConfirmed? ==> ChargedKey(s, p.rec.key)
  }

  /** Every former key was declined, and a rejection is a decline. */
  ghost predicate GatewayOk(cfg: Config, s: State) {
    && (forall k :: k in s.used && k != s.core.row.key ==> Settled(s, k))
    && (s.billing.reason == Some(PaymentRejected) ==> Settled(s, s.core.row.key))
    && (forall w :: w in s.core.workers ==> AnswerOk(s, s.core.workers[w]))
  }

  predicate AnswerOk(s: State, p: L.Phase<Option<PaymentMethod>>) {
    p.Answered? && p.outcome.OutcomeRejected? ==> Settled(s, p.rec.key)
  }

  /** Nobody has sent, or is about to send, anything under the key. */
  ghost predicate Untouched(s: State, key: string) {
    && (forall r :: r in s.sent ==> r.key != key)
    && (forall w :: w in s.core.workers ==> s.core.workers[w].rec.key != key)
  }

  /** While the current key is open, it carries one payment method only. */
  ghost predicate OneMethodPerKey(cfg: Config, s: State) {
    var row := s.core.row;
    !Settled(s, row.key) ==>
      && (forall r :: r in s.sent && r.key == row.key ==> r.token == TokenOf(row.payload))
      && (forall w :: w in s.core.workers && s.core.workers[w].rec.key == row.key ==>
            TokenOf(s.core.workers[w].rec.payload) == TokenOf(row.payload))
      && (row.status.Pending? && row.failedAttempts == 0 && !(cfg.Windowed() && ResumedSinceCapture(ChargeOf(cfg, s))) ==>
            Untouched(s, row.key))
  }

  /** A policy exists exactly when the charge is confirmed, and every publication is its one event. */
  ghost predicate ActivationOk(cfg: Config, s: State) {
    && (s.core.row.status.Confirmed? <==> s.billing.activation.Some?)
    && (s.billing.activation.None? ==> s.publishers == map[] && s.handed == [])
    && (s.billing.activation.Some? ==>
          && (exists at: Instant :: s.billing.activation.value == ActivationAt(cfg.addMonths, ChargeOf(cfg, s), at))
          && (forall w :: w in s.publishers ==> s.publishers[w] == ActivationEvent(ChargeOf(cfg, s)))
          && (forall e :: e in s.handed ==> e == ActivationEvent(ChargeOf(cfg, s))))
  }

  ghost predicate Inv(cfg: Config, s: State)
    requires cfg.Valid()
  {
    && L.Inv(cfg.lease, s.core)
    && KeysOk(cfg, s)
    && ShapeOk(cfg, s)
    && ActivationOk(cfg, s)
    && PaidOk(s)
    && (cfg.Safe() ==> GatewayOk(cfg, s))
    && (cfg.Safe() && cfg.gateway.Refuses? ==> OneMethodPerKey(cfg, s))
  }

  lemma StartInv(cfg: Config, clock: Instant)
    requires cfg.Valid()
    ensures Inv(cfg, Start(cfg, clock))
  {
  }

  /** A worker that still holds the charge works with exactly what is stored. */
  lemma HolderSeesTheRow(cfg: Config, s: State, w: nat)
    requires cfg.Valid() && L.Inv(cfg.lease, s.core) && L.Holder(s.core, w)
    ensures s.core.workers[w].rec == s.core.row
  {
  }

  /** The next ordinal gives a key the charge never had. */
  lemma FreshKey(cfg: Config, s: State)
    requires KeysOk(cfg, s) && 0 < s.billing.paymentAttempt
    ensures ChargeKeyFor(cfg.acceptance, s.billing.paymentAttempt + 1) !in s.used
  {
    var n := s.billing.paymentAttempt + 1;
    var key := ChargeKeyFor(cfg.acceptance, n);
    if key in s.used {
      KeysOfOneAcceptance(cfg.acceptance, s.used[key], n);
    }
  }

  // ----- steps of the clock, the workers and the gateway: the stored charge does not change

  /** What a step that leaves the row and the billing alone may do besides. */
  ghost predicate Quiet(s: State, s': State) {
    && s'.core.row == s.core.row && s'.billing == s.billing && s'.used == s.used && s'.sent == s.sent
    && s.core.clock <= s'.core.clock
    && s'.publishers.Keys <= s.publishers.Keys && (forall w :: w in s'.publishers ==> s'.publishers[w] == s.publishers[w])
    && s'.handed == s.handed
    && s'.core.workers.Keys <= s.core.workers.Keys
    && (forall w :: w in s'.core.workers ==> s'.core.workers[w].rec == s.core.workers[w].rec)
    && (forall k :: k in s.answers ==> k in s'.answers && s'.answers[k] == s.answers[k])
  }

  lemma QuietKeepsOneMethod(cfg: Config, s: State, s': State)
    requires OneMethodPerKey(cfg, s) && Quiet(s, s')
    ensures OneMethodPerKey(cfg, s')
  {
  }

  lemma QuietKeepsActivation(cfg: Config, s: State, s': State)
    requires ActivationOk(cfg, s) && Quiet(s, s')
    ensures ActivationOk(cfg, s')
  {
    assert ChargeOf(cfg, s') == ChargeOf(cfg, s);
  }

  lemma QuietKeepsShape(cfg: Config, s: State, s': State)
    requires ShapeOk(cfg, s) && Quiet(s, s')
    ensures ShapeOk(cfg, s')
  {
  }

  lemma QuietKeepsKeys(cfg: Config, s: State, s': State)
    requires KeysOk(cfg, s) && Quiet(s, s')
    requires forall k :: k in s'.answers && k !in s.answers ==> Request(k, s'.answers[k].token) in s.sent
    ensures KeysOk(cfg, s')
  {
  }

  lemma QuietKeepsAnswers(cfg: Config, s: State, s': State)
    requires PaidOk(s) && Quiet(s, s')
    requires forall w :: w in s'.core.workers && s'.core.workers[w] != s.core.workers[w] ==>
               && AnswerPaid(s', s'.core.workers[w])
               && (cfg.Safe() ==> AnswerOk(s', s'.core.workers[w]))
    ensures PaidOk(s')
    ensures cfg.Safe() && GatewayOk(cfg, s) ==> GatewayOk(cfg, s')
  {
  }

  lemma QuietKeeps(cfg: Config, s: State, s': State)
    requires cfg.Valid() && Inv(cfg, s) && Quiet(s, s') && L.Inv(cfg.lease, s'.core)
    requires forall k :: k in s'.answers && k !in s.answers ==> Request(k, s'.answers[k].token) in s.sent
    requires forall w :: w in s'.core.workers && s'.core.workers[w] != s.core.workers[w] ==>
               && AnswerPaid(s', s'.core.workers[w])
               && (cfg.Safe() ==> AnswerOk(s', s'.core.workers[w]))
    ensures Inv(cfg, s')
  {
    QuietKeepsKeys(cfg, s, s');
    QuietKeepsShape(cfg, s, s');
    QuietKeepsActivation(cfg, s, s');
    QuietKeepsAnswers(cfg, s, s');
    if cfg.Safe() && cfg.gateway.Refuses? {
      QuietKeepsOneMethod(cfg, s, s');
    }
  }

  lemma TickKeeps(cfg: Config, s: State, now: Instant)
    requires cfg.Valid() && Inv(cfg, s) && Enabled(cfg, s, Tick(now))
    ensures Inv(cfg, Do(cfg, s, Tick(now)))
  {
    L.InvKept(cfg.lease, s.core, L.Tick(now));
    QuietKeeps(cfg, s, Do(cfg, s, Tick(now)));
  }

  lemma CrashKeeps(cfg: Config, s: State, w: nat)
    requires cfg.Valid() && Inv(cfg, s) && Enabled(cfg, s, Crash(w))
    ensures Inv(cfg, Do(cfg, s, Crash(w)))
  {
    L.InvKept(cfg.lease, s.core, L.Crash(w));
    QuietKeeps(cfg, s, Do(cfg, s, Crash(w)));
  }

  lemma ProcessIsQuiet(cfg: Config, s: State, r: Request, charged: bool)
    requires cfg.Valid() && KeysOk(cfg, s) && Enabled(cfg, s, Process(r, charged))
    ensures var s' := Do(cfg, s, Process(r, charged));
            && Quiet(s, s') && s'.core == s.core
            && (forall k :: k in s'.answers && k !in s.answers ==> Request(k, s'.answers[k].token) in s.sent)
  {
  }

  lemma ProcessKeeps(cfg: Config, s: State, r: Request, charged: bool)
    requires cfg.Valid() && Inv(cfg, s) && Enabled(cfg, s, Process(r, charged))
    ensures Inv(cfg, Do(cfg, s, Process(r, charged)))
  {
    ProcessIsQuiet(cfg, s, r, charged);
    QuietKeeps(cfg, s, Do(cfg, s, Process(r, charged)));
  }

  /** A rejection answers a declined key: a refusal for another body cannot happen on an open key. */
  lemma RejectionIsADecline(cfg: Config, s: State, w: nat)
    requires cfg.Safe() && KeysOk(cfg, s) && GatewayOk(cfg, s) && (cfg.gateway.Refuses? ==> OneMethodPerKey(cfg, s))
    requires Enabled(cfg, s, Answer(w, OutcomeRejected))
    ensures Settled(s, s.core.workers[w].rec.key)
  {
  }

  lemma AnswerIsQuiet(cfg: Config, s: State, w: nat, outcome: Outcome)
    requires cfg.Valid() && Enabled(cfg, s, Answer(w, outcome))
    requires outcome.OutcomeRejected? && cfg.Safe() ==> Settled(s, s.core.workers[w].rec.key)
    ensures var s' := Do(cfg, s, Answer(w, outcome));
            && Quiet(s, s') && s'.answers == s.answers && s'.core == L.Do(cfg.lease, s.core, L.Answer(w, outcome))
            && (forall v :: v in s'.core.workers && s'.core.workers[v] != s.core.workers[v] ==>
                  AnswerPaid(s', s'.core.workers[v]) && (cfg.Safe() ==> AnswerOk(s', s'.core.workers[v])))
  {
  }

  lemma AnswerKeeps(cfg: Config, s: State, w: nat, outcome: Outcome)
    requires cfg.Valid() && Inv(cfg, s) && Enabled(cfg, s, Answer(w, outcome))
    ensures Inv(cfg, Do(cfg, s, Answer(w, outcome)))
  {
    L.InvKept(cfg.lease, s.core, L.Answer(w, outcome));
    if outcome.OutcomeRejected? && cfg.Safe() {
      RejectionIsADecline(cfg, s, w);
    }
    AnswerIsQuiet(cfg, s, w, outcome);
    QuietKeeps(cfg, s, Do(cfg, s, Answer(w, outcome)));
  }

  // ----- claims and requests

  lemma ClaimKeeps(cfg: Config, s: State, w: nat)
    requires cfg.Valid() && Inv(cfg, s) && Enabled(cfg, s, Claim(w))
    ensures Inv(cfg, Do(cfg, s, Claim(w)))
  {
    L.InvKept(cfg.lease, s.core, L.Claim(w));
    var s' := Do(cfg, s, Claim(w));
    ClaimKeepsKeys(cfg, s, w);
    assert ChargeOf(cfg, s').(attempt := s.core.row) == ChargeOf(cfg, s);
    assert ShapeOk(cfg, s');
    ActivationIsOfTheSnapshot(cfg, s, s');
    forall v | v in s'.core.workers
      ensures AnswerPaid(s', s'.core.workers[v])
      ensures cfg.Safe() ==> AnswerOk(s', s'.core.workers[v])
    {
      assert v != w ==> AnswerPaid(s, s.core.workers[v]);
    }
    if cfg.Safe() && cfg.gateway.Refuses? {
      ClaimKeepsOneMethod(cfg, s, w);
    }
  }

  lemma ClaimKeepsKeys(cfg: Config, s: State, w: nat)
    requires cfg.Valid() && KeysOk(cfg, s) && Enabled(cfg, s, Claim(w))
    ensures KeysOk(cfg, Do(cfg, s, Claim(w)))
  {
  }

  lemma ClaimKeepsOneMethod(cfg: Config, s: State, w: nat)
    requires cfg.Valid() && OneMethodPerKey(cfg, s) && Enabled(cfg, s, Claim(w))
    ensures OneMethodPerKey(cfg, Do(cfg, s, Claim(w)))
  {
  }

  /** The activation depends on the acceptance and the snapshot only, so it stays what it was. */
  lemma ActivationIsOfTheSnapshot(cfg: Config, s: State, s': State)
    requires ActivationOk(cfg, s) && s'.billing.activation == s.billing.activation
    ensures s'.billing.activation.Some? ==>
              && (exists at: Instant :: s'.billing.activation.value == ActivationAt(cfg.addMonths, ChargeOf(cfg, s'), at))
              && ActivationEvent(ChargeOf(cfg, s')) == ActivationEvent(ChargeOf(cfg, s))
  {
    if s.billing.activation.Some? {
      var at: Instant :| s.billing.activation.value == ActivationAt(cfg.addMonths, ChargeOf(cfg, s), at);
      assert s'.billing.activation.value == ActivationAt(cfg.addMonths, ChargeOf(cfg, s'), at);
    }
  }

  lemma SendKeeps(cfg: Config, s: State, w: nat)
    requires cfg.Valid() && Inv(cfg, s) && Enabled(cfg, s, Send(w))
    ensures Inv(cfg, Do(cfg, s, Send(w)))
  {
    var s' := Do(cfg, s, Send(w));
    assert s.core.workers[w].rec.key in s.used;
    assert KeysOk(cfg, s') && ShapeOk(cfg, s');
    assert ChargeOf(cfg, s') == ChargeOf(cfg, s);
    assert forall k :: Settled(s', k) == Settled(s, k) && ChargedKey(s', k) == ChargedKey(s, k);
    forall v | v in s'.core.workers
      ensures AnswerPaid(s', s'.core.workers[v])
      ensures cfg.Safe() ==> AnswerOk(s', s'.core.workers[v])
    {
      assert AnswerPaid(s, s.core.workers[v]);
    }
    if cfg.Safe() && cfg.gateway.Refuses? {
      SendKeepsOneMethod(cfg, s, w);
    }
  }

  lemma SendKeepsOneMethod(cfg: Config, s: State, w: nat)
    requires cfg.Valid() && OneMethodPerKey(cfg, s) && Enabled(cfg, s, Send(w))
    ensures OneMethodPerKey(cfg, Do(cfg, s, Send(w)))
  {
  }

  // ----- analysts and customers

  lemma RequeueKeepsAnswers(cfg: Config, s: State, s': State)
    requires PaidOk(s) && s'.answers == s.answers && s'.core.workers == s.core.workers && !s'.core.row.status.Confirmed?
    ensures PaidOk(s')
    ensures GatewayOk(cfg, s) && s'.used == s.used && s'.core.row.key == s.core.row.key && s'.billing.reason != Some(PaymentRejected)
            ==> GatewayOk(cfg, s')
  {
  }

  lemma ExpireKeeps(cfg: Config, s: State)
    requires cfg.Valid() && Inv(cfg, s) && Enabled(cfg, s, Expire)
    ensures Inv(cfg, Do(cfg, s, Expire))
  {
  }

  lemma ResumeKeeps(cfg: Config, s: State)
    requires cfg.Valid() && Inv(cfg, s) && Enabled(cfg, s, Resume)
    ensures Inv(cfg, Do(cfg, s, Resume))
  {
    var s' := Do(cfg, s, Resume);
    var c' := Resumed(ChargeOf(cfg, s), s.core.clock, WindowEnd(cfg.lease.policy, s.core.clock));
    L.InvKept(cfg.lease, s.core, L.Requeue(c'.attempt));
    assert KeysOk(cfg, s') && ShapeOk(cfg, s');
    RequeueKeepsAnswers(cfg, s, s');
    if cfg.Safe() && cfg.gateway.Refuses? {
      ResumeKeepsOneMethod(cfg, s);
    }
  }

  lemma ResumeKeepsOneMethod(cfg: Config, s: State)
    requires cfg.Valid() && Enabled(cfg, s, Resume)
    requires ShapeOk(cfg, s) && GatewayOk(cfg, s) && OneMethodPerKey(cfg, s)
    ensures OneMethodPerKey(cfg, Do(cfg, s, Resume))
  {
    var s' := Do(cfg, s, Resume);
    match s.billing.reason.value
    case PaymentRejected =>
      assert Settled(s', s'.core.row.key);
    case PaymentMethodMissing =>
      assert Untouched(s', s'.core.row.key);
    case RetryWindowExpired =>
      assert ResumedSinceCapture(ChargeOf(cfg, s'));
  }

  lemma AttachKeeps(cfg: Config, s: State, kind: MethodKind, token: string)
    requires cfg.Valid() && Inv(cfg, s) && Enabled(cfg, s, Attach(kind, token))
    ensures Inv(cfg, Attached(cfg, s, kind, token))
  {
    var s' := Attached(cfg, s, kind, token);
    L.InvKept(cfg.lease, s.core, L.Requeue(WithPaymentMethod(ChargeOf(cfg, s), kind, token, s.core.clock).attempt));
    AttachKeepsKeys(cfg, s, kind, token);
    assert ShapeOk(cfg, s');
    RequeueKeepsAnswers(cfg, s, s');
    if cfg.Safe() {
      AttachKeepsGateway(cfg, s, kind, token);
      if cfg.gateway.Refuses? {
        AttachKeepsOneMethod(cfg, s, kind, token);
      }
    }
  }

  lemma AttachKeepsKeys(cfg: Config, s: State, kind: MethodKind, token: string)
    requires KeysOk(cfg, s) && ShapeOk(cfg, s) && CanAttach(cfg, ChargeOf(cfg, s))
    ensures KeysOk(cfg, Attached(cfg, s, kind, token))
  {
  }

  /** The key changes only after a decline, so the key left behind is settled. */
  lemma AttachKeepsGateway(cfg: Config, s: State, kind: MethodKind, token: string)
    requires GatewayOk(cfg, s) && CanAttach(cfg, ChargeOf(cfg, s)) && ShapeOk(cfg, s)
    ensures GatewayOk(cfg, Attached(cfg, s, kind, token))
  {
  }

  lemma AttachKeepsOneMethod(cfg: Config, s: State, kind: MethodKind, token: string)
    requires cfg.Safe() && cfg.gateway.Refuses? && CanAttach(cfg, ChargeOf(cfg, s))
    requires KeysOk(cfg, s) && ShapeOk(cfg, s) && OneMethodPerKey(cfg, s)
    ensures OneMethodPerKey(cfg, Attached(cfg, s, kind, token))
  {
    var s' := Attached(cfg, s, kind, token);
    if s.core.row.status.Failed? {
      FreshKey(cfg, s);
      assert Untouched(s', s'.core.row.key);
    } else if !Settled(s, s.core.row.key) {
      assert Untouched(s, s.core.row.key);
      assert Untouched(s', s'.core.row.key);
    }
  }

  // ----- the write of a result

  /** A worker that lost its claim leaves only itself. */
  lemma StaleRecordIsQuiet(cfg: Config, s: State, w: nat)
    requires cfg.Valid() && Inv(cfg, s) && Enabled(cfg, s, Record(w)) && !L.Holder(s.core, w)
    ensures Inv(cfg, RecordedBy(cfg, s, w))
  {
    L.InvKept(cfg.lease, s.core, L.Record(w));
    QuietKeeps(cfg, s, RecordedBy(cfg, s, w));
  }

  /** What a verdict of the holder leaves, seen without how the verdict was reached. */
  function Written(cfg: Config, s: State, w: nat, v: Verdict, at: Instant): State
    requires v.ToConfirm? || s.core.row.status.InProgress?
  {
    var c := RecordedCharge(cfg.addMonths, ChargeOf(cfg, s), v, at);
    s.(core := s.core.(row := c.attempt, workers := s.core.workers - {w},
                       failures := if v.ToConfirm? then s.core.failures else s.core.failures + [at],
                       rejected := v == ToFail(ReasonRejected)),
       billing := c.billing,
       publishers := if v.ToConfirm? then s.publishers[w := ActivationEvent(c)] else s.publishers)
  }

  lemma WrittenKeepsKeysAndShape(cfg: Config, s: State, w: nat, v: Verdict, at: Instant)
    requires KeysOk(cfg, s) && ShapeOk(cfg, s) && s.core.row.status.InProgress?
    requires v == ToFail(ReasonWindowExpired) ==> cfg.Windowed()
    ensures KeysOk(cfg, Written(cfg, s, w, v, at))
    ensures ShapeOk(cfg, Written(cfg, s, w, v, at))
  {
  }

  lemma WrittenKeepsActivation(cfg: Config, s: State, w: nat, v: Verdict, at: Instant)
    requires ActivationOk(cfg, s) && s.core.row.status.InProgress?
    ensures ActivationOk(cfg, Written(cfg, s, w, v, at))
  {
    var s' := Written(cfg, s, w, v, at);
    assert s'.billing.activation.Some? ==>
        s'.billing.activation.value == ActivationAt(cfg.addMonths, ChargeOf(cfg, s'), at);
  }

  lemma WrittenKeepsAnswers(cfg: Config, s: State, w: nat, v: Verdict, at: Instant)
    requires PaidOk(s) && s.core.row.status.InProgress?
    requires v.ToConfirm? ==> ChargedKey(s, s.core.row.key)
    requires cfg.Safe() && v == ToFail(ReasonRejected) ==> Settled(s, s.core.row.key)
    ensures PaidOk(Written(cfg, s, w, v, at))
    ensures cfg.Safe() && GatewayOk(cfg, s) ==> GatewayOk(cfg, Written(cfg, s, w, v, at))
  {
  }

  lemma WrittenKeepsOneMethod(cfg: Config, s: State, w: nat, v: Verdict, at: Instant)
    requires OneMethodPerKey(cfg, s) && s.core.row.status.InProgress?
    ensures OneMethodPerKey(cfg, Written(cfg, s, w, v, at))
  {
  }

  lemma HolderRecordKeeps(cfg: Config, s: State, w: nat)
    requires cfg.Valid() && Inv(cfg, s) && Enabled(cfg, s, Record(w)) && L.Holder(s.core, w)
    ensures Inv(cfg, RecordedBy(cfg, s, w))
  {
    L.InvKept(cfg.lease, s.core, L.Record(w));
    HolderSeesTheRow(cfg, s, w);
    var p := s.core.workers[w];
    var v := Decide(cfg.lease, p.rec, p.outcome, p.at);
    assert RecordedBy(cfg, s, w) == Written(cfg, s, w, v, p.at);
    assert AnswerPaid(s, p) && (cfg.Safe() ==> AnswerOk(s, p));
    WrittenKeepsKeysAndShape(cfg, s, w, v, p.at);
    WrittenKeepsActivation(cfg, s, w, v, p.at);
    WrittenKeepsAnswers(cfg, s, w, v, p.at);
    if cfg.Safe() && cfg.gateway.Refuses? {
      WrittenKeepsOneMethod(cfg, s, w, v, p.at);
    }
  }

  lemma PublicationKeeps(cfg: Config, s: State, step: Step)
    requires cfg.Valid() && Inv(cfg, s) && Enabled(cfg, s, step) && (step.TakeActivation? || step.HandOver?)
    ensures Inv(cfg, Do(cfg, s, step))
  {
    var s' := Do(cfg, s, step);
    assert ChargeOf(cfg, s') == ChargeOf(cfg, s);
    assert ActivationOk(cfg, s');
    assert KeysOk(cfg, s') && ShapeOk(cfg, s');
    PublicationKeepsAnswers(cfg, s, s');
  }

  lemma PublicationKeepsAnswers(cfg: Config, s: State, s': State)
    requires PaidOk(s) && s'.answers == s.answers && s'.core == s.core && s'.used == s.used && s'.billing == s.billing
    requires s'.sent == s.sent
    ensures PaidOk(s')
    ensures GatewayOk(cfg, s) ==> GatewayOk(cfg, s')
    ensures OneMethodPerKey(cfg, s) ==> OneMethodPerKey(cfg, s')
  {
  }

  lemma InvKept(cfg: Config, s: State, step: Step)
    requires cfg.Valid() && Inv(cfg, s) && Enabled(cfg, s, step)
    ensures Inv(cfg, Do(cfg, s, step))
  {
    match step
    case Tick(now) => TickKeeps(cfg, s, now);
    case Attach(kind, token) => AttachKeeps(cfg, s, kind, token);
    case Resume => ResumeKeeps(cfg, s);
    case Expire => ExpireKeeps(cfg, s);
    case Claim(w) => ClaimKeeps(cfg, s, w);
    case Send(w) => SendKeeps(cfg, s, w);
    case Process(r, charged) => ProcessKeeps(cfg, s, r, charged);
    case Answer(w, outcome) => AnswerKeeps(cfg, s, w, outcome);
    case Record(w) =>
      if L.Holder(s.core, w) {
        HolderRecordKeeps(cfg, s, w);
      } else {
        StaleRecordIsQuiet(cfg, s, w);
      }
    case Crash(w) => CrashKeeps(cfg, s, w);
    case TakeActivation(_) => PublicationKeeps(cfg, s, step);
    case HandOver(_) => PublicationKeeps(cfg, s, step);
  }

  // ----- whole runs

  predicate Legal(cfg: Config, s: State, steps: seq<Step>)
    requires cfg.Valid()
    decreases |steps|
  {
    steps == [] || (Enabled(cfg, s, steps[0]) && Legal(cfg, Do(cfg, s, steps[0]), steps[1..]))
  }

  function Run(cfg: Config, s: State, steps: seq<Step>): State
    requires cfg.Valid() && Legal(cfg, s, steps)
    decreases |steps|
  {
    if steps == [] then s else Run(cfg, Do(cfg, s, steps[0]), steps[1..])
  }

  /** `s` is where these steps lead from the creation of the charge at `clock`. */
  ghost predicate Reaches(cfg: Config, clock: Instant, steps: seq<Step>, s: State)
    requires cfg.Valid()
  {
    Legal(cfg, Start(cfg, clock), steps) && Run(cfg, Start(cfg, clock), steps) == s
  }

  lemma {:induction false} InvAlways(cfg: Config, s: State, steps: seq<Step>)
    requires cfg.Valid() && Inv(cfg, s) && Legal(cfg, s, steps)
    ensures Inv(cfg, Run(cfg, s, steps))
    decreases |steps|
  {
    if steps != [] {
      InvKept(cfg, s, steps[0]);
      InvAlways(cfg, Do(cfg, s, steps[0]), steps[1..]);
    }
  }

  lemma ReachableInv(cfg: Config, clock: Instant, steps: seq<Step>, s: State)
    requires cfg.Valid() && Reaches(cfg, clock, steps, s)
    ensures Inv(cfg, s)
  {
    StartInv(cfg, clock);
    InvAlways(cfg, Start(cfg, clock), steps);
  }

  /** In a safe configuration every charged key is the current one: all the others were definitively declined. */
  lemma OnlyTheCurrentKeyIsCharged(cfg: Config, clock: Instant, steps: seq<Step>, s: State)
    requires cfg.Valid() && cfg.Safe() && Reaches(cfg, clock, steps, s)
    ensures forall k :: ChargedKey(s, k) ==> k == s.core.row.key
    ensures forall k :: k in s.used && k != s.core.row.key ==> Settled(s, k)
    ensures AtMostOneKeyCharged(s)
  {
    ReachableInv(cfg, clock, steps, s);
  }

  /** Only a payment method after a decline changes the key, and the new key was never used before. */
  lemma NewKeyOnlyAfterADecline(cfg: Config, clock: Instant, steps: seq<Step>, s: State, step: Step)
    requires cfg.Valid() && cfg.Safe() && Reaches(cfg, clock, steps, s) && Enabled(cfg, s, step)
    ensures var key' := Do(cfg, s, step).core.row.key;
            key' != s.core.row.key ==> step.Attach? && Settled(s, s.core.row.key) && key' !in s.used
  {
    ReachableInv(cfg, clock, steps, s);
    match step
    case Attach(kind, token) =>
      if s.core.row.status.Failed? {
        FreshKey(cfg, s);
      }
    case _ => KeyStays(cfg, s, step);
  }

  lemma KeyStays(cfg: Config, s: State, step: Step)
    requires cfg.Valid() && Enabled(cfg, s, step) && !step.Attach?
    ensures Do(cfg, s, step).core.row.key == s.core.row.key
  {
  }

  /** A policy means that the gateway charged the current key, whatever the gateway does with other bodies. */
  lemma PolicyOnlyIfCharged(cfg: Config, clock: Instant, steps: seq<Step>, s: State)
    requires cfg.Valid() && Reaches(cfg, clock, steps, s)
    ensures s.billing.activation.Some? <==> s.core.row.status.Confirmed?
    ensures s.billing.activation.Some? ==> ChargedKey(s, s.core.row.key)
  {
    ReachableInv(cfg, clock, steps, s);
  }

  /** Every instant the charge keeps was read from the clock since `from`. */
  ghost predicate ReadSince(s: State, from: Instant) {
    && from <= s.core.clock
    && (forall w :: w in s.core.workers && s.core.workers[w].Answered? ==> from <= s.core.workers[w].at <= s.core.clock)
    && (s.billing.activation.Some? ==> from <= s.billing.activation.value.activatedAt <= s.core.clock)
  }

  lemma ReadSinceKept(cfg: Config, s: State, step: Step, from: Instant)
    requires cfg.Valid() && ReadSince(s, from) && Enabled(cfg, s, step)
    ensures ReadSince(Do(cfg, s, step), from)
  {
    if step.Record? {
      RecordReads(cfg, s, step.w, from);
    }
  }

  lemma RecordReads(cfg: Config, s: State, w: nat, from: Instant)
    requires cfg.Valid() && ReadSince(s, from) && Enabled(cfg, s, Record(w))
    ensures ReadSince(RecordedBy(cfg, s, w), from)
  {
  }

  lemma {:induction false} ReadAlways(cfg: Config, s: State, steps: seq<Step>, from: Instant)
    requires cfg.Valid() && ReadSince(s, from) && Legal(cfg, s, steps)
    ensures ReadSince(Run(cfg, s, steps), from)
    decreases |steps|
  {
    if steps != [] {
      ReadSinceKept(cfg, s, steps[0], from);
      ReadAlways(cfg, Do(cfg, s, steps[0]), steps[1..], from);
    }
  }

  /**
   Over all retries and workers, what consumers receive is one event: that of the
   acceptance and its snapshot, activated during the run, and valid if the
   snapshot was valid at the start.
   */
  lemma OneEventIsPublished(cfg: Config, clock: Instant, steps: seq<Step>, s: State, e: CoverageActivated, e': CoverageActivated)
    requires cfg.Valid() && Reaches(cfg, clock, steps, s) && e in s.handed && e' in s.handed
    ensures e == e' && IsTheCoverOf(cfg.addMonths, cfg.acceptance, cfg.snapshot, e)
    ensures clock <= e.activatedAt <= s.core.clock
    ensures Lawful(cfg.addMonths) && ZERO_TIME < clock && ActivatesAt(cfg.addMonths, ChargeOf(cfg, Start(cfg, clock)), clock) ==> ValidEvent(e)
  {
    ReachableInv(cfg, clock, steps, s);
    ReadAlways(cfg, Start(cfg, clock), steps, clock);
    var c := ChargeOf(cfg, s);
    var at: Instant :| s.billing.activation.value == ActivationAt(cfg.addMonths, c, at);
    EventOfActivation(cfg.addMonths, c, at);
    if Lawful(cfg.addMonths) && ZERO_TIME < clock && ActivatesAt(cfg.addMonths, ChargeOf(cfg, Start(cfg, clock)), clock) {
      ValidAtOnceValidAlways(cfg.addMonths, ChargeOf(cfg, Start(cfg, clock)), clock, at);
    }
  }

  /** The event of a charge activated at any instant. */
  lemma EventOfActivation(addMonths: Calendar, c: Charge, at: Instant)
    requires c.billing.activation == Some(ActivationAt(addMonths, c, at))
    ensures IsTheCoverOf(addMonths, c.acceptance, c.snapshot, ActivationEvent(c)) && ActivationEvent(c).activatedAt == at
  {
  }

  /** Every stored charge is one the attach statement treats as the domain does. */
  lemma StoredChargeIsAttachable(cfg: Config, clock: Instant, steps: seq<Step>, s: State)
    requires cfg.Valid() && Reaches(cfg, clock, steps, s)
    ensures Attachable(ChargeOf(cfg, s))
  {
    ReachableInv(cfg, clock, steps, s);
  }

  // ----- the configuration that charges twice

  lemma {:induction false} RunAppend(cfg: Config, s: State, steps: seq<Step>, step: Step)
    requires cfg.Valid() && Legal(cfg, s, steps) && Enabled(cfg, Run(cfg, s, steps), step)
    ensures Legal(cfg, s, steps + [step])
    ensures Run(cfg, s, steps + [step]) == Do(cfg, Run(cfg, s, steps), step)
    decreases |steps|
  {
    if steps == [] {
      assert [step][1..] == [];
    } else {
      RunAppend(cfg, Do(cfg, s, steps[0]), steps[1..], step);
      assert (steps + [step])[1..] == steps[1..] + [step];
    }
  }

  lemma Extend(cfg: Config, steps: seq<Step>, s: State, step: Step) returns (steps': seq<Step>, s': State)
    requires cfg.Valid() && Reaches(cfg, 0, steps, s) && Enabled(cfg, s, step)
    ensures s' == Do(cfg, s, step) && Reaches(cfg, 0, steps', s')
  {
    RunAppend(cfg, Start(cfg, 0), steps, step);
    steps', s' := steps + [step], Do(cfg, s, step);
  }

  /** The next attempt of the charge is due after its window ended. */
  predicate DueTooLate(s: State) {
    var row := s.core.row;
    row.status.Pending? && row.nextAttemptAt.Some? && row.windowEndsAt.Some? && row.windowEndsAt.value < row.nextAttemptAt.value
  }

  /** In any run, only a method handed over after the window makes a charge due too late; no retry or resumption does. */
  lemma DueTooLateExactlyWhen(cfg: Config, clock: Instant, steps: seq<Step>, s: State, step: Step)
    requires cfg.Valid() && Reaches(cfg, clock, steps, s) && Enabled(cfg, s, step) && !DueTooLate(s)
    ensures DueTooLate(Do(cfg, s, step)) <==> step.Attach? && s.core.row.windowEndsAt.Some? && s.core.row.windowEndsAt.value < s.core.clock
  {
    if step.Record? {
      ReachableInv(cfg, clock, steps, s);
      L.InvKept(cfg.lease, s.core, L.Record(step.w));
      RecordIsInTime(cfg, s, step.w);
    }
  }

  lemma RecordIsInTime(cfg: Config, s: State, w: nat)
    requires cfg.Valid() && Enabled(cfg, s, Record(w)) && !DueTooLate(s) && L.WindowOk(cfg.lease, L.RecordOf(cfg.lease, s.core, w))
    ensures !DueTooLate(RecordedBy(cfg, s, w))
  {
  }

  /** Such a run exists: the charge waits for its first method past the window, and then gets one. */
  lemma LateMethodMissesTheWindow(cfg: Config) returns (steps: seq<Step>, s: State)
    requires cfg.Valid() && cfg.Windowed()
    ensures Reaches(cfg, 0, steps, s) && DueTooLate(s)
  {
    steps, s := Extend(cfg, [], Start(cfg, 0), Tick(cfg.lease.policy.window as int + 1));
    steps, s := Extend(cfg, steps, s, Attach(Card, "A"));
  }

  /** The charge failed for `reason`; its base key was charged with card A. */
  ghost predicate ChargedButFailed(cfg: Config, s: State, reason: ChargeReason, n: nat) {
    && s.core.row.status.Failed? && s.billing.reason == Some(reason) && s.billing.paymentAttempt == n
    && s.core.row.key == BaseKey(cfg.acceptance) && s.core.row.payload.Some?
    && s.core.workers == map[]
    && s.answers == map[BaseKey(cfg.acceptance) := Bound("A", true)]
    && (reason.PaymentRejected? || s.core.row.payload.value.token == "A")
  }

  /** A worker waits for the answer about card A, which the gateway already charged. */
  ghost predicate WaitingForCardA(cfg: Config, s: State) {
    var row := s.core.row;
    && row.status.InProgress? && row.claimedUntil.Some? && s.billing.paymentAttempt == 1
    && row.key == BaseKey(cfg.acceptance) && row.payload.Some? && row.payload.value.token == "A"
    && s.core.clock == 0 && row.windowEndsAt == WindowEnd(cfg.lease.policy, 0)
    && s.core.workers == map[0 := L.Calling(row)]
    && s.answers == map[row.key := Bound("A", true)]
  }

  lemma ChargeCardA(cfg: Config) returns (steps: seq<Step>, s: State)
    requires cfg.Valid()
    ensures Reaches(cfg, 0, steps, s) && WaitingForCardA(cfg, s)
  {
    steps, s := [], Start(cfg, 0);
    steps, s := Extend(cfg, steps, s, Attach(Card, "A"));
    steps, s := Extend(cfg, steps, s, Claim(0));
    steps, s := Extend(cfg, steps, s, Send(0));
    steps, s := Extend(cfg, steps, s, Process(Request(BaseKey(cfg.acceptance), "A"), true));
  }

  /** The answer is lost, and the window ends. */
  lemma LoseTheAnswer(cfg: Config, steps0: seq<Step>, s0: State) returns (steps: seq<Step>, s: State)
    requires cfg.Valid() && cfg.Windowed() && Reaches(cfg, 0, steps0, s0) && WaitingForCardA(cfg, s0)
    ensures Reaches(cfg, 0, steps, s) && ChargedButFailed(cfg, s, RetryWindowExpired, 1)
  {
    steps, s := Extend(cfg, steps0, s0, Tick(cfg.lease.policy.window as int));
    steps, s := Extend(cfg, steps, s, Answer(0, OutcomeAmbiguous));
    steps, s := Extend(cfg, steps, s, Record(0));
  }

  /** The same key is due again, now with card B. */
  ghost predicate DueWithCardB(cfg: Config, s: State) {
    && s.core.row.status.Pending? && s.core.row.nextAttemptAt == Some(s.core.clock) && s.billing.paymentAttempt == 2
    && s.core.row.key == BaseKey(cfg.acceptance) && TokenOf(s.core.row.payload) == "B" && s.core.row.payload.Some?
    && s.core.workers == map[]
    && s.answers == map[BaseKey(cfg.acceptance) := Bound("A", true)]
  }

  /** An analyst resumes and the customer hands over card B. */
  lemma ReplaceTheCard(cfg: Config, steps0: seq<Step>, s0: State) returns (steps: seq<Step>, s: State)
    requires cfg.Valid() && !cfg.guarded && Reaches(cfg, 0, steps0, s0) && ChargedButFailed(cfg, s0, RetryWindowExpired, 1)
    ensures Reaches(cfg, 0, steps, s) && DueWithCardB(cfg, s)
  {
    steps, s := Extend(cfg, steps0, s0, Resume);
    steps, s := Extend(cfg, steps, s, Attach(Card, "B"));
  }

  /** The gateway refuses the known key with another card, which the client takes for a decline. */
  lemma RefuseTheReplacement(cfg: Config, steps0: seq<Step>, s0: State) returns (steps: seq<Step>, s: State)
    requires cfg.Valid() && cfg.gateway.Refuses? && Reaches(cfg, 0, steps0, s0) && DueWithCardB(cfg, s0)
    ensures Reaches(cfg, 0, steps, s) && ChargedButFailed(cfg, s, PaymentRejected, 2)
  {
    steps, s := Extend(cfg, steps0, s0, Claim(0));
    steps, s := Extend(cfg, steps, s, Send(0));
    steps, s := Extend(cfg, steps, s, Answer(0, OutcomeRejected));
    steps, s := Extend(cfg, steps, s, Record(0));
  }

  /** Card C gets a new key, and the gateway charges it too. */
  lemma ChargeAgain(cfg: Config, steps0: seq<Step>, s0: State) returns (steps: seq<Step>, s: State)
    requires cfg.Valid() && Reaches(cfg, 0, steps0, s0) && ChargedButFailed(cfg, s0, PaymentRejected, 2)
    ensures Reaches(cfg, 0, steps, s) && !AtMostOneKeyCharged(s)
  {
    var second := ChargeKeyFor(cfg.acceptance, 3);
    KeysOfOneAcceptance(cfg.acceptance, 1, 3);
    steps, s := Extend(cfg, steps0, s0, Attach(Card, "C"));
    steps, s := Extend(cfg, steps, s, Claim(0));
    steps, s := Extend(cfg, steps, s, Send(0));
    steps, s := Extend(cfg, steps, s, Process(Request(second, "C"), true));
    assert ChargedKey(s, BaseKey(cfg.acceptance)) && ChargedKey(s, second);
  }

  /** A request for card A is on its way, and the worker that sent it is gone. */
  ghost predicate LostRequest(cfg: Config, s: State) {
    && s.core.row.key == BaseKey(cfg.acceptance) && s.billing.paymentAttempt == 1 && s.core.row.payload.Some?
    && s.core.row.payload.value.token == "A" && s.core.workers == map[] && s.answers == map[]
    && s.sent == {Request(BaseKey(cfg.acceptance), "A")}
  }

  lemma LoseTheRequest(cfg: Config) returns (steps: seq<Step>, s: State)
    requires cfg.Valid()
    ensures Reaches(cfg, 0, steps, s) && LostRequest(cfg, s)
    ensures s.core.row.status.InProgress? && s.core.row.claimedUntil == Some(cfg.lease.lease) && s.core.clock == 0
  {
    steps, s := Extend(cfg, [], Start(cfg, 0), Attach(Card, "A"));
    steps, s := Extend(cfg, steps, s, Claim(0));
    steps, s := Extend(cfg, steps, s, Send(0));
    steps, s := Extend(cfg, steps, s, Crash(0));
  }

  /** Another worker sends it again and gets a final error that the gateway keeps for no key. */
  lemma RejectUnbound(cfg: Config, steps0: seq<Step>, s0: State) returns (steps: seq<Step>, s: State)
    requires cfg.Valid() && !cfg.binding && Reaches(cfg, 0, steps0, s0) && LostRequest(cfg, s0)
    requires s0.core.row.status.InProgress? && s0.core.row.claimedUntil == Some(cfg.lease.lease) && s0.core.clock == 0
    ensures Reaches(cfg, 0, steps, s) && LostRequest(cfg, s)
    ensures s.core.row.status.Failed? && s.billing.reason == Some(PaymentRejected)
  {
    steps, s := Extend(cfg, steps0, s0, Tick(cfg.lease.lease + 1));
    steps, s := Extend(cfg, steps, s, Claim(1));
    steps, s := Extend(cfg, steps, s, Send(1));
    steps, s := Extend(cfg, steps, s, Answer(1, OutcomeRejected));
    steps, s := Extend(cfg, steps, s, Record(1));
  }

  /** Card B gets a new key and is charged; then the request for card A arrives. */
  lemma ChargeBoth(cfg: Config, steps0: seq<Step>, s0: State) returns (steps: seq<Step>, s: State)
    requires cfg.Valid() && Reaches(cfg, 0, steps0, s0) && LostRequest(cfg, s0)
    requires s0.core.row.status.Failed? && s0.billing.reason == Some(PaymentRejected)
    ensures Reaches(cfg, 0, steps, s) && !AtMostOneKeyCharged(s)
  {
    var base, second := BaseKey(cfg.acceptance), ChargeKeyFor(cfg.acceptance, 2);
    KeysOfOneAcceptance(cfg.acceptance, 1, 2);
    steps, s := Extend(cfg, steps0, s0, Attach(Card, "B"));
    steps, s := Extend(cfg, steps, s, Claim(0));
    steps, s := Extend(cfg, steps, s, Send(0));
    steps, s := Extend(cfg, steps, s, Process(Request(second, "B"), true));
    steps, s := Extend(cfg, steps, s, Process(Request(base, "A"), true));
    assert ChargedKey(s, base) && ChargedKey(s, second);
  }

  /** No run of this configuration charges two keys of the acceptance. */
  ghost predicate NeverChargesTwice(cfg: Config)
    requires cfg.Valid()
  {
    forall clock: Instant, steps: seq<Step>, s: State :: Reaches(cfg, clock, steps, s) ==> AtMostOneKeyCharged(s)
  }

  /**
   The no-duplicate guarantee of the premium holds exactly when every rejection is
   bound to its key and, besides, the gateway replays its stored answer, or a
   resumed charge takes no other method under its old key, or the retries have no
   window to run out of.
   */
  lemma NeverChargesTwiceExactlyWhenSafe(cfg: Config)
    requires cfg.Valid()
    ensures NeverChargesTwice(cfg) <==> cfg.Safe()
  {
    if cfg.Safe() {
      forall clock: Instant, steps: seq<Step>, s: State | Reaches(cfg, clock, steps, s)
        ensures AtMostOneKeyCharged(s)
      {
        OnlyTheCurrentKeyIsCharged(cfg, clock, steps, s);
      }
    } else if !cfg.binding {
      var steps, s := LoseTheRequest(cfg);
      steps, s := RejectUnbound(cfg, steps, s);
      steps, s := ChargeBoth(cfg, steps, s);
    } else {
      var steps, s := ChargeCardA(cfg);
      steps, s := LoseTheAnswer(cfg, steps, s);
      steps, s := ReplaceTheCard(cfg, steps, s);
      steps, s := RefuseTheReplacement(cfg, steps, s);
      steps, s := ChargeAgain(cfg, steps, s);
    }
  }

  // ----- single runs of the code as written

  /** Every method attached to a pending charge in the run replaces one that no analyst has resumed since. */
  predicate Careful(cfg: Config, s: State, steps: seq<Step>)
    requires cfg.Valid() && Legal(cfg, s, steps)
    decreases |steps|
  {
    steps == [] ||
    ((steps[0].Attach? && s.core.row.status.Pending? ==> !ResumedSinceCapture(ChargeOf(cfg, s))) &&
     Careful(cfg, Do(cfg, s, steps[0]), steps[1..]))
  }

  lemma {:induction false} CarefulIsGuarded(cfg: Config, s: State, steps: seq<Step>)
    requires cfg.Valid() && Legal(cfg, s, steps) && Careful(cfg, s, steps)
    ensures var g := cfg.(guarded := true); Legal(g, s, steps) && Run(g, s, steps) == Run(cfg, s, steps)
    decreases |steps|
  {
    if steps != [] {
      CarefulIsGuarded(cfg, Do(cfg, s, steps[0]), steps[1..]);
    }
  }

  /** A run in which no resumed charge is given another method before its old key is settled charges one key at most. */
  lemma CarefulRunChargesOnce(cfg: Config, clock: Instant, steps: seq<Step>)
    requires cfg.Valid() && cfg.binding && Legal(cfg, Start(cfg, clock), steps) && Careful(cfg, Start(cfg, clock), steps)
    ensures AtMostOneKeyCharged(Run(cfg, Start(cfg, clock), steps))
  {
    var g, s0 := cfg.(guarded := true), Start(cfg, clock);
    CarefulIsGuarded(cfg, s0, steps);
    OnlyTheCurrentKeyIsCharged(g, clock, steps, Run(cfg, s0, steps));
  }
}
