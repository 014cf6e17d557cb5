/**
 Every run of a claim from its evaluation to its indemnity: racing analysts,
 any number of payout workers, a gateway that may process a request late, lost
 answers, crashes, and manual retries that may correct the destination
 (services/claims/internal/decision/worker.go, ports/decision.go).
 */
module PayoutProtocol {
  import opened Common
  import opened Retry
  import opened Lease
  import L = LeaseProtocol
  import opened Decisions

  const MAX_AUTOMATIC_ATTEMPTS: nat := 3

  /** What the gateway answers to a paid key with another destination: the payout it made, or a refusal. */
  datatype Gateway = Replays | Refuses

  datatype Outcome = OutcomeOfApproval | OutcomeOfRejection

  datatype Config = Config(lease: Lease.Config, gateway: Gateway, claim: string) {
    predicate Valid() {
      lease.Valid() && lease.cap == Some(MAX_AUTOMATIC_ATTEMPTS)
    }
  }

  datatype Request = Request(key: string, account: Account)

  /**
   `decisions` are the decisions stored for the claim, `sent` the requests that
   left, `paid` what the gateway keeps for each key it paid (a rejection binds
   nothing) and `disbursed` the payments it really made, oldest first.
   */
  datatype State = State(
    status: ClaimStatus,
    decisions: seq<Outcome>,
    core: Option<L.State<Account>>,
    sent: set<Request>,
    paid: map<string, Account>,
    disbursed: seq<Account>)

  datatype Step =
    | Approve(at: Instant, account: Account)
    | Reject
    | Tick(now: Instant)
    | Claim(w: nat)
    | Send(w: nat)
    | Process(request: Request, accepted: bool)
    | Answer(w: nat, outcome: Lease.Outcome)
    | Record(w: nat)
    | Crash(w: nat)
    | Retry(destination: Option<Account>)

  function RequestOf(rec: Attempt<Account>): Request {
    Request(rec.key, rec.payload)
  }

  /** A confirmation comes from a payment of the key; a rejection of a sent request may have been given at any time. */
  predicate CanAnswer(cfg: Config, s: State, rec: Attempt<Account>, outcome: Lease.Outcome) {
    && (outcome.OutcomeConfirmed? ==>
          RequestOf(rec) in s.sent && ConfirmsPayment(cfg, s, rec))
    && (outcome.OutcomeRejected? ==> RequestOf(rec) in s.sent)
  }

  predicate Enabled(cfg: Config, s: State, step: Step) {
    match step
    case Approve(_, _) => Decidable(s.status)
    case Reject => Decidable(s.status)
    case Process(request, _) => request in s.sent
    case _ =>
      s.core.Some? &&
      var c := s.core.value;
      match step
      case Tick(now) => c.clock <= now
      case Claim(w) => w !in c.workers && Claimable(c.row, c.clock)
      case Send(w) => w in c.workers && c.workers[w].Calling?
      case Answer(w, outcome) => w in c.workers && c.workers[w].Calling? && CanAnswer(cfg, s, c.workers[w].rec, outcome)
      case Record(w) => w in c.workers && c.workers[w].Answered?
      case Crash(w) => w in c.workers
      case Retry(_) => c.row.status.Failed?
      case _ => false
  }

  /** The lease-protocol step behind a step of the payout, if any. */
  function CoreStep(c: L.State<Account>, step: Step): Option<L.Step<Account>> {
    match step
    case Tick(now) => Some(L.Tick(now))
    case Claim(w) => Some(L.Claim(w))
    case Answer(w, outcome) => Some(L.Answer(w, outcome))
    case Record(w) => Some(L.Record(w))
    case Crash(w) => Some(L.Crash(w))
    case Retry(destination) => Some(L.Requeue(Retried(c.row, destination, c.clock)))
    case _ => None
  }

  /** Every write to the payout moves the claim in the same statement. */
  function Moved(cfg: Config, s: State, step: L.Step<Account>): State
    requires cfg.Valid() && s.core.Some? && L.Enabled(cfg.lease, s.core.value, step)
  {
    var c := L.Do(cfg.lease, s.core.value, step);
    s.(core := Some(c), status := if c.row.status == s.core.value.row.status then s.status else ClaimStatusOf(c.row))
  }

  function Do(cfg: Config, s: State, step: Step): State
    requires cfg.Valid() && Enabled(cfg, s, step)
  {
    match step
    case Approve(at, account) =>
      s.(status := ApprovedClaim, decisions := s.decisions + [OutcomeOfApproval],
         core := Some(L.State(at, NewPayout(cfg.claim, account, at), map[], [], [], None, false)))
    case Reject => s.(status := RejectedClaim, decisions := s.decisions + [OutcomeOfRejection])
    case Send(w) => s.(sent := s.sent + {RequestOf(s.core.value.workers[w].rec)})
    case Process(r, accepted) =>
      if r.key in s.paid || !accepted then s else s.(paid := s.paid[r.key := r.account], disbursed := s.disbursed + [r.account])
    case _ => Moved(cfg, s, CoreStep(s.core.value, step).value)
  }

  predicate Start(s: State) {
    && Decidable(s.status) && s.decisions == [] && s.core.None?
    && s.sent == {} && s.paid == map[] && s.disbursed == []
  }

  // ----- what every step keeps

  predicate DecisionOk(s: State) {
    if s.decisions == [] then Decidable(s.status) && s.core.None? && s.sent == {} && s.paid == map[]
    else if s.decisions == [OutcomeOfRejection] then s.status.RejectedClaim? && s.core.None? && s.sent == {} && s.paid == map[]
    else
      && s.decisions == [OutcomeOfApproval] && s.core.Some? && s.status == ClaimStatusOf(s.core.value.row)
      && (s.core.value.row.status.Pending? ==> s.core.value.row.nextAttemptAt.Some?)
  }

  /** Every request of the claim carries its one key, so no other key is ever paid. */
  ghost predicate KeyOk(cfg: Config, s: State) {
    var key := PayoutKey(cfg.claim);
    && (forall r :: r in s.sent ==> r.key == key)
    && (s.core.Some? ==>
          && s.core.value.row.key == key && s.core.value.row.windowEndsAt.None?
          && (forall w :: w in s.core.value.workers ==> s.core.value.workers[w].rec.key == key))
    && (forall k :: k in s.paid ==> k == key)
    && s.disbursed == (if key in s.paid then [s.paid[key]] else [])
  }

  /** A confirmation in hand, or recorded, means money moved; a refusing gateway moved it where the row says. */
  ghost predicate PaidOk(cfg: Config, s: State) {
    s.core.Some? ==>
      && (s.core.value.row.status.Confirmed? ==> ConfirmsPayment(cfg, s, s.core.value.row))
      && (forall w :: w in s.core.value.workers ==> AnswerOk(cfg, s, s.core.value.workers[w]))
  }

  predicate ConfirmsPayment(cfg: Config, s: State, rec: Attempt<Account>) {
    rec.key in s.paid && (cfg.gateway.Refuses? ==> s.paid[rec.key] == rec.payload)
  }

  predicate AnswerOk(cfg: Config, s: State, p: L.Phase<Account>) {
    p.Answered? && p.outcome.OutcomeConfirmed? ==> ConfirmsPayment(cfg, s, p.rec)
  }

  ghost predicate Inv(cfg: Config, s: State)
    requires cfg.Valid()
  {
    DecisionOk(s) && KeyOk(cfg, s) && PaidOk(cfg, s) && (s.core.Some? ==> L.Inv(cfg.lease, s.core.value))
  }

  lemma MovedKeepsDecisionAndKey(cfg: Config, s: State, step: Step)
    requires cfg.Valid() && DecisionOk(s) && KeyOk(cfg, s) && Enabled(cfg, s, step) && s.core.Some?
    requires CoreStep(s.core.value, step).Some?
    ensures DecisionOk(Do(cfg, s, step)) && KeyOk(cfg, Do(cfg, s, step))
  {
  }

  lemma MovedKeepsPaid(cfg: Config, s: State, step: Step)
    requires cfg.Valid() && Inv(cfg, s) && Enabled(cfg, s, step) && s.core.Some?
    requires CoreStep(s.core.value, step).Some?
    ensures PaidOk(cfg, Do(cfg, s, step))
  {
    var s' := Do(cfg, s, step);
    var c, c' := s.core.value, s'.core.value;
    forall w | w in c'.workers
      ensures AnswerOk(cfg, s', c'.workers[w])
    {
      assert w in c.workers ==> AnswerOk(cfg, s, c.workers[w]);
    }
    if step.Record? {
      assert AnswerOk(cfg, s, c.workers[step.w]);
      assert L.HeldOrExpired(cfg.lease, c, step.w);
    }
  }

  lemma InvKept(cfg: Config, s: State, step: Step)
    requires cfg.Valid() && Inv(cfg, s) && Enabled(cfg, s, step)
    ensures Inv(cfg, Do(cfg, s, step))
  {
    match step
    case Approve(_, _) => DecisionKeeps(cfg, s, step);
    case Reject => DecisionKeeps(cfg, s, step);
    case Send(w) => GatewayKeeps(cfg, s, step);
    case Process(_, _) => GatewayKeeps(cfg, s, step);
    case _ =>
      L.InvKept(cfg.lease, s.core.value, CoreStep(s.core.value, step).value);
      MovedKeepsDecisionAndKey(cfg, s, step);
      MovedKeepsPaid(cfg, s, step);
  }

  lemma DecisionKeeps(cfg: Config, s: State, step: Step)
    requires cfg.Valid() && Inv(cfg, s) && Enabled(cfg, s, step) && (step.Approve? || step.Reject?)
    ensures Inv(cfg, Do(cfg, s, step))
  {
    var s' := Do(cfg, s, step);
    assert s.decisions == [] && |s'.decisions| == 1;
    assert s'.decisions[0] == (if step.Approve? then OutcomeOfApproval else OutcomeOfRejection);
    if step.Approve? {
      L.InitInv(cfg.lease, s'.core.value);
    }
  }

  lemma GatewayKeeps(cfg: Config, s: State, step: Step)
    requires cfg.Valid() && Inv(cfg, s) && Enabled(cfg, s, step) && (step.Send? || step.Process?)
    ensures Inv(cfg, Do(cfg, s, step))
  {
  }

  // ----- whole runs

  predicate Legal(cfg: Config, s: State, steps: seq<Step>)
    requires cfg.Valid()
    decreases |steps|
  {
    steps == [] || (Enabled(cfg, s, steps[0]) && Legal(cfg, Do(cfg, s, steps[0]), steps[1..]))
  }

  function Run(cfg: Config, s: State, steps: seq<Step>): State
    requires cfg.Valid() && Legal(cfg, s, steps)
    decreases |steps|
  {
    if steps == [] then s else Run(cfg, Do(cfg, s, steps[0]), steps[1..])
  }

  lemma {:induction false} InvAlways(cfg: Config, s: State, steps: seq<Step>)
    requires cfg.Valid() && Inv(cfg, s) && Legal(cfg, s, steps)
    ensures Inv(cfg, Run(cfg, s, steps))
    decreases |steps|
  {
    if steps != [] {
      InvKept(cfg, s, steps[0]);
      InvAlways(cfg, Do(cfg, s, steps[0]), steps[1..]);
    }
  }

  /**
   Over every run: one decision at most, one disbursement at most (because every
   request carries the key of the claim), at most three failures in a round, and
   a claim shown as paid was disbursed.
   */
  lemma OneDecisionOneDisbursement(cfg: Config, s: State, steps: seq<Step>)
    requires cfg.Valid() && Start(s) && Legal(cfg, s, steps)
    ensures var e := Run(cfg, s, steps);
            && |e.decisions| <= 1 && |e.disbursed| <= 1
            && (e.core.Some? ==> |e.core.value.failures| <= MAX_AUTOMATIC_ATTEMPTS)
            && (e.status.PaidClaim? ==> |e.disbursed| == 1)
            && (forall r :: r in e.sent ==> r.key == PayoutKey(cfg.claim))
            && (e.core.Some? ==> e.status == ClaimStatusOf(e.core.value.row) && e.core.value.row.key == PayoutKey(cfg.claim))
  {
    InvAlways(cfg, s, steps);
  }

  // ----- where the money goes

  /** The step names the account: the one of the approval, or a correction. */
  predicate Names(step: Step, account: Account) {
    (step.Approve? && step.account == account) || (step.Retry? && step.destination == Some(account))
  }

  predicate NamedIn(steps: seq<Step>, account: Account) {
    exists i :: 0 <= i < |steps| && Names(steps[i], account)
  }

  /** Whatever is stored, held, sent or paid goes to one of the accounts. */
  ghost predicate GoesTo(s: State, accounts: iset<Account>) {
    && (s.core.Some? ==>
          && s.core.value.row.payload in accounts
          && (forall w :: w in s.core.value.workers ==> s.core.value.workers[w].rec.payload in accounts))
    && (forall r :: r in s.sent ==> r.account in accounts)
    && (forall k :: k in s.paid ==> s.paid[k] in accounts)
    && (forall a :: a in s.disbursed ==> a in accounts)
  }

  lemma GoesToKept(cfg: Config, s: State, step: Step, accounts: iset<Account>)
    requires cfg.Valid() && GoesTo(s, accounts) && Enabled(cfg, s, step) && forall a :: Names(step, a) ==> a in accounts
    ensures GoesTo(Do(cfg, s, step), accounts)
  {
    assert step.Approve? ==> Names(step, step.account);
    assert step.Retry? && step.destination.Some? ==> Names(step, step.destination.value);
  }

  lemma {:induction false} GoesToAlways(cfg: Config, s: State, steps: seq<Step>, accounts: iset<Account>)
    requires cfg.Valid() && GoesTo(s, accounts) && Legal(cfg, s, steps) && forall a :: NamedIn(steps, a) ==> a in accounts
    ensures GoesTo(Run(cfg, s, steps), accounts)
    decreases |steps|
  {
    if steps != [] {
      forall a
        ensures Names(steps[0], a) ==> NamedIn(steps, a)
        ensures NamedIn(steps[1..], a) ==> NamedIn(steps, a)
      {
      }
      GoesToKept(cfg, s, steps[0], accounts);
      GoesToAlways(cfg, Do(cfg, s, steps[0]), steps[1..], accounts);
    }
  }

  /** In every run, money goes only to an account that its approval or a correction named. */
  lemma PaidOnlyWhereNamed(cfg: Config, s: State, steps: seq<Step>, account: Account)
    requires cfg.Valid() && Start(s) && Legal(cfg, s, steps) && account in Run(cfg, s, steps).disbursed
    ensures NamedIn(steps, account)
  {
    GoesToAlways(cfg, s, steps, iset a | NamedIn(steps, a));
  }

  /** The payout that an approval carries is the one its run starts with. */
  lemma ApprovalStartsThePayout(cfg: Config, s: State, cov: CoverageTerms, account: Account, grossMinor: int, at: Instant)
    requires cfg.Valid() && Enabled(cfg, s, Approve(at, account)) && Decisions.Approve(cfg.claim, cov, account, grossMinor, at).Approved?
    ensures var c := Do(cfg, s, Approve(at, account)).core;
            c.Some? && c.value.row == Decisions.Approve(cfg.claim, cov, account, grossMinor, at).approval.payout && L.Init(c.value)
  {
  }

  /** A decided claim keeps its decision and a paid one stays paid, whatever happens next. */
  lemma {:induction false} PaidIsAbsorbing(cfg: Config, s: State, steps: seq<Step>)
    requires cfg.Valid() && Inv(cfg, s) && Legal(cfg, s, steps) && s.status.PaidClaim?
    ensures var e := Run(cfg, s, steps);
            e.status.PaidClaim? && e.decisions == s.decisions && e.disbursed == s.disbursed
    decreases |steps|
  {
    if steps != [] {
      InvKept(cfg, s, steps[0]);
      PaidStaysPaid(cfg, s, steps[0]);
      PaidIsAbsorbing(cfg, Do(cfg, s, steps[0]), steps[1..]);
    }
  }

  lemma PaidStaysPaid(cfg: Config, s: State, step: Step)
    requires cfg.Valid() && Inv(cfg, s) && Enabled(cfg, s, step) && s.status.PaidClaim?
    ensures var s' := Do(cfg, s, step);
            s'.status.PaidClaim? && s'.decisions == s.decisions && s'.disbursed == s.disbursed
  {
  }

  /** Only an approval of a claim in evaluation, or the retry of a payment exception, leads to approved. */
  lemma WaysToApproved(cfg: Config, s: State, step: Step)
    requires cfg.Valid() && Inv(cfg, s) && Enabled(cfg, s, step)
    ensures !s.status.ApprovedClaim? && Do(cfg, s, step).status.ApprovedClaim? ==>
              (step.Approve? && Decidable(s.status)) || (step.Retry? && s.status.PaymentException?)
  {
  }

  // ----- a correction of the destination, and a payment that arrives late

  /** `steps` lead from `s` to `s'`. */
  ghost predicate Path(cfg: Config, s: State, steps: seq<Step>, s': State)
    requires cfg.Valid()
  {
    Legal(cfg, s, steps) && Run(cfg, s, steps) == s'
  }

  /** No manual retry of these steps corrects the destination. */
  predicate SameDestination(steps: seq<Step>) {
    forall i :: 0 <= i < |steps| ==> steps[i].Retry? ==> steps[i].destination.None?
  }

  lemma {:induction false} RunAppend(cfg: Config, s: State, steps: seq<Step>, step: Step)
    requires cfg.Valid() && Legal(cfg, s, steps) && Enabled(cfg, Run(cfg, s, steps), step)
    ensures Legal(cfg, s, steps + [step])
    ensures Run(cfg, s, steps + [step]) == Do(cfg, Run(cfg, s, steps), step)
    decreases |steps|
  {
    if steps == [] {
      assert [step][1..] == [];
    } else {
      RunAppend(cfg, Do(cfg, s, steps[0]), steps[1..], step);
      assert (steps + [step])[1..] == steps[1..] + [step];
    }
  }

  lemma Extend(cfg: Config, s0: State, steps: seq<Step>, s: State, step: Step) returns (steps': seq<Step>, s': State)
    requires cfg.Valid() && Path(cfg, s0, steps, s) && Enabled(cfg, s, step)
    ensures s' == Do(cfg, s, step) && Path(cfg, s0, steps', s')
    ensures SameDestination(steps) && (step.Retry? ==> step.destination.None?) ==> SameDestination(steps')
  {
    RunAppend(cfg, s0, steps, step);
    steps', s' := steps + [step], Do(cfg, s, step);
  }

  /** The gateway paid the claim to an account that is not the one its payout names. */
  predicate PaidElsewhere(s: State) {
    s.core.Some? && s.core.value.row.key in s.paid && s.paid[s.core.value.row.key] != s.core.value.row.payload
  }

  const ACCOUNT_A := Account("001", "100001")
  const ACCOUNT_B := Account("002", "200002")

  const OPENED := State(InEvaluation, [], None, {}, map[], [])

  /** The payout to account A is due after `k` failed attempts, whose requests are on their way; nothing is paid. */
  ghost predicate AwaitsA(cfg: Config, s: State, k: nat) {
    && s.core.Some? && s.core.value.workers == map[] && s.paid == map[]
    && var row := s.core.value.row;
    && row.key == PayoutKey(cfg.claim) && row.payload == ACCOUNT_A
    && row.status.Pending? && row.failedAttempts == k && row.windowEndsAt.None? && row.nextAttemptAt.Some?
    && (0 < k ==> Request(PayoutKey(cfg.claim), ACCOUNT_A) in s.sent)
  }

  /** A worker sends the request; it is on its way and nothing is heard of it. */
  lemma SendToA(cfg: Config, steps0: seq<Step>, s0: State, k: nat) returns (steps: seq<Step>, s: State)
    requires cfg.Valid() && Path(cfg, OPENED, steps0, s0) && AwaitsA(cfg, s0, k)
    ensures Path(cfg, OPENED, steps, s) && s.paid == map[] && s.core.Some? && Request(PayoutKey(cfg.claim), ACCOUNT_A) in s.sent
    ensures var c := s.core.value;
            && c.workers == map[0 := L.Calling(c.row)] && c.row.status.InProgress? && c.row.claimedUntil.Some?
            && c.row.key == PayoutKey(cfg.claim) && c.row.payload == ACCOUNT_A && c.row.failedAttempts == k && c.row.windowEndsAt.None?
  {
    var c := s0.core.value;
    steps, s := Extend(cfg, OPENED, steps0, s0, Tick(Max(c.clock, c.row.nextAttemptAt.value)));
    steps, s := Extend(cfg, OPENED, steps, s, Claim(0));
    steps, s := Extend(cfg, OPENED, steps, s, Send(0));
  }

  /** An ambiguous answer counts one failure; the third one ends the round. */
  lemma NoAnswer(cfg: Config, steps0: seq<Step>, s0: State, k: nat) returns (steps: seq<Step>, s: State)
    requires cfg.Valid() && k < MAX_AUTOMATIC_ATTEMPTS && Path(cfg, OPENED, steps0, s0) && s0.paid == map[] && s0.core.Some?
    requires Request(PayoutKey(cfg.claim), ACCOUNT_A) in s0.sent
    requires var c := s0.core.value;
             && c.workers == map[0 := L.Calling(c.row)] && c.row.status.InProgress? && c.row.claimedUntil.Some?
             && c.row.key == PayoutKey(cfg.claim) && c.row.payload == ACCOUNT_A && c.row.failedAttempts == k && c.row.windowEndsAt.None?
    ensures Path(cfg, OPENED, steps, s)
    ensures if k + 1 < MAX_AUTOMATIC_ATTEMPTS then AwaitsA(cfg, s, k + 1) else GivenUpOnA(cfg, s)
  {
    steps, s := Extend(cfg, OPENED, steps0, s0, Answer(0, OutcomeAmbiguous));
    steps, s := Extend(cfg, OPENED, steps, s, Record(0));
  }

  /** A payment exception, with requests to account A still on their way. */
  ghost predicate GivenUpOnA(cfg: Config, s: State) {
    && s.core.Some? && s.core.value.workers == map[] && s.paid == map[]
    && s.core.value.row.status.Failed? && s.core.value.row.key == PayoutKey(cfg.claim)
    && Request(PayoutKey(cfg.claim), ACCOUNT_A) in s.sent
  }

  lemma GiveUpOnA(cfg: Config) returns (steps: seq<Step>, s: State)
    requires cfg.Valid()
    ensures Path(cfg, OPENED, steps, s) && GivenUpOnA(cfg, s)
  {
    steps, s := Extend(cfg, OPENED, [], OPENED, Approve(0, ACCOUNT_A));
    for k := 0 to MAX_AUTOMATIC_ATTEMPTS
      invariant Path(cfg, OPENED, steps, s)
      invariant if k < MAX_AUTOMATIC_ATTEMPTS then AwaitsA(cfg, s, k) else GivenUpOnA(cfg, s)
    {
      steps, s := SendToA(cfg, steps, s, k);
      steps, s := NoAnswer(cfg, steps, s, k);
    }
  }

  /** The analyst corrects the destination to B; then the gateway processes a request to A. */
  lemma PayTheOldAccount(cfg: Config) returns (steps: seq<Step>, s: State)
    requires cfg.Valid()
    ensures Path(cfg, OPENED, steps, s) && PaidElsewhere(s)
    ensures s.core.value.row.status.Pending? && Claimable(s.core.value.row, s.core.value.clock) && s.core.value.workers == map[]
  {
    steps, s := GiveUpOnA(cfg);
    steps, s := Extend(cfg, OPENED, steps, s, Retry(Some(ACCOUNT_B)));
    steps, s := Extend(cfg, OPENED, steps, s, Process(Request(PayoutKey(cfg.claim), ACCOUNT_A), true));
  }

  /** The payout that a worker claims, sends and sees confirmed ends as paid. */
  lemma Settle(cfg: Config, s0: State, steps0: seq<Step>, t: State) returns (steps: seq<Step>, s: State)
    requires cfg.Valid() && cfg.gateway.Replays? && Path(cfg, s0, steps0, t)
    requires t.core.Some? && t.core.value.row.key in t.paid && Claimable(t.core.value.row, t.core.value.clock) && 0 !in t.core.value.workers
    ensures Path(cfg, s0, steps, s) && s.status.PaidClaim? && s.paid == t.paid
    ensures s.core.Some? && s.core.value.row.payload == t.core.value.row.payload && s.core.value.row.key == t.core.value.row.key
    ensures SameDestination(steps0) ==> SameDestination(steps)
  {
    steps, s := Extend(cfg, s0, steps0, t, Claim(0));
    steps, s := Extend(cfg, s0, steps, s, Send(0));
    steps, s := Confirm(cfg, s0, steps, s);
  }

  lemma Confirm(cfg: Config, s0: State, steps0: seq<Step>, t: State) returns (steps: seq<Step>, s: State)
    requires cfg.Valid() && cfg.gateway.Replays? && Path(cfg, s0, steps0, t) && t.core.Some? && t.core.value.row.key in t.paid
    requires t.core.value.row.status.InProgress? && t.core.value.row.claimedUntil.Some? && RequestOf(t.core.value.row) in t.sent
    requires 0 in t.core.value.workers && t.core.value.workers[0] == L.Calling(t.core.value.row)
    ensures Path(cfg, s0, steps, s) && s.status.PaidClaim? && s.paid == t.paid
    ensures s.core.Some? && s.core.value.row.payload == t.core.value.row.payload && s.core.value.row.key == t.core.value.row.key
    ensures SameDestination(steps0) ==> SameDestination(steps)
  {
    steps, s := Extend(cfg, s0, steps0, t, Answer(0, OutcomeConfirmed));
    steps, s := Extend(cfg, s0, steps, s, Record(0));
  }

  /** No run shows a claim as paid to an account other than the one that got the money. */
  ghost predicate NeverMisrecords(cfg: Config)
    requires cfg.Valid()
  {
    forall s0, steps, s :: Start(s0) && Path(cfg, s0, steps, s) && s.status.PaidClaim? ==> !PaidElsewhere(s)
  }

  /** From any state of any run, a claim whose money left can still be shown as paid without changing its destination. */
  ghost predicate AlwaysSettles(cfg: Config)
    requires cfg.Valid()
  {
    forall s0, steps, s :: Start(s0) && Path(cfg, s0, steps, s) && s.disbursed != [] ==> CanSettle(cfg, s)
  }

  ghost predicate CanSettle(cfg: Config, s: State)
    requires cfg.Valid()
  {
    exists more, s' :: Path(cfg, s, more, s') && SameDestination(more) && s'.status.PaidClaim?
  }

  /** The record of a paid claim names the right account exactly when the gateway refuses a key it paid elsewhere. */
  lemma NeverMisrecordsExactlyWhenRefusing(cfg: Config)
    requires cfg.Valid()
    ensures NeverMisrecords(cfg) <==> cfg.gateway.Refuses?
  {
    if cfg.gateway.Refuses? {
      forall s0, steps, s | Start(s0) && Path(cfg, s0, steps, s) && s.status.PaidClaim?
        ensures !PaidElsewhere(s)
      {
        InvAlways(cfg, s0, steps);
      }
    } else {
      var steps, s := PayTheOldAccount(cfg);
      steps, s := Settle(cfg, OPENED, steps, s);
    }
  }

  /** With a refusing gateway, a payment made elsewhere stays unconfirmed until an analyst restores that very account. */
  lemma StaysStranded(cfg: Config, s: State, step: Step)
    requires cfg.Valid() && cfg.gateway.Refuses? && Inv(cfg, s) && Enabled(cfg, s, step)
    requires PaidElsewhere(s) && !s.status.PaidClaim?
    requires step.Retry? ==> step.destination != Some(s.paid[s.core.value.row.key])
    ensures var s' := Do(cfg, s, step);
            PaidElsewhere(s') && !s'.status.PaidClaim? && s'.paid == s.paid && s'.core.value.row.key == s.core.value.row.key
  {
  }

  lemma {:induction false} StrandedAlways(cfg: Config, s: State, steps: seq<Step>)
    requires cfg.Valid() && cfg.gateway.Refuses? && Inv(cfg, s) && Legal(cfg, s, steps)
    requires PaidElsewhere(s) && !s.status.PaidClaim?
    requires forall i :: 0 <= i < |steps| ==> steps[i].Retry? ==> steps[i].destination != Some(s.paid[s.core.value.row.key])
    ensures var e := Run(cfg, s, steps); PaidElsewhere(e) && !e.status.PaidClaim? && e.paid == s.paid
    decreases |steps|
  {
    if steps != [] {
      InvKept(cfg, s, steps[0]);
      StaysStranded(cfg, s, steps[0]);
      StrandedAlways(cfg, Do(cfg, s, steps[0]), steps[1..]);
    }
  }

  /** With a replaying gateway, one more attempt (reopened by an analyst if it failed) is confirmed. */
  lemma ReplaysSettle(cfg: Config, s: State)
    requires cfg.Valid() && cfg.gateway.Replays? && Inv(cfg, s) && s.disbursed != []
    ensures CanSettle(cfg, s)
  {
    var steps: seq<Step>, t := [], s;
    assert Path(cfg, s, steps, t) && SameDestination(steps);
    if !s.status.PaidClaim? {
      steps, t := MakeDue(cfg, s);
      steps, t := Settle(cfg, s, steps, t);
    }
    assert Path(cfg, s, steps, t) && SameDestination(steps) && t.status.PaidClaim?;
  }

  /** An unpaid payout can be made due again, for a worker that is not busy. */
  lemma MakeDue(cfg: Config, s: State) returns (steps: seq<Step>, t: State)
    requires cfg.Valid() && Inv(cfg, s) && s.disbursed != [] && !s.status.PaidClaim?
    ensures Path(cfg, s, steps, t) && SameDestination(steps)
    ensures t.core.Some? && t.core.value.row.key in t.paid && Claimable(t.core.value.row, t.core.value.clock) && 0 !in t.core.value.workers
  {
    steps, t := [], s;
    if 0 in t.core.value.workers {
      steps, t := Extend(cfg, s, steps, t, Crash(0));
    }
    steps, t := Extend(cfg, s, steps, t, NextMove(t.core.value));
  }

  /** What brings an unpaid payout back to a worker: a retry, the end of a lease, or its due date. */
  function NextMove(c: L.State<Account>): Step
    requires !c.row.status.Confirmed?
    requires c.row.status.InProgress? ==> c.row.claimedUntil.Some?
    requires c.row.status.Pending? ==> c.row.nextAttemptAt.Some?
  {
    match c.row.status
    case Failed => Retry(None)
    case InProgress => Tick(Max(c.clock, c.row.claimedUntil.value + 1))
    case Pending => Tick(Max(c.clock, c.row.nextAttemptAt.value))
  }

  /** A disbursed claim can always be closed as it stands exactly when the gateway replays the payment it made. */
  lemma AlwaysSettlesExactlyWhenReplaying(cfg: Config)
    requires cfg.Valid()
    ensures AlwaysSettles(cfg) <==> cfg.gateway.Replays?
  {
    if cfg.gateway.Replays? {
      forall s0, steps, s | Start(s0) && Path(cfg, s0, steps, s) && s.disbursed != []
        ensures CanSettle(cfg, s)
      {
        InvAlways(cfg, s0, steps);
        ReplaysSettle(cfg, s);
      }
    } else {
      var steps, s := PayTheOldAccount(cfg);
      InvAlways(cfg, OPENED, steps);
      forall more, s' | Path(cfg, s, more, s') && SameDestination(more)
        ensures !s'.status.PaidClaim?
      {
        StrandedAlways(cfg, s, more);
      }
    }
  }
}
