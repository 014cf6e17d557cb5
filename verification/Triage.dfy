/**
 The priority of a claim and the record of its calculations
 (services/claims/internal/domain/triage.go, triage_policy.go and
 internal/triage/service.go).
 */
module Triage {
  import opened Common

  datatype Severity = SeverityHigh | SeverityMedium | SeverityLow

  datatype AmountBand = AmountHigh | AmountMedium | AmountLow | AmountUnknown

  type PriorityLevel = n: int | 1 <= n <= 3 witness 1

  function LevelOf(s: Severity, b: AmountBand): PriorityLevel {
    if s.SeverityHigh? || b.AmountHigh? then 1
    else if s.SeverityLow? && b.AmountLow? then 3
    else 2
  }

  // ----- what a level is calculated from

  datatype TriageInput = TriageInput(
    incidentType: string,
    line: string,
    coverage: string,
    estimatedAmount: Option<int>,
    policyVersion: string)

  datatype Cause = EnteredEvaluation | AmountChanged | IncidentTypeChanged | CoverageChanged | PolicyUpdated

  function Diff(now: TriageInput, previous: TriageInput): seq<Cause> {
    (if now.estimatedAmount != previous.estimatedAmount then [AmountChanged] else []) +
    (if now.incidentType != previous.incidentType then [IncidentTypeChanged] else []) +
    (if now.coverage != previous.coverage || now.line != previous.line then [CoverageChanged] else []) +
    (if now.policyVersion != previous.policyVersion then [PolicyUpdated] else [])
  }

  /** The list of causes, built change after change. */
  method ListCauses(now: TriageInput, previous: TriageInput) returns (causes: seq<Cause>)
    ensures causes == Diff(now, previous)
    ensures causes == [] <==> now == previous
    ensures AmountChanged in causes <==> now.estimatedAmount != previous.estimatedAmount
    ensures PolicyUpdated in causes <==> now.policyVersion != previous.policyVersion
  {
    causes := [];
    if now.estimatedAmount != previous.estimatedAmount {
      causes := causes + [AmountChanged];
    }
    if now.incidentType != previous.incidentType {
      causes := causes + [IncidentTypeChanged];
    }
    if now.coverage != previous.coverage || now.line != previous.line {
      causes := causes + [CoverageChanged];
    }
    if now.policyVersion != previous.policyVersion {
      causes := causes + [PolicyUpdated];
    }
  }

  datatype ClaimStatus = Active | InEvaluation | OtherStatus(text: string)

  datatype Claim = Claim(id: string, status: ClaimStatus, incidentType: string, estimatedAmount: Option<int>)

  predicate Triageable(s: ClaimStatus) {
    s.Active? || s.InEvaluation?
  }

  /** The line of each claim type in the only catalog. */
  const CATALOG: seq<(string, string)> :=
    [("collision", "auto"), ("theft", "auto"), ("third_party_damage", "auto"), ("glass", "auto"), ("other", "auto"), ("water_damage", "home")]

  function LineIn(catalog: seq<(string, string)>, incidentType: string): string {
    if catalog == [] then ""
    else if catalog[0].0 == incidentType then catalog[0].1
    else LineIn(catalog[1..], incidentType)
  }

  datatype SeverityRule = SeverityRule(line: string, incidentType: string, severity: Severity)

  datatype Policy = Policy(version: string, severities: seq<SeverityRule>, lowBelow: int, highAbove: int)

  function SeverityIn(rules: seq<SeverityRule>, line: string, incidentType: string): Severity {
    if rules == [] then SeverityMedium
    else if rules[0].line == line && rules[0].incidentType == incidentType then rules[0].severity
    else SeverityIn(rules[1..], line, incidentType)
  }

  function BandOf(p: Policy, amount: Option<int>): AmountBand {
    if amount.None? then AmountUnknown
    else if amount.value < p.lowBelow then AmountLow
    else if p.highAbove < amount.value then AmountHigh
    else AmountMedium
  }

  function InputOf(p: Policy, c: Claim): TriageInput {
    TriageInput(c.incidentType, LineIn(CATALOG, c.incidentType), c.incidentType, c.estimatedAmount, p.version)
  }

  datatype Assessment = Assessment(level: PriorityLevel, severity: Severity, band: AmountBand, input: TriageInput)

  function Assess(p: Policy, input: TriageInput): Assessment {
    var severity := SeverityIn(p.severities, input.line, input.incidentType);
    var band := BandOf(p, input.estimatedAmount);
    Assessment(LevelOf(severity, band), severity, band, input.(policyVersion := p.version))
  }

  predicate Fits(rule: SeverityRule, line: string, incidentType: string) {
    rule.line == line && rule.incidentType == incidentType
  }

  /** The first of the rules for the line and the type says the severity. */
  predicate FirstRuleSays(rules: seq<SeverityRule>, line: string, incidentType: string, severity: Severity) {
    exists i :: 0 <= i < |rules| && Fits(rules[i], line, incidentType) && rules[i].severity == severity &&
                forall k :: 0 <= k < i ==> !Fits(rules[k], line, incidentType)
  }

  lemma FirstRuleCons(rules: seq<SeverityRule>, line: string, incidentType: string, severity: Severity)
    requires rules != []
    ensures FirstRuleSays(rules, line, incidentType, severity) <==>
              if Fits(rules[0], line, incidentType) then rules[0].severity == severity else FirstRuleSays(rules[1..], line, incidentType, severity)
  {
    var rest := rules[1..];
    assert forall k :: 0 < k < |rules| ==> rules[k] == rest[k - 1];
    if !Fits(rules[0], line, incidentType) && FirstRuleSays(rest, line, incidentType, severity) {
      var i :| 0 <= i < |rest| && Fits(rest[i], line, incidentType) && rest[i].severity == severity &&
               forall k :: 0 <= k < i ==> !Fits(rest[k], line, incidentType);
      assert Fits(rules[i + 1], line, incidentType);
    }
    if !Fits(rules[0], line, incidentType) && FirstRuleSays(rules, line, incidentType, severity) {
      var i :| 0 <= i < |rules| && Fits(rules[i], line, incidentType) && rules[i].severity == severity &&
               forall k :: 0 <= k < i ==> !Fits(rules[k], line, incidentType);
      assert Fits(rest[i - 1], line, incidentType);
      assert forall k :: 0 <= k < i - 1 ==> rest[k] == rules[k + 1];
    }
  }

  /** A type without a rule is medium. */
  lemma {:induction false} SeverityExactlyWhen(rules: seq<SeverityRule>, line: string, incidentType: string, severity: Severity)
    ensures severity != SeverityMedium ==>
              (SeverityIn(rules, line, incidentType) == severity <==> FirstRuleSays(rules, line, incidentType, severity))
  {
    if rules != [] {
      FirstRuleCons(rules, line, incidentType, severity);
      SeverityExactlyWhen(rules[1..], line, incidentType, severity);
    }
  }

  /** The line the catalog gives the type, or none. */
  predicate OnLine(incidentType: string, line: string) {
    if exists k :: 0 <= k < |CATALOG| && CATALOG[k].0 == incidentType
    then exists k :: 0 <= k < |CATALOG| && CATALOG[k] == (incidentType, line)
    else line == ""
  }

  lemma {:induction false} LineIsInTheCatalog(catalog: seq<(string, string)>, incidentType: string)
    ensures if exists k :: 0 <= k < |catalog| && catalog[k].0 == incidentType
            then exists k :: 0 <= k < |catalog| && catalog[k] == (incidentType, LineIn(catalog, incidentType))
            else LineIn(catalog, incidentType) == ""
  {
    if catalog != [] {
      var rest := catalog[1..];
      LineIsInTheCatalog(rest, incidentType);
      assert forall k :: 0 < k < |catalog| ==> catalog[k] == rest[k - 1];
      if catalog[0].0 == incidentType {
        assert catalog[0] == (incidentType, LineIn(catalog, incidentType));
      }
    }
  }

  /**
   What the assessment of a claim says: its data and the line of its type under
   the policy, and the level. The most urgent one exactly for a high severity or
   an amount above the upper threshold, the least exactly for a low severity with
   a known amount below the lower one.
   */
  predicate Rated(p: Policy, c: Claim, a: Assessment) {
    var high := c.estimatedAmount.Some? && p.highAbove < c.estimatedAmount.value && p.lowBelow <= c.estimatedAmount.value;
    var low := c.estimatedAmount.Some? && c.estimatedAmount.value < p.lowBelow;
    && a.input.incidentType == a.input.coverage == c.incidentType && a.input.estimatedAmount == c.estimatedAmount
    && a.input.policyVersion == p.version && OnLine(c.incidentType, a.input.line)
    && (a.level == 1 <==> FirstRuleSays(p.severities, a.input.line, c.incidentType, SeverityHigh) || high)
    && (a.level == 3 <==> FirstRuleSays(p.severities, a.input.line, c.incidentType, SeverityLow) && low)
  }

  lemma AssessmentIsRated(p: Policy, c: Claim)
    ensures Rated(p, c, Assess(p, InputOf(p, c)))
  {
    var line := LineIn(CATALOG, c.incidentType);
    LineIsInTheCatalog(CATALOG, c.incidentType);
    SeverityExactlyWhen(p.severities, line, c.incidentType, SeverityHigh);
    SeverityExactlyWhen(p.severities, line, c.incidentType, SeverityLow);
  }

  /** Whatever the policy, a larger amount is never less urgent. */
  lemma LargerIsNoLessUrgent(p: Policy, c: Claim, amount: int, more: int)
    requires amount <= more
    ensures var a, b := c.(estimatedAmount := Some(amount)), c.(estimatedAmount := Some(more));
            Assess(p, InputOf(p, b)).level <= Assess(p, InputOf(p, a)).level
  {
  }

  /** The upper threshold alone decides a high amount exactly when the two do not cross. */
  lemma ThresholdsExactlyWhen(p: Policy)
    ensures (forall amount: int :: BandOf(p, Some(amount)) == AmountHigh <==> p.highAbove < amount) <==> p.lowBelow <= p.highAbove + 1
  {
    if p.highAbove + 1 < p.lowBelow {
      assert BandOf(p, Some(p.highAbove + 1)) == AmountLow;
    }
  }

  /** The first policy, with thresholds of COP 5,000,000 and COP 30,000,000 in cents. */
  const POLICY_V1 := Policy("triage-policy-v1",
    [SeverityRule("auto", "collision", SeverityMedium), SeverityRule("auto", "theft", SeverityHigh),
     SeverityRule("auto", "third_party_damage", SeverityHigh), SeverityRule("auto", "glass", SeverityLow),
     SeverityRule("auto", "other", SeverityMedium), SeverityRule("home", "water_damage", SeverityMedium)],
    5_000_000_00, 30_000_000_00)

  function LevelUnderV1(incidentType: string, amount: Option<int>): PriorityLevel {
    Assess(POLICY_V1, InputOf(POLICY_V1, Claim("", InEvaluation, incidentType, amount))).level
  }

  /** Under the first policy a theft is always the most urgent, glass below the lower threshold the least, and both thresholds are medium. */
  lemma FirstPolicyLevels(amount: int)
    ensures LevelUnderV1("theft", None) == LevelUnderV1("theft", Some(amount)) == 1
    ensures LevelUnderV1("glass", None) == LevelUnderV1("collision", None) == 2
    ensures LevelUnderV1("glass", Some(amount)) == if amount < 5_000_000_00 then 3 else if amount <= 30_000_000_00 then 2 else 1
    ensures LevelUnderV1("collision", Some(amount)) == if amount <= 30_000_000_00 then 2 else 1
  {
    LineAt(CATALOG, 0);
    LineAt(CATALOG, 1);
    LineAt(CATALOG, 3);
    RuleAt(POLICY_V1.severities, 0);
    RuleAt(POLICY_V1.severities, 1);
    RuleAt(POLICY_V1.severities, 3);
  }

  lemma {:induction false} LineAt(catalog: seq<(string, string)>, i: nat)
    requires i < |catalog| && forall k :: 0 <= k < i ==> catalog[k].0 != catalog[i].0
    ensures LineIn(catalog, catalog[i].0) == catalog[i].1
  {
    if i > 0 {
      assert catalog[1..][i - 1] == catalog[i];
      LineAt(catalog[1..], i - 1);
    }
  }

  lemma {:induction false} RuleAt(rules: seq<SeverityRule>, i: nat)
    requires i < |rules| && forall k :: 0 <= k < i ==> !(rules[k].line == rules[i].line && rules[k].incidentType == rules[i].incidentType)
    ensures SeverityIn(rules, rules[i].line, rules[i].incidentType) == rules[i].severity
  {
    if i > 0 {
      assert rules[1..][i - 1] == rules[i];
      RuleAt(rules[1..], i - 1);
    }
  }

  // ----- the record of the calculations

  datatype TriageRecord = TriageRecord(number: nat, assessment: Assessment, causes: seq<Cause>, previousLevel: Option<PriorityLevel>)

  /** The calculation that follows the last one, unless nothing changed. */
  function NextTriage(a: Assessment, last: Option<TriageRecord>): Option<TriageRecord> {
    match last
    case None => Some(TriageRecord(1, a, [EnteredEvaluation], None))
    case Some(r) =>
      var causes := Diff(a.input, r.assessment.input);
      if causes == [] then None else Some(TriageRecord(r.number + 1, a, causes, Some(r.assessment.level)))
  }

  /** A line or a coverage that is not the one of the claim type has no way in. */
  predicate FromCatalog(input: TriageInput) {
    input.coverage == input.incidentType && input.line == LineIn(CATALOG, input.incidentType)
  }

  predicate LinkOk(history: seq<TriageRecord>, i: nat)
    requires i < |history|
  {
    && history[i].number == i + 1
    && FromCatalog(history[i].assessment.input)
    && (if i == 0 then history[i].previousLevel.None? && history[i].causes == [EnteredEvaluation]
        else && history[i].previousLevel == Some(history[i - 1].assessment.level)
             && history[i].causes == Diff(history[i].assessment.input, history[i - 1].assessment.input)
             && history[i].causes != [])
  }

  /** One gap-free chain. */
  predicate Chain(history: seq<TriageRecord>) {
    forall i :: 0 <= i < |history| ==> LinkOk(history, i)
  }

  function Last(history: seq<TriageRecord>): Option<TriageRecord> {
    if history == [] then None else Some(history[|history| - 1])
  }

  /** The staleness test of the sweep: no calculation, or another amount, claim type or policy version. */
  predicate Stale(p: Policy, c: Claim, last: Option<TriageRecord>) {
    match last
    case None => true
    case Some(r) =>
      var input := r.assessment.input;
      input.estimatedAmount != c.estimatedAmount || input.incidentType != c.incidentType || input.policyVersion != p.version
  }

  /** Three fields are enough: the test picks exactly the claims that have something to record. */
  lemma StaleExactlyWhenSomethingChanged(p: Policy, c: Claim, history: seq<TriageRecord>)
    requires Chain(history)
    ensures Stale(p, c, Last(history)) <==> NextTriage(Assess(p, InputOf(p, c)), Last(history)).Some?
  {
    if history != [] {
      assert LinkOk(history, |history| - 1);
    }
  }

  lemma AppendKeepsChain(history: seq<TriageRecord>, r: TriageRecord, a: Assessment)
    requires Chain(history) && FromCatalog(a.input) && NextTriage(a, Last(history)) == Some(r)
    ensures Chain(history + [r]) && r.number == |history| + 1
  {
    var history' := history + [r];
    if history != [] {
      assert LinkOk(history, |history| - 1);
    }
    forall i | 0 <= i < |history'|
      ensures LinkOk(history', i)
    {
      assert i < |history| ==> LinkOk(history, i);
    }
  }

  // ----- the store and the service

  function HistoryIn(histories: map<string, seq<TriageRecord>>, id: string): seq<TriageRecord> {
    if id in histories then histories[id] else []
  }

  /** The histories of the claims. A place in a history is taken once. */
  class TriageStore {
    var histories: map<string, seq<TriageRecord>>

    constructor ()
      ensures Valid() && histories == map[]
    {
      histories := map[];
    }

    ghost predicate Valid()
      reads this
    {
      forall id :: id in histories ==> Chain(histories[id])
    }

    function HistoryOf(id: string): seq<TriageRecord>
      reads this
    {
      HistoryIn(histories, id)
    }

    /** Adds the calculation in its place, unless the place is taken. */
    method Record(id: string, r: TriageRecord) returns (ok: bool)
      requires Valid() && r.number <= |HistoryOf(id)| + 1
      requires r.number == |HistoryOf(id)| + 1 ==> Chain(HistoryOf(id) + [r])
      modifies this
      ensures Valid()
      ensures ok <==> r.number == |old(HistoryOf(id))| + 1
      ensures histories == if ok then old(histories)[id := old(HistoryOf(id)) + [r]] else old(histories)
    {
      ok := r.number > |HistoryOf(id)|;
      if ok {
        histories := histories[id := HistoryOf(id) + [r]];
      }
    }
  }

  /** `read` is how much of the history the worker had seen; others may have added since. */
  method AssessClaim(store: TriageStore, p: Policy, c: Claim, read: nat) returns (r: Option<TriageRecord>)
    requires store.Valid() && read <= |store.HistoryOf(c.id)|
    modifies store
    ensures store.Valid()
    ensures r.Some? <==>
              && (c.status == Active || c.status == InEvaluation) && read == |old(store.HistoryOf(c.id))|
              && NextTriage(Assess(p, InputOf(p, c)), Last(old(store.HistoryOf(c.id)))).Some?
    ensures r.Some? ==>
              && r == NextTriage(Assess(p, InputOf(p, c)), Last(old(store.HistoryOf(c.id))))
              && store.histories == old(store.histories)[c.id := old(store.HistoryOf(c.id)) + [r.value]]
    ensures r.Some? ==> Rated(p, c, r.value.assessment)
    ensures r.None? ==> store.histories == old(store.histories)
  {
    AssessmentIsRated(p, c);
    if !Triageable(c.status) {
      return None;
    }
    var history := store.HistoryOf(c.id);
    assert Chain(history);
    var a := Assess(p, InputOf(p, c));
    var next := NextTriage(a, Last(history[..read]));
    if next.None? {
      assert history[..|history|] == history;
      return None;
    }
    if read == |history| {
      assert history[..read] == history;
      AppendKeepsChain(history, next.value, a);
    } else if read > 0 {
      assert LinkOk(history, read - 1);
    }
    var ok := store.Record(c.id, next.value);
    return if ok then next else None;
  }

  /** A claim as it was handed out, with how many calculations it had then. */
  datatype Candidate = Candidate(claim: Claim, read: nat)

  /** The candidate has something to record, and nobody recorded since it was handed out. */
  predicate DueNow(p: Policy, c: Candidate, history: seq<TriageRecord>) {
    Triageable(c.claim.status) && c.read == |history| && Stale(p, c.claim, Last(history))
  }

  /** One more calculation, and then nothing to record; or nothing. */
  predicate Swept(p: Policy, c: Candidate, before: seq<TriageRecord>, now: seq<TriageRecord>) {
    if DueNow(p, c, before)
    then |now| == |before| + 1 && now[..|before|] == before && !Stale(p, c.claim, Last(now)) && Rated(p, c.claim, now[|before|].assessment)
    else now == before
  }

  predicate SweptIn(p: Policy, c: Candidate, before: map<string, seq<TriageRecord>>, now: map<string, seq<TriageRecord>>) {
    Swept(p, c, HistoryIn(before, c.claim.id), HistoryIn(now, c.claim.id))
  }

  lemma AppendSweeps(p: Policy, c: Claim, history: seq<TriageRecord>, r: TriageRecord)
    requires Chain(history) && Triageable(c.status) && NextTriage(Assess(p, InputOf(p, c)), Last(history)) == Some(r)
    ensures Swept(p, Candidate(c, |history|), history, history + [r])
  {
    StaleExactlyWhenSomethingChanged(p, c, history);
    AssessmentIsRated(p, c);
  }

  /** How many of the candidates have something to record. */
  function DueIn(p: Policy, histories: map<string, seq<TriageRecord>>, pending: seq<Candidate>): nat {
    if pending == [] then 0
    else
      var c := pending[|pending| - 1];
      DueIn(p, histories, pending[..|pending| - 1]) +
      (if DueNow(p, c, HistoryIn(histories, c.claim.id)) then 1 else 0)
  }

  method SweepOne(store: TriageStore, p: Policy, c: Candidate) returns (n: nat)
    requires store.Valid() && c.read <= |store.HistoryOf(c.claim.id)|
    modifies store
    ensures store.Valid() && n == if DueNow(p, c, old(store.HistoryOf(c.claim.id))) then 1 else 0
    ensures SweptIn(p, c, old(store.histories), store.histories)
    ensures forall id :: id != c.claim.id ==> HistoryIn(store.histories, id) == HistoryIn(old(store.histories), id)
  {
    var history := store.HistoryOf(c.claim.id);
    StaleExactlyWhenSomethingChanged(p, c.claim, history);
    var r := AssessClaim(store, p, c.claim, c.read);
    n := 0;
    if r.Some? {
      AppendSweeps(p, c.claim, history, r.value);
      n := 1;
    }
  }

  /**
   One pass over the candidates the store handed out. Others may have recorded
   since: what they add to a claim before its turn is in its history already, and
   what they add later is no part of this pass.
   */
  method Sweep(store: TriageStore, p: Policy, pending: seq<Candidate>) returns (recorded: nat)
    requires store.Valid()
    requires forall i :: 0 <= i < |pending| ==> pending[i].read <= |store.HistoryOf(pending[i].claim.id)|
    requires forall i, j :: 0 <= i < j < |pending| ==> pending[i].claim.id != pending[j].claim.id
    modifies store
    ensures store.Valid()
    ensures forall i :: 0 <= i < |pending| ==> SweptIn(p, pending[i], old(store.histories), store.histories)
    ensures forall id :: (forall i :: 0 <= i < |pending| ==> pending[i].claim.id != id) ==> store.HistoryOf(id) == old(store.HistoryOf(id))
    ensures recorded == DueIn(p, old(store.histories), pending)
  {
    ghost var before := store.histories;
    recorded := 0;
    for k := 0 to |pending|
      invariant store.Valid() && recorded == DueIn(p, before, pending[..k])
      invariant forall i :: 0 <= i < k ==> SweptIn(p, pending[i], before, store.histories)
      invariant forall id :: (forall i :: 0 <= i < k ==> pending[i].claim.id != id) ==> HistoryIn(store.histories, id) == HistoryIn(before, id)
    {
      var c := pending[k];
      ghost var h := store.histories;
      assert pending[..k + 1][..k] == pending[..k];
      assert HistoryIn(h, c.claim.id) == HistoryIn(before, c.claim.id);
      var n := SweepOne(store, p, c);
      recorded := recorded + n;
      forall i | 0 <= i < k
        ensures SweptIn(p, pending[i], before, store.histories)
      {
        assert SweptIn(p, pending[i], before, h);
      }
    }
    assert pending[..|pending|] == pending;
  }
}

/** Racing tasks over one claim that changes while they work. */
module TriageProtocol {
  import opened Common
  import opened Triage

  /** What a worker read: the claim, how many calculations it had, and its policy. */
  datatype Task = Task(claim: Claim, read: nat, policy: Policy)

  datatype State = State(claim: Claim, history: seq<TriageRecord>, tasks: map<nat, Task>)

  datatype Step =
    | Change(claim: Claim)
    | Read(w: nat, policy: Policy)
    | Record(w: nat)
    | Drop(w: nat)

  predicate Enabled(s: State, step: Step) {
    match step
    case Change(_) => true
    case Read(w, _) => w !in s.tasks
    case Record(w) => w in s.tasks
    case Drop(w) => w in s.tasks
  }

  /** What a worker wants to record, from what it read. */
  function Wanted(s: State, t: Task): Option<TriageRecord> {
    if !Triageable(t.claim.status) || |s.history| < t.read then None
    else NextTriage(Assess(t.policy, InputOf(t.policy, t.claim)), Last(s.history[..t.read]))
  }

  /** Appended if its place is free, else lost. */
  function Recorded(s: State, w: nat): State
    requires w in s.tasks
  {
    var next := Wanted(s, s.tasks[w]);
    var rest := s.(tasks := s.tasks - {w});
    if next.Some? && |s.history| < next.value.number then rest.(history := s.history + [next.value]) else rest
  }

  function Do(s: State, step: Step): State
    requires Enabled(s, step)
  {
    match step
    case Change(c) => s.(claim := c)
    case Read(w, p) => s.(tasks := s.tasks[w := Task(s.claim, |s.history|, p)])
    case Record(w) => Recorded(s, w)
    case Drop(w) => s.(tasks := s.tasks - {w})
  }

  predicate Legal(s: State, steps: seq<Step>)
    decreases |steps|
  {
    steps == [] || (Enabled(s, steps[0]) && Legal(Do(s, steps[0]), steps[1..]))
  }

  function Run(s: State, steps: seq<Step>): State
    requires Legal(s, steps)
    decreases |steps|
  {
    if steps == [] then s else Run(Do(s, steps[0]), steps[1..])
  }

  ghost predicate Inv(s: State) {
    Chain(s.history) && forall w :: w in s.tasks ==> s.tasks[w].read <= |s.history|
  }

  /** A task that read the whole history extends the chain; any other finds its place taken. */
  lemma RecordKeeps(s: State, w: nat)
    requires Inv(s) && w in s.tasks
    ensures Inv(Recorded(s, w)) && s.history <= Recorded(s, w).history
  {
    var t := s.tasks[w];
    var next := Wanted(s, t);
    if next.Some? {
      if t.read == |s.history| {
        assert s.history[..t.read] == s.history;
        AppendKeepsChain(s.history, next.value, Assess(t.policy, InputOf(t.policy, t.claim)));
      } else if t.read > 0 {
        assert LinkOk(s.history, t.read - 1);
      }
    }
  }

  lemma InvKept(s: State, step: Step)
    requires Inv(s) && Enabled(s, step)
    ensures Inv(Do(s, step)) && s.history <= Do(s, step).history
  {
    if step.Record? {
      RecordKeeps(s, step.w);
    }
  }

  /** However tasks race, the history is one gap-free chain that only grows at its end. */
  lemma {:induction false} ChainAlways(s: State, steps: seq<Step>)
    requires Inv(s) && Legal(s, steps)
    ensures Inv(Run(s, steps)) && s.history <= Run(s, steps).history
    decreases |steps|
  {
    if steps != [] {
      InvKept(s, steps[0]);
      ChainAlways(Do(s, steps[0]), steps[1..]);
    }
  }

  /** The claim does not change any more and every task uses one policy. */
  predicate Stable(p: Policy, steps: seq<Step>) {
    forall i :: 0 <= i < |steps| ==> !steps[i].Change? && (steps[i].Read? ==> steps[i].policy == p)
  }

  /** Whether a calculation of the claim as it is now is still to come. */
  predicate Due(p: Policy, s: State) {
    Triageable(s.claim.status) && Stale(p, s.claim, Last(s.history))
  }

  /** The task has seen the whole history, so its record would be the next one. */
  predicate Next(s: State, w: nat) {
    w in s.tasks && s.tasks[w].read == |s.history| && Wanted(s, s.tasks[w]).Some?
  }

  /** The next record may be of an old claim or policy, after which the present one is due. */
  predicate Overtaken(p: Policy, s: State, w: nat) {
    Next(s, w) && Triageable(s.claim.status) && Stale(p, s.claim, Wanted(s, s.tasks[w]))
  }

  /** Nothing is due, and no task that saw the whole history wants to record. */
  ghost predicate Quiet(p: Policy, s: State) {
    !Due(p, s) && forall w :: !Next(s, w)
  }

  /** A record is added exactly by a task that is next; afterwards no other task is. */
  lemma RecordAdds(s: State, w: nat)
    requires Inv(s) && w in s.tasks
    ensures if Next(s, w) then Recorded(s, w).history == s.history + [Wanted(s, s.tasks[w]).value] else Recorded(s, w).history == s.history
    ensures Next(s, w) ==> forall x :: !Next(Recorded(s, w), x)
    ensures !Next(s, w) ==> forall x :: Next(Recorded(s, w), x) ==> Next(s, x)
  {
    var t := s.tasks[w];
    if t.read == |s.history| {
      assert s.history[..t.read] == s.history;
    } else if t.read > 0 {
      assert LinkOk(s.history, t.read - 1);
    }
    if Next(s, w) && s.history != [] {
      assert LinkOk(s.history, |s.history| - 1);
    }
  }

  /** A task that reads now wants exactly what is due, and is not overtaken by it. */
  lemma FreshTask(p: Policy, s: State, w: nat)
    requires Inv(s) && Enabled(s, Read(w, p))
    ensures var s' := Do(s, Read(w, p)); (Next(s', w) <==> Due(p, s)) && !Overtaken(p, s', w)
    ensures forall x :: x != w ==> (Next(Do(s, Read(w, p)), x) <==> Next(s, x)) && (Overtaken(p, Do(s, Read(w, p)), x) <==> Overtaken(p, s, x))
  {
    assert s.history[..|s.history|] == s.history;
    StaleExactlyWhenSomethingChanged(p, s.claim, s.history);
  }

  /** Once quiet, nothing is recorded any more. */
  lemma QuietKept(p: Policy, s: State, step: Step)
    requires Inv(s) && Quiet(p, s) && Enabled(s, step) && !step.Change? && (step.Read? ==> step.policy == p)
    ensures Quiet(p, Do(s, step)) && Do(s, step).history == s.history
  {
    if step.Read? {
      FreshTask(p, s, step.w);
    } else if step.Record? {
      RecordAdds(s, step.w);
    } else {
      assert forall x :: Next(Do(s, step), x) ==> Next(s, x);
    }
  }

  lemma {:induction false} QuietForever(p: Policy, s: State, steps: seq<Step>)
    requires Inv(s) && Quiet(p, s) && Legal(s, steps) && Stable(p, steps)
    ensures Run(s, steps).history == s.history
    decreases |steps|
  {
    if steps != [] {
      InvKept(s, steps[0]);
      QuietKept(p, s, steps[0]);
      QuietForever(p, Do(s, steps[0]), steps[1..]);
    }
  }

  /** A step that adds nothing overtakes nobody. */
  lemma OvertakenKept(p: Policy, s: State, step: Step)
    requires Inv(s) && Enabled(s, step) && !step.Change? && (step.Read? ==> step.policy == p) && (forall w :: !Overtaken(p, s, w))
    ensures Do(s, step).history == s.history ==> forall w :: !Overtaken(p, Do(s, step), w)
    ensures Do(s, step).history != s.history ==> |Do(s, step).history| == |s.history| + 1 && Quiet(p, Do(s, step))
  {
    if step.Read? {
      FreshTask(p, s, step.w);
    } else if step.Record? {
      RecordAdds(s, step.w);
      assert !Overtaken(p, s, step.w);
      assert forall x :: Overtaken(p, Do(s, step), x) && !Next(s, step.w) ==> Overtaken(p, s, x);
    } else {
      assert forall x :: Overtaken(p, Do(s, step), x) ==> Overtaken(p, s, x);
    }
  }

  lemma {:induction false} OneMore(p: Policy, s: State, steps: seq<Step>)
    requires Inv(s) && Legal(s, steps) && Stable(p, steps) && (forall w :: !Overtaken(p, s, w))
    ensures |Run(s, steps).history| <= |s.history| + 1
    decreases |steps|
  {
    if steps != [] {
      var s' := Do(s, steps[0]);
      InvKept(s, steps[0]);
      OvertakenKept(p, s, steps[0]);
      if s'.history == s.history {
        OneMore(p, s', steps[1..]);
      } else {
        QuietForever(p, s', steps[1..]);
      }
    }
  }

  /** However many tasks still hold an old claim or policy, a stable claim gets at most two more calculations. */
  lemma {:induction false} AtMostTwoMore(p: Policy, s: State, steps: seq<Step>)
    requires Inv(s) && Legal(s, steps) && Stable(p, steps)
    ensures |Run(s, steps).history| <= |s.history| + 2
    decreases |steps|
  {
    if steps != [] {
      var s' := Do(s, steps[0]);
      InvKept(s, steps[0]);
      if s'.history == s.history {
        AtMostTwoMore(p, s', steps[1..]);
      } else {
        RecordAdds(s, steps[0].w);
        OneMore(p, s', steps[1..]);
      }
    }
  }

  /** The run with two: the overtaken task records the old claim, and the next one the claim as it is. */
  lemma TwoMore(p: Policy, s: State, w: nat) returns (steps: seq<Step>)
    requires Inv(s) && Overtaken(p, s, w)
    ensures Legal(s, steps) && Stable(p, steps) && |Run(s, steps).history| == |s.history| + 2
  {
    steps := [Record(w), Read(w, p), Record(w)];
    var s1 := Do(s, steps[0]);
    RecordAdds(s, w);
    InvKept(s, steps[0]);
    var s2 := Do(s1, steps[1]);
    FreshTask(p, s1, w);
    InvKept(s1, steps[1]);
    RecordAdds(s2, w);
    RunOfThree(s, steps[0], steps[1], steps[2]);
  }

  lemma RunOfThree(s: State, a: Step, b: Step, c: Step)
    requires Enabled(s, a) && Enabled(Do(s, a), b) && Enabled(Do(Do(s, a), b), c)
    ensures Legal(s, [a, b, c]) && Run(s, [a, b, c]) == Do(Do(Do(s, a), b), c)
  {
    var s1 := Do(s, a);
    var s2 := Do(s1, b);
    assert [a, b, c][1..] == [b, c] && [b, c][1..] == [c] && [c][1..] == [];
    assert Legal(s2, [c]) && Run(s2, [c]) == Do(s2, c);
    assert Legal(s1, [b, c]) && Run(s1, [b, c]) == Do(s2, c);
  }

  /** At most one more calculation, whatever the tasks do, exactly when no task is about to record an old claim or policy. */
  lemma SettlesAfterOneExactlyWhen(p: Policy, s: State)
    requires Inv(s)
    ensures (forall steps :: Legal(s, steps) && Stable(p, steps) ==> |Run(s, steps).history| <= |s.history| + 1)
       <==> forall w :: !Overtaken(p, s, w)
  {
    if w :| Overtaken(p, s, w) {
      var steps := TwoMore(p, s, w);
      assert Legal(s, steps) && Stable(p, steps);
    } else {
      forall steps | Legal(s, steps) && Stable(p, steps)
        ensures |Run(s, steps).history| <= |s.history| + 1
      {
        OneMore(p, s, steps);
      }
    }
  }
}
