/** The files of a web filing against the requirements of its claim type (services/claims/internal/domain/web_filing.go). */
module Supports {
  import opened Common
  import opened Lists
  import opened Text

  const MAX_SUPPORTS_PER_CLAIM := 20

  datatype Format = Jpeg | Png | Pdf

  datatype SupportFile = SupportFile(id: string, owner: string, format: Option<Format>, confirmedAt: Option<Instant>)

  /** What a lookup of an unknown id yields. */
  const NO_FILE := SupportFile("", "", None, None)

  datatype Requirement = Requirement(code: string, required: bool, minFiles: int, maxFiles: int, formats: seq<Format>)

  datatype SupportGroup = SupportGroup(requirementCode: string, supportIds: seq<string>)

  datatype AttachedSupport = AttachedSupport(requirementCode: string, position: nat, file: SupportFile)

  datatype Code = Missing | TooFew | TooMany | NotApplicable | NotFound | InvalidFormat

  datatype FieldError = FieldError(field: string, code: Code)

  /** Who files, and what was uploaded by anyone. */
  datatype Desk = Desk(subject: string, uploaded: map<string, SupportFile>) {
    function File(id: string): SupportFile {
      if id in uploaded then uploaded[id] else NO_FILE
    }

    /** A confirmed file of the subject under a well-formed id. */
    predicate Usable(id: string) {
      ValidSupportId(id) && id in uploaded && uploaded[id].owner == subject && uploaded[id].confirmedAt.Some?
    }
  }

  predicate HexDigit(c: char) {
    '0' <= c <= '9' || 'a' <= c <= 'f'
  }

  predicate ValidSupportId(id: string) {
    |id| == 36 && id[..4] == "sup-" && forall i :: 4 <= i < 36 ==> HexDigit(id[i])
  }

  predicate ValidRequirementCode(code: string) {
    1 <= |code| <= 40 && forall i :: 0 <= i < |code| ==> 'a' <= code[i] <= 'z' || code[i] == '_'
  }

  predicate Accepts(r: Requirement, f: Option<Format>) {
    f.Some? && f.value in r.formats
  }

  // ----- what was asked and what was sent

  function CountIds(groups: seq<SupportGroup>): nat {
    if groups == [] then 0 else CountIds(groups[..|groups| - 1]) + |groups[|groups| - 1].supportIds|
  }

  function Trimmed(ids: seq<string>): seq<string> {
    seq(|ids|, i requires 0 <= i < |ids| => Trim(ids[i]))
  }

  /** The ids sent for a code: groups with the same code are one group. */
  function IdsFor(groups: seq<SupportGroup>, code: string): seq<string> {
    if groups == [] then []
    else IdsFor(groups[..|groups| - 1], code) + SentFor(groups[|groups| - 1], code)
  }

  function SentFor(g: SupportGroup, code: string): seq<string> {
    if Trim(g.requirementCode) == code then Trimmed(g.supportIds) else []
  }

  /** The codes sent, in the order they first came. */
  function Codes(groups: seq<SupportGroup>): seq<string> {
    if groups == [] then []
    else
      var earlier, code := Codes(groups[..|groups| - 1]), Trim(groups[|groups| - 1].requirementCode);
      if code in earlier then earlier else earlier + [code]
  }

  predicate Asked(reqs: seq<Requirement>, code: string) {
    exists i :: 0 <= i < |reqs| && reqs[i].code == code
  }

  /** The requested ids with the code of their requirement, in the order of the catalog. */
  function Requested(reqs: seq<Requirement>, groups: seq<SupportGroup>): seq<(string, string)> {
    if reqs == [] then []
    else
      var r := reqs[|reqs| - 1];
      Requested(reqs[..|reqs| - 1], groups) + Tagged(r.code, IdsFor(groups, r.code))
  }

  function Tagged(code: string, ids: seq<string>): seq<(string, string)> {
    seq(|ids|, i requires 0 <= i < |ids| => (code, ids[i]))
  }

  function IdsOf(pairs: seq<(string, string)>): set<string> {
    set p | p in pairs :: p.1
  }

  function AsSet(ids: seq<string>): set<string> {
    set id | id in ids
  }

  lemma AsSetSnoc(taken: set<string>, ids: seq<string>, j: nat)
    requires j < |ids|
    ensures taken + AsSet(ids[..j + 1]) == (taken + AsSet(ids[..j])) + {ids[j]}
  {
  }

  /** No id occurs twice. */
  predicate NoRepeats(pairs: seq<(string, string)>) {
    forall i, j :: 0 <= i < j < |pairs| ==> pairs[i].1 != pairs[j].1
  }

  // ----- the problem of one group

  predicate Unusable(desk: Desk, seen: set<string>, ids: seq<string>, k: nat)
    requires k < |ids|
  {
    !desk.Usable(ids[k]) || ids[k] in seen || ids[k] in ids[..k]
  }

  function ScanProblem(desk: Desk, seen: set<string>, ids: seq<string>, req: Option<Requirement>): Option<Code> {
    if exists k :: 0 <= k < |ids| && Unusable(desk, seen, ids, k) then Some(NotFound)
    else if req.Some? && exists k :: 0 <= k < |ids| && !Accepts(req.value, desk.File(ids[k]).format) then Some(InvalidFormat)
    else None
  }

  function CountProblem(req: Requirement, n: nat): Option<Code> {
    if req.required && n == 0 then Some(Missing)
    else if 0 < n < req.minFiles then Some(TooFew)
    else if req.maxFiles < n then Some(TooMany)
    else None
  }

  /** The problem of a requirement, the ids of the earlier ones being taken. */
  function RequirementProblem(desk: Desk, seen: set<string>, ids: seq<string>, req: Requirement): Option<Code> {
    var p := ScanProblem(desk, seen, ids, Some(req));
    if p.Some? then p else CountProblem(req, |ids|)
  }

  function Placed(desk: Desk, code: string, ids: seq<string>, from: nat): seq<AttachedSupport> {
    seq(|ids|, i requires 0 <= i < |ids| => AttachedSupport(code, from + i, desk.File(ids[i])))
  }

  datatype Checked = Checked(errors: seq<FieldError>, attached: seq<AttachedSupport>)

  /** The requirements of the catalog, one after the other. */
  function CheckRequirements(desk: Desk, reqs: seq<Requirement>, groups: seq<SupportGroup>): Checked {
    if reqs == [] then Checked([], [])
    else
      var rest, r := reqs[..|reqs| - 1], reqs[|reqs| - 1];
      var c, ids := CheckRequirements(desk, rest, groups), IdsFor(groups, r.code);
      match RequirementProblem(desk, IdsOf(Requested(rest, groups)), ids, r)
      case Some(p) => c.(errors := c.errors + [FieldError("supports." + r.code, p)])
      case None => c.(attached := c.attached + Placed(desk, r.code, ids, |c.attached|))
  }

  /** What is reported of one code, after `seen` ids: nothing if it was asked for. */
  function OtherError(desk: Desk, reqs: seq<Requirement>, code: string, ids: seq<string>, seen: set<string>): seq<FieldError> {
    if Asked(reqs, code) then []
    else [FieldError(if ValidRequirementCode(code) then "supports." + code else "supports",
                     if ScanProblem(desk, seen, ids, None).Some? then NotFound else NotApplicable)]
  }

  /** The groups nobody asked for, in the order they came. */
  function CheckOthers(desk: Desk, reqs: seq<Requirement>, groups: seq<SupportGroup>, codes: seq<string>, seen: set<string>): seq<FieldError> {
    if codes == [] then []
    else
      var rest, code := codes[..|codes| - 1], codes[|codes| - 1];
      CheckOthers(desk, reqs, groups, rest, seen) +
      OtherError(desk, reqs, code, IdsFor(groups, code), SeenAfter(reqs, groups, rest, seen))
  }

  function SeenAfter(reqs: seq<Requirement>, groups: seq<SupportGroup>, codes: seq<string>, seen: set<string>): set<string> {
    if codes == [] then seen
    else
      var rest, code := codes[..|codes| - 1], codes[|codes| - 1];
      SeenAfter(reqs, groups, rest, seen) + (if Asked(reqs, code) then {} else AsSet(IdsFor(groups, code)))
  }

  function Check(desk: Desk, reqs: seq<Requirement>, groups: seq<SupportGroup>): Checked {
    var c := CheckRequirements(desk, reqs, groups);
    c.(errors := (if MAX_SUPPORTS_PER_CLAIM < CountIds(groups) then [FieldError("supports", TooMany)] else []) +
                 c.errors + CheckOthers(desk, reqs, groups, Codes(groups), IdsOf(Requested(reqs, groups))))
  }

  // ----- the loops

  method CountSupports(groups: seq<SupportGroup>) returns (n: nat)
    ensures n == CountIds(groups)
  {
    n := 0;
    for i := 0 to |groups|
      invariant n == CountIds(groups[..i])
    {
      assert groups[..i + 1][..i] == groups[..i];
      n := n + |groups[i].supportIds|;
    }
    assert groups[..|groups|] == groups;
  }

  function Lookup(byCode: map<string, seq<string>>, code: string): seq<string> {
    if code in byCode then byCode[code] else []
  }

  /** Groups the request by code, and remembers the order of the codes. */
  method GroupByCode(groups: seq<SupportGroup>) returns (byCode: map<string, seq<string>>, order: seq<string>)
    ensures order == Codes(groups)
    ensures forall code :: Trimmed(Lookup(byCode, code)) == IdsFor(groups, code)
  {
    byCode, order := map[], [];
    for i := 0 to |groups|
      invariant order == Codes(groups[..i])
      invariant forall code :: code in byCode <==> code in order
      invariant forall code :: Trimmed(Lookup(byCode, code)) == IdsFor(groups[..i], code)
    {
      assert groups[..i + 1][..i] == groups[..i];
      var code := Trim(groups[i].requirementCode);
      ghost var before := byCode;
      if code !in byCode {
        order := order + [code];
      }
      byCode := byCode[code := Lookup(byCode, code) + groups[i].supportIds];
      assert Trimmed(byCode[code]) == Trimmed(Lookup(before, code)) + Trimmed(groups[i].supportIds);
    }
    assert groups[..|groups|] == groups;
  }

  /** The problem as the loop finds it, id after id. */
  function Scan(desk: Desk, seen: set<string>, ids: seq<string>, req: Option<Requirement>): Option<Code> {
    if ids == [] then None
    else
      var rest, id := ids[..|ids| - 1], ids[|ids| - 1];
      Noticed(desk, seen + AsSet(rest), id, req, Scan(desk, seen, rest, req))
  }

  /** One id: unknown, foreign or repeated outweighs a format that is not taken. */
  function Noticed(desk: Desk, seen: set<string>, id: string, req: Option<Requirement>, before: Option<Code>): Option<Code> {
    if !desk.Usable(id) || id in seen then Some(NotFound)
    else if req.Some? && !Accepts(req.value, desk.File(id).format) && before.None? then Some(InvalidFormat)
    else before
  }

  lemma {:induction false} ScanRule(desk: Desk, seen: set<string>, ids: seq<string>, req: Option<Requirement>)
    ensures Scan(desk, seen, ids, req) == ScanProblem(desk, seen, ids, req)
  {
    if ids != [] {
      var j := |ids| - 1;
      ScanRule(desk, seen, ids[..j], req);
      ScanSnoc(desk, seen, ids, j, req);
      assert ids[..j + 1] == ids;
    }
  }

  lemma ScanSnoc(desk: Desk, seen: set<string>, ids: seq<string>, j: nat, req: Option<Requirement>)
    requires j < |ids|
    ensures var before := ScanProblem(desk, seen, ids[..j], req);
            ScanProblem(desk, seen, ids[..j + 1], req) ==
              if Unusable(desk, seen, ids, j) then Some(NotFound)
              else if req.Some? && !Accepts(req.value, desk.File(ids[j]).format) && before.None? then Some(InvalidFormat)
              else before
  {
    var a, b := ids[..j], ids[..j + 1];
    assert forall k :: 0 <= k < j ==> a[k] == b[k] == ids[k] && a[..k] == b[..k] == ids[..k];
    assert b[j] == ids[j] && b[..j] == ids[..j];
    assert forall k :: 0 <= k < j ==> (Unusable(desk, seen, a, k) <==> Unusable(desk, seen, b, k));
    assert Unusable(desk, seen, b, j) <==> Unusable(desk, seen, ids, j);
  }

  lemma ScanStep(desk: Desk, seen: set<string>, ids: seq<string>, j: nat, req: Option<Requirement>)
    requires j < |ids|
    ensures Scan(desk, seen, ids[..j + 1], req) == Noticed(desk, seen + AsSet(ids[..j]), ids[j], req, Scan(desk, seen, ids[..j], req))
    ensures FilesOf(desk, ids[..j + 1]) == FilesOf(desk, ids[..j]) + [desk.File(ids[j])]
  {
    assert ids[..j + 1][..j] == ids[..j];
  }

  function FilesOf(desk: Desk, ids: seq<string>): seq<SupportFile> {
    seq(|ids|, i requires 0 <= i < |ids| => desk.File(ids[i]))
  }

  /** Reads the files of one group; `seen` carries over from group to group. */
  method ScanFiles(desk: Desk, raw: seq<string>, taken: set<string>, req: Option<Requirement>)
    returns (files: seq<SupportFile>, problem: Option<Code>, seen: set<string>)
    ensures files == FilesOf(desk, Trimmed(raw))
    ensures problem == ScanProblem(desk, taken, Trimmed(raw), req)
    ensures seen == taken + AsSet(Trimmed(raw))
  {
    files, problem, seen := [], None, taken;
    ghost var ids := Trimmed(raw);
    for j := 0 to |raw|
      invariant files == FilesOf(desk, ids[..j])
      invariant problem == Scan(desk, taken, ids[..j], req)
      invariant seen == taken + AsSet(ids[..j])
    {
      var id := Trim(raw[j]);
      ScanStep(desk, taken, ids, j, req);
      AsSetSnoc(taken, ids, j);
      problem := Noticed(desk, seen, id, req, problem);
      seen := seen + {id};
      files := files + [desk.File(id)];
    }
    assert ids[..|raw|] == ids;
    ScanRule(desk, taken, ids, req);
  }

  lemma IdsOfSnoc(reqs: seq<Requirement>, groups: seq<SupportGroup>, i: nat)
    requires i < |reqs|
    ensures IdsOf(Requested(reqs[..i + 1], groups)) == IdsOf(Requested(reqs[..i], groups)) + AsSet(IdsFor(groups, reqs[i].code))
  {
    assert reqs[..i + 1][..i] == reqs[..i];
    var a, ids := Requested(reqs[..i], groups), IdsFor(groups, reqs[i].code);
    var b := Tagged(reqs[i].code, ids);
    forall id | id in ids
      ensures id in IdsOf(b)
    {
      var k :| 0 <= k < |ids| && ids[k] == id;
      assert b[k] in b;
    }
    assert forall id :: id in IdsOf(a + b) <==> id in IdsOf(a) || id in IdsOf(b);
  }

  /** The requirements of the catalog, in order, against what came for them. */
  method MatchRequirements(desk: Desk, reqs: seq<Requirement>, groups: seq<SupportGroup>, byCode: map<string, seq<string>>)
    returns (errors: seq<FieldError>, attached: seq<AttachedSupport>, seen: set<string>)
    requires forall code :: Trimmed(Lookup(byCode, code)) == IdsFor(groups, code)
    ensures Checked(errors, attached) == CheckRequirements(desk, reqs, groups)
    ensures seen == IdsOf(Requested(reqs, groups))
  {
    errors, attached, seen := [], [], {};
    for i := 0 to |reqs|
      invariant Checked(errors, attached) == CheckRequirements(desk, reqs[..i], groups)
      invariant seen == IdsOf(Requested(reqs[..i], groups))
    {
      var req := reqs[i];
      assert reqs[..i + 1][..i] == reqs[..i];
      IdsOfSnoc(reqs, groups, i);
      var files, problem, seen' := ScanFiles(desk, Lookup(byCode, req.code), seen, Some(req));
      seen := seen';
      var n := |files|;
      if problem.Some? {
      } else if req.required && n == 0 {
        problem := Some(Missing);
      } else if n > 0 && n < req.minFiles {
        problem := Some(TooFew);
      } else if n > req.maxFiles {
        problem := Some(TooMany);
      }
      if problem.Some? {
        errors := errors + [FieldError("supports." + req.code, problem.value)];
      } else {
        attached := PlaceFiles(desk, attached, req.code, files, IdsFor(groups, req.code));
      }
    }
    assert reqs[..|reqs|] == reqs;
  }

  method PlaceFiles(desk: Desk, before: seq<AttachedSupport>, code: string, files: seq<SupportFile>, ghost ids: seq<string>)
    returns (attached: seq<AttachedSupport>)
    requires files == FilesOf(desk, ids)
    ensures attached == before + Placed(desk, code, ids, |before|)
  {
    attached := before;
    for j := 0 to |files|
      invariant attached == before + Placed(desk, code, ids, |before|)[..j]
    {
      attached := attached + [AttachedSupport(code, |attached|, files[j])];
    }
  }

  /** Groups the claim type does not ask for, in the order they came. */
  method MatchOthers(desk: Desk, reqs: seq<Requirement>, groups: seq<SupportGroup>, byCode: map<string, seq<string>>,
                     order: seq<string>, taken: set<string>)
    returns (errors: seq<FieldError>)
    requires forall code :: Trimmed(Lookup(byCode, code)) == IdsFor(groups, code)
    ensures errors == CheckOthers(desk, reqs, groups, order, taken)
  {
    errors := [];
    var seen := taken;
    for i := 0 to |order|
      invariant errors == CheckOthers(desk, reqs, groups, order[..i], taken)
      invariant seen == SeenAfter(reqs, groups, order[..i], taken)
    {
      OthersSnoc(desk, reqs, groups, order, i, taken);
      assert Trimmed(Lookup(byCode, order[i])) == IdsFor(groups, order[i]);
      var error, seen' := MatchOther(desk, reqs, order[i], Lookup(byCode, order[i]), seen);
      errors, seen := errors + error, seen';
    }
    assert order[..|order|] == order;
  }

  lemma OthersSnoc(desk: Desk, reqs: seq<Requirement>, groups: seq<SupportGroup>, codes: seq<string>, i: nat, seen: set<string>)
    requires i < |codes|
    ensures var code, before := codes[i], SeenAfter(reqs, groups, codes[..i], seen);
            && CheckOthers(desk, reqs, groups, codes[..i + 1], seen) ==
                 CheckOthers(desk, reqs, groups, codes[..i], seen) + OtherError(desk, reqs, code, IdsFor(groups, code), before)
            && SeenAfter(reqs, groups, codes[..i + 1], seen) ==
                 before + (if Asked(reqs, code) then {} else AsSet(IdsFor(groups, code)))
  {
    assert codes[..i + 1][..i] == codes[..i];
  }

  method MatchOther(desk: Desk, reqs: seq<Requirement>, code: string, raw: seq<string>, taken: set<string>)
    returns (error: seq<FieldError>, seen: set<string>)
    ensures error == OtherError(desk, reqs, code, Trimmed(raw), taken)
    ensures seen == taken + if Asked(reqs, code) then {} else AsSet(Trimmed(raw))
  {
    if Asked(reqs, code) {
      return [], taken;
    }
    var field := "supports." + code;
    if !ValidRequirementCode(code) {
      field := "supports";
    }
    var files, problem, seen' := ScanFiles(desk, raw, taken, None);
    seen := seen';
    if problem == Some(NotFound) {
      error := [FieldError(field, NotFound)];
    } else {
      error := [FieldError(field, NotApplicable)];
    }
  }

  /** Matches the groups of a request with the requirements of its claim type. */
  method CheckSupports(desk: Desk, reqs: seq<Requirement>, groups: seq<SupportGroup>)
    returns (errors: seq<FieldError>, attached: seq<AttachedSupport>)
    ensures Checked(errors, attached) == Check(desk, reqs, groups)
  {
    var n := CountSupports(groups);
    errors := if n > MAX_SUPPORTS_PER_CLAIM then [FieldError("supports", TooMany)] else [];
    var byCode, order := GroupByCode(groups);
    var found, files, seen := MatchRequirements(desk, reqs, groups, byCode);
    var others := MatchOthers(desk, reqs, groups, byCode, order, seen);
    errors, attached := errors + found + others, files;
  }

  // ----- the rule of the catalog

  /** A requirement is met: files of the subject in an accepted format, as many as it takes. */
  predicate Meets(desk: Desk, req: Requirement, ids: seq<string>) {
    && (forall k :: 0 <= k < |ids| ==> Suits(desk, req, ids[k]))
    && Enough(req, |ids|)
  }

  /** A well-formed id of an uploaded file: of the subject, confirmed, and of a known format that the requirement takes. */
  predicate Suits(desk: Desk, req: Requirement, id: string) {
    && "sup-" <= id && |id| == 4 + 32 && (forall i :: 0 <= i < 32 ==> HexDigit(id[4..][i]))
    && id in desk.uploaded
    && var f := desk.uploaded[id];
    && f.owner == desk.subject && f.confirmedAt != None && exists x :: x in req.formats && f.format == Some(x)
  }

  lemma SuitsExactlyWhen(desk: Desk, req: Requirement, id: string)
    ensures Suits(desk, req, id) <==> desk.Usable(id) && Accepts(req, desk.File(id).format)
  {
    if |id| == 36 {
      assert "sup-" <= id <==> id[..4] == "sup-";
      assert forall i :: 4 <= i < 36 ==> id[i] == id[4..][i - 4];
    }
  }

  /** As many files as the requirement takes. */
  predicate Enough(req: Requirement, n: nat) {
    (req.required ==> 0 < n) && (0 < n ==> req.minFiles <= n) && n <= req.maxFiles
  }

  predicate OnlyAsked(reqs: seq<Requirement>, groups: seq<SupportGroup>) {
    forall i :: 0 <= i < |groups| ==> Asked(reqs, Trim(groups[i].requirementCode))
  }

  /** What the catalog asks of a request, without saying how it is checked. */
  predicate MeetsCatalog(desk: Desk, reqs: seq<Requirement>, groups: seq<SupportGroup>) {
    && CountIds(groups) <= MAX_SUPPORTS_PER_CLAIM
    && OnlyAsked(reqs, groups)
    && AllMet(desk, reqs, groups)
    && NoRepeats(Requested(reqs, groups))
  }

  predicate AllUsable(desk: Desk, ids: seq<string>) {
    forall k :: 0 <= k < |ids| ==> desk.Usable(ids[k])
  }

  predicate Distinct(ids: seq<string>) {
    forall i, j :: 0 <= i < j < |ids| ==> ids[i] != ids[j]
  }

  lemma ScanFindsNothing(desk: Desk, seen: set<string>, ids: seq<string>)
    ensures (forall k :: 0 <= k < |ids| ==> !Unusable(desk, seen, ids, k)) <==> AllUsable(desk, ids) && AsSet(ids) !! seen && Distinct(ids)
  {
    if forall k :: 0 <= k < |ids| ==> !Unusable(desk, seen, ids, k) {
      forall i, j | 0 <= i < j < |ids|
        ensures ids[i] != ids[j]
      {
        assert !Unusable(desk, seen, ids, j) && ids[..j][i] == ids[i];
      }
      forall k | 0 <= k < |ids|
        ensures desk.Usable(ids[k])
      {
        assert !Unusable(desk, seen, ids, k);
      }
      forall id | id in AsSet(ids)
        ensures id !in seen
      {
        var k :| 0 <= k < |ids| && ids[k] == id;
        assert !Unusable(desk, seen, ids, k);
      }
    }
    if AsSet(ids) !! seen && Distinct(ids) && AllUsable(desk, ids) {
      forall k | 0 <= k < |ids|
        ensures !Unusable(desk, seen, ids, k)
      {
        assert ids[k] in AsSet(ids);
      }
    }
  }

  lemma NoRepeatsSnoc(pairs: seq<(string, string)>, code: string, ids: seq<string>)
    ensures NoRepeats(pairs + Tagged(code, ids)) <==> NoRepeats(pairs) && Distinct(ids) && AsSet(ids) !! IdsOf(pairs)
  {
    var both := pairs + Tagged(code, ids);
    assert forall i :: 0 <= i < |pairs| ==> both[i] == pairs[i];
    assert forall i :: 0 <= i < |ids| ==> both[|pairs| + i].1 == ids[i];
    if NoRepeats(both) {
      forall id | id in AsSet(ids)
        ensures id !in IdsOf(pairs)
      {
        var j :| 0 <= j < |ids| && ids[j] == id;
        assert both[|pairs| + j].1 == id;
      }
    }
    if NoRepeats(pairs) && Distinct(ids) && AsSet(ids) !! IdsOf(pairs) {
      forall i, j | 0 <= i < j < |both|
        ensures both[i].1 != both[j].1
      {
        if i < |pairs| <= j {
          assert pairs[i].1 in IdsOf(pairs) && ids[j - |pairs|] in AsSet(ids);
        }
      }
    }
  }

  predicate AllMet(desk: Desk, reqs: seq<Requirement>, groups: seq<SupportGroup>) {
    forall i :: 0 <= i < |reqs| ==> Meets(desk, reqs[i], IdsFor(groups, reqs[i].code))
  }

  lemma AllMetSnoc(desk: Desk, rest: seq<Requirement>, r: Requirement, groups: seq<SupportGroup>)
    ensures AllMet(desk, rest + [r], groups) <==> AllMet(desk, rest, groups) && Meets(desk, r, IdsFor(groups, r.code))
  {
    var reqs := rest + [r];
    assert forall i :: 0 <= i < |rest| ==> rest[i] == reqs[i];
    assert reqs[|rest|] == r;
  }

  lemma {:induction false} RequirementsRule(desk: Desk, reqs: seq<Requirement>, groups: seq<SupportGroup>)
    ensures CheckRequirements(desk, reqs, groups).errors == [] <==> AllMet(desk, reqs, groups) && NoRepeats(Requested(reqs, groups))
  {
    if reqs != [] {
      var rest, r := reqs[..|reqs| - 1], reqs[|reqs| - 1];
      assert reqs == rest + [r];
      RequirementsRule(desk, rest, groups);
      CheckSnoc(desk, rest, r, groups);
      AllMetSnoc(desk, rest, r, groups);
      RequirementRule(desk, r, IdsFor(groups, r.code), Requested(rest, groups));
    }
  }

  lemma CheckSnoc(desk: Desk, rest: seq<Requirement>, r: Requirement, groups: seq<SupportGroup>)
    ensures CheckRequirements(desk, rest + [r], groups).errors == []
       <==> && CheckRequirements(desk, rest, groups).errors == []
            && RequirementProblem(desk, IdsOf(Requested(rest, groups)), IdsFor(groups, r.code), r).None?
    ensures Requested(rest + [r], groups) == Requested(rest, groups) + Tagged(r.code, IdsFor(groups, r.code))
  {
  }

  lemma RequirementRule(desk: Desk, r: Requirement, ids: seq<string>, before: seq<(string, string)>)
    ensures NoRepeats(before + Tagged(r.code, ids)) ==> NoRepeats(before)
    ensures NoRepeats(before) ==>
              (RequirementProblem(desk, IdsOf(before), ids, r).None? <==> Meets(desk, r, ids) && NoRepeats(before + Tagged(r.code, ids)))
  {
    ScanFindsNothing(desk, IdsOf(before), ids);
    NoRepeatsSnoc(before, r.code, ids);
    forall k | 0 <= k < |ids|
      ensures Suits(desk, r, ids[k]) <==> desk.Usable(ids[k]) && Accepts(r, desk.File(ids[k]).format)
    {
      SuitsExactlyWhen(desk, r, ids[k]);
    }
  }

  lemma {:induction false} CodesRule(groups: seq<SupportGroup>, code: string)
    ensures code in Codes(groups) <==> exists i :: 0 <= i < |groups| && Trim(groups[i].requirementCode) == code
  {
    if groups != [] {
      var rest := groups[..|groups| - 1];
      CodesRule(rest, code);
      assert forall i :: 0 <= i < |rest| ==> rest[i] == groups[i];
    }
  }

  lemma {:induction false} OthersRule(desk: Desk, reqs: seq<Requirement>, groups: seq<SupportGroup>, codes: seq<string>, seen: set<string>)
    ensures CheckOthers(desk, reqs, groups, codes, seen) == [] <==> forall i :: 0 <= i < |codes| ==> Asked(reqs, codes[i])
  {
    if codes != [] {
      var n := |codes| - 1;
      var rest := codes[..n];
      OthersRule(desk, reqs, groups, rest, seen);
      OthersSnoc(desk, reqs, groups, codes, n, seen);
      assert codes[..n + 1] == codes;
      assert OtherError(desk, reqs, codes[n], IdsFor(groups, codes[n]), SeenAfter(reqs, groups, rest, seen)) == [] <==> Asked(reqs, codes[n]);
      assert forall i :: 0 <= i < n ==> rest[i] == codes[i];
    }
  }

  /** The check reports nothing exactly when the request meets the catalog. */
  lemma ReportsNothingExactlyWhen(desk: Desk, reqs: seq<Requirement>, groups: seq<SupportGroup>)
    ensures Check(desk, reqs, groups).errors == [] <==> MeetsCatalog(desk, reqs, groups)
  {
    RequirementsRule(desk, reqs, groups);
    OthersReportNothing(desk, reqs, groups, IdsOf(Requested(reqs, groups)));
    NoneOfThree(if MAX_SUPPORTS_PER_CLAIM < CountIds(groups) then [FieldError("supports", TooMany)] else [],
                CheckRequirements(desk, reqs, groups).errors,
                CheckOthers(desk, reqs, groups, Codes(groups), IdsOf(Requested(reqs, groups))));
  }

  lemma NoneOfThree<T>(a: seq<T>, b: seq<T>, c: seq<T>)
    ensures a + b + c == [] <==> a == [] && b == [] && c == []
  {
  }

  lemma OthersReportNothing(desk: Desk, reqs: seq<Requirement>, groups: seq<SupportGroup>, seen: set<string>)
    ensures CheckOthers(desk, reqs, groups, Codes(groups), seen) == [] <==> OnlyAsked(reqs, groups)
  {
    OthersRule(desk, reqs, groups, Codes(groups), seen);
    AskedRule(reqs, groups);
  }

  lemma AskedRule(reqs: seq<Requirement>, groups: seq<SupportGroup>)
    ensures OnlyAsked(reqs, groups) <==> forall i :: 0 <= i < |Codes(groups)| ==> Asked(reqs, Codes(groups)[i])
  {
    var codes := Codes(groups);
    forall i | 0 <= i < |codes|
      ensures exists k :: 0 <= k < |groups| && Trim(groups[k].requirementCode) == codes[i]
    {
      CodesRule(groups, codes[i]);
    }
    forall k | 0 <= k < |groups|
      ensures exists i :: 0 <= i < |codes| && Trim(groups[k].requirementCode) == codes[i]
    {
      CodesRule(groups, Trim(groups[k].requirementCode));
    }
  }

  // ----- what is reported

  /** Every id is usable and new: not among the ones before, nor twice. */
  predicate AllFound(desk: Desk, seen: set<string>, ids: seq<string>) {
    AllUsable(desk, ids) && AsSet(ids) !! seen && Distinct(ids)
  }

  /**
   The requirement `i` of the catalog is reported with the code: a file that is
   not found comes first, then a format it does not take, then the number of files.
   */
  predicate ReportedFor(desk: Desk, reqs: seq<Requirement>, groups: seq<SupportGroup>, i: nat, code: Code)
    requires i < |reqs|
  {
    var r, ids := reqs[i], IdsFor(groups, reqs[i].code);
    var found := AllFound(desk, IdsOf(Requested(reqs[..i], groups)), ids);
    var taken := forall k :: 0 <= k < |ids| ==> Accepts(r, desk.File(ids[k]).format);
    match code
    case NotFound => !found
    case InvalidFormat => found && !taken
    case Missing => r.required && |ids| == 0
    case TooFew => found && taken && 0 < |ids| < r.minFiles
    case TooMany => found && taken && r.maxFiles < |ids| && (if |ids| == 0 then !r.required else r.minFiles <= |ids|)
    case NotApplicable => false
  }

  lemma ProblemRule(desk: Desk, reqs: seq<Requirement>, groups: seq<SupportGroup>, i: nat, code: Code)
    requires i < |reqs|
    ensures RequirementProblem(desk, IdsOf(Requested(reqs[..i], groups)), IdsFor(groups, reqs[i].code), reqs[i]) == Some(code)
       <==> ReportedFor(desk, reqs, groups, i, code)
  {
    ScanFindsNothing(desk, IdsOf(Requested(reqs[..i], groups)), IdsFor(groups, reqs[i].code));
  }

  /** One of the first n requirements is reported as the error says. */
  predicate SomeReported(desk: Desk, reqs: seq<Requirement>, groups: seq<SupportGroup>, n: nat, e: FieldError)
    requires n <= |reqs|
  {
    exists i :: 0 <= i < n && ReportedAt(desk, reqs, groups, i, e)
  }

  predicate ReportedAt(desk: Desk, reqs: seq<Requirement>, groups: seq<SupportGroup>, i: nat, e: FieldError)
    requires i < |reqs|
  {
    e.field == "supports." + reqs[i].code && ReportedFor(desk, reqs, groups, i, e.code)
  }

  lemma RequirementErrorsSnoc(desk: Desk, reqs: seq<Requirement>, groups: seq<SupportGroup>, i: nat, e: FieldError)
    requires i < |reqs|
    ensures e in CheckRequirements(desk, reqs[..i + 1], groups).errors
       <==> e in CheckRequirements(desk, reqs[..i], groups).errors || ReportedAt(desk, reqs, groups, i, e)
  {
    assert reqs[..i + 1] == reqs[..i] + [reqs[i]];
    ErrorsSnoc(desk, reqs[..i], reqs[i], groups, e);
    ProblemRule(desk, reqs, groups, i, e.code);
  }

  lemma SomeReportedSnoc(desk: Desk, reqs: seq<Requirement>, groups: seq<SupportGroup>, i: nat, e: FieldError)
    requires i < |reqs|
    ensures SomeReported(desk, reqs, groups, i + 1, e) <==> SomeReported(desk, reqs, groups, i, e) || ReportedAt(desk, reqs, groups, i, e)
  {
  }

  lemma {:induction false} RequirementErrors(desk: Desk, reqs: seq<Requirement>, groups: seq<SupportGroup>, n: nat, e: FieldError)
    requires n <= |reqs|
    ensures e in CheckRequirements(desk, reqs[..n], groups).errors <==> SomeReported(desk, reqs, groups, n, e)
  {
    if n == 0 {
      assert reqs[..0] == [];
    } else {
      var i := n - 1;
      RequirementErrors(desk, reqs, groups, i, e);
      RequirementErrorsSnoc(desk, reqs, groups, i, e);
      SomeReportedSnoc(desk, reqs, groups, i, e);
    }
  }

  lemma ErrorsSnoc(desk: Desk, rest: seq<Requirement>, r: Requirement, groups: seq<SupportGroup>, e: FieldError)
    ensures e in CheckRequirements(desk, rest + [r], groups).errors <==>
              || e in CheckRequirements(desk, rest, groups).errors
              || (e.field == "supports." + r.code
                  && RequirementProblem(desk, IdsOf(Requested(rest, groups)), IdsFor(groups, r.code), r) == Some(e.code))
  {
    assert (rest + [r])[..|rest|] == rest;
  }

  /** A code nobody asked for is reported, under its name when it is one: its files are not found, or it does not apply. */
  predicate ReportedAs(desk: Desk, reqs: seq<Requirement>, code: string, ids: seq<string>, seen: set<string>, e: FieldError) {
    var named := code != "" && |code| <= 40 && forall i :: 0 <= i < |code| ==> 'a' <= code[i] <= 'z' || code[i] == '_';
    && !Asked(reqs, code)
    && e.field == (if named then "supports." + code else "supports")
    && e.code == (if AllFound(desk, seen, ids) then NotApplicable else NotFound)
  }

  lemma OtherRule(desk: Desk, reqs: seq<Requirement>, code: string, ids: seq<string>, seen: set<string>, e: FieldError)
    ensures e in OtherError(desk, reqs, code, ids, seen) <==> ReportedAs(desk, reqs, code, ids, seen, e)
  {
    ScanFindsNothing(desk, seen, ids);
  }

  /** The i-th code of the request is reported so, the ids of the requirements and of the codes before it being taken. */
  predicate ReportedBesides(desk: Desk, reqs: seq<Requirement>, groups: seq<SupportGroup>, codes: seq<string>, i: nat, seen: set<string>, e: FieldError)
    requires i < |codes|
  {
    ReportedAs(desk, reqs, codes[i], IdsFor(groups, codes[i]), SeenAfter(reqs, groups, codes[..i], seen), e)
  }

  lemma OtherErrorsSnoc(desk: Desk, reqs: seq<Requirement>, groups: seq<SupportGroup>, codes: seq<string>, i: nat, seen: set<string>, e: FieldError)
    requires i < |codes|
    ensures e in CheckOthers(desk, reqs, groups, codes[..i + 1], seen)
       <==> e in CheckOthers(desk, reqs, groups, codes[..i], seen) || ReportedBesides(desk, reqs, groups, codes, i, seen, e)
  {
    OthersSnoc(desk, reqs, groups, codes, i, seen);
    OtherRule(desk, reqs, codes[i], IdsFor(groups, codes[i]), SeenAfter(reqs, groups, codes[..i], seen), e);
  }

  ghost predicate SomeBesides(desk: Desk, reqs: seq<Requirement>, groups: seq<SupportGroup>, codes: seq<string>, n: nat, seen: set<string>, e: FieldError)
    requires n <= |codes|
  {
    exists i :: 0 <= i < n && ReportedBesides(desk, reqs, groups, codes, i, seen, e)
  }

  lemma SomeBesidesSnoc(desk: Desk, reqs: seq<Requirement>, groups: seq<SupportGroup>, codes: seq<string>, i: nat, seen: set<string>, e: FieldError)
    requires i < |codes|
    ensures SomeBesides(desk, reqs, groups, codes, i + 1, seen, e)
       <==> SomeBesides(desk, reqs, groups, codes, i, seen, e) || ReportedBesides(desk, reqs, groups, codes, i, seen, e)
  {
  }

  lemma {:induction false} OtherErrors(desk: Desk, reqs: seq<Requirement>, groups: seq<SupportGroup>, codes: seq<string>,
                                       n: nat, seen: set<string>, e: FieldError)
    requires n <= |codes|
    ensures e in CheckOthers(desk, reqs, groups, codes[..n], seen) <==> SomeBesides(desk, reqs, groups, codes, n, seen, e)
  {
    if n == 0 {
      assert codes[..0] == [];
    } else {
      var i := n - 1;
      OtherErrors(desk, reqs, groups, codes, i, seen, e);
      OtherErrorsSnoc(desk, reqs, groups, codes, i, seen, e);
      SomeBesidesSnoc(desk, reqs, groups, codes, i, seen, e);
    }
  }

  /** Exactly what is reported of any request: too many files in all, the problem of each requirement, and each code nobody asked for. */
  lemma ReportedExactlyWhen(desk: Desk, reqs: seq<Requirement>, groups: seq<SupportGroup>, e: FieldError)
    ensures var codes, seen := Codes(groups), IdsOf(Requested(reqs, groups));
            e in Check(desk, reqs, groups).errors <==>
              || (e == FieldError("supports", TooMany) && 20 < CountIds(groups))
              || SomeReported(desk, reqs, groups, |reqs|, e)
              || SomeBesides(desk, reqs, groups, codes, |codes|, seen, e)
  {
    var codes, seen := Codes(groups), IdsOf(Requested(reqs, groups));
    assert reqs[..|reqs|] == reqs && codes[..|codes|] == codes;
    RequirementErrors(desk, reqs, groups, |reqs|, e);
    OtherErrors(desk, reqs, groups, codes, |codes|, seen, e);
    InOneOfThree(if MAX_SUPPORTS_PER_CLAIM < CountIds(groups) then [FieldError("supports", TooMany)] else [],
                 CheckRequirements(desk, reqs, groups).errors, CheckOthers(desk, reqs, groups, codes, seen), e);
  }

  lemma InOneOfThree<T>(a: seq<T>, b: seq<T>, c: seq<T>, x: T)
    ensures x in a + b + c <==> x in a || x in b || x in c
  {
  }

  /** The requested pairs as attached files, numbered from 0. */
  function AttachedInOrder(desk: Desk, pairs: seq<(string, string)>): seq<AttachedSupport> {
    seq(|pairs|, k requires 0 <= k < |pairs| => AttachedSupport(pairs[k].0, k, desk.File(pairs[k].1)))
  }

  lemma {:induction false} AttachedWithoutErrors(desk: Desk, reqs: seq<Requirement>, groups: seq<SupportGroup>)
    requires CheckRequirements(desk, reqs, groups).errors == []
    ensures CheckRequirements(desk, reqs, groups).attached == AttachedInOrder(desk, Requested(reqs, groups))
  {
    if reqs != [] {
      var rest, r := reqs[..|reqs| - 1], reqs[|reqs| - 1];
      AttachedWithoutErrors(desk, rest, groups);
      AttachedSnoc(desk, Requested(rest, groups), r.code, IdsFor(groups, r.code));
    }
  }

  lemma AttachedSnoc(desk: Desk, pairs: seq<(string, string)>, code: string, ids: seq<string>)
    ensures AttachedInOrder(desk, pairs + Tagged(code, ids)) == AttachedInOrder(desk, pairs) + Placed(desk, code, ids, |pairs|)
  {
  }

  lemma {:induction false} SentIsRequested(reqs: seq<Requirement>, groups: seq<SupportGroup>, code: string, id: string)
    requires id in IdsFor(groups, code) && Asked(reqs, code)
    ensures (code, id) in Requested(reqs, groups)
  {
    var rest, r := reqs[..|reqs| - 1], reqs[|reqs| - 1];
    if r.code == code {
      TaggedMember(code, IdsFor(groups, code), id);
    } else {
      var i :| 0 <= i < |reqs| && reqs[i].code == code;
      assert rest[i] == reqs[i];
      SentIsRequested(rest, groups, code, id);
    }
  }

  lemma TaggedMember(code: string, ids: seq<string>, id: string)
    requires id in ids
    ensures (code, id) in Tagged(code, ids)
  {
    var k :| 0 <= k < |ids| && ids[k] == id;
    assert Tagged(code, ids)[k] == (code, id);
  }

  lemma {:induction false} RequestedWasSent(reqs: seq<Requirement>, groups: seq<SupportGroup>, k: nat)
    requires k < |Requested(reqs, groups)|
    ensures var p := Requested(reqs, groups)[k]; p.1 in IdsFor(groups, p.0) && exists i :: 0 <= i < |reqs| && reqs[i].code == p.0
  {
    var rest, r := reqs[..|reqs| - 1], reqs[|reqs| - 1];
    if k < |Requested(rest, groups)| {
      RequestedWasSent(rest, groups, k);
      var i :| 0 <= i < |rest| && rest[i].code == Requested(rest, groups)[k].0;
      assert reqs[i] == rest[i];
    }
  }

  /** A requirement of that code takes the file. */
  predicate TakenBy(desk: Desk, reqs: seq<Requirement>, pair: (string, string)) {
    exists i :: 0 <= i < |reqs| && reqs[i].code == pair.0 && Suits(desk, reqs[i], pair.1)
  }

  /**
   When nothing is reported, the attached files are the requested ones in the
   order of the catalog and numbered 0..n-1, each usable and of a format its
   requirement takes, as many as each requirement asks; no id is attached twice,
   and every id that was sent is attached under its code.
   */
  lemma AttachedIsWhatWasAsked(desk: Desk, reqs: seq<Requirement>, groups: seq<SupportGroup>)
    requires Check(desk, reqs, groups).errors == []
    ensures var pairs := Requested(reqs, groups);
            && Check(desk, reqs, groups).attached == AttachedInOrder(desk, pairs)
            && NoRepeats(pairs)
            && (forall k :: 0 <= k < |pairs| ==> TakenBy(desk, reqs, pairs[k]))
    ensures forall i :: 0 <= i < |reqs| ==> Enough(reqs[i], |IdsFor(groups, reqs[i].code)|)
    ensures forall code, id :: id in IdsFor(groups, code) ==> (code, id) in Requested(reqs, groups)
  {
    var pairs := Requested(reqs, groups);
    ReportsNothingExactlyWhen(desk, reqs, groups);
    AttachedWithoutErrors(desk, reqs, groups);
    forall k | 0 <= k < |pairs|
      ensures TakenBy(desk, reqs, pairs[k])
    {
      RequestedWasSent(reqs, groups, k);
      var i :| 0 <= i < |reqs| && reqs[i].code == pairs[k].0;
      assert Meets(desk, reqs[i], IdsFor(groups, reqs[i].code));
    }
    forall i | 0 <= i < |reqs|
      ensures Enough(reqs[i], |IdsFor(groups, reqs[i].code)|)
    {
      assert Meets(desk, reqs[i], IdsFor(groups, reqs[i].code));
    }
    forall code, id | id in IdsFor(groups, code)
      ensures (code, id) in pairs
    {
      SentUnder(groups, code, id);
      SentIsRequested(reqs, groups, code, id);
    }
  }

  lemma {:induction false} SentUnder(groups: seq<SupportGroup>, code: string, id: string)
    requires id in IdsFor(groups, code)
    ensures exists i :: 0 <= i < |groups| && Trim(groups[i].requirementCode) == code
  {
    var rest := groups[..|groups| - 1];
    if id in IdsFor(rest, code) {
      SentUnder(rest, code, id);
      var i :| 0 <= i < |rest| && Trim(rest[i].requirementCode) == code;
      assert groups[i] == rest[i];
    }
  }

  // ----- the order of the groups

  lemma IdsForSnoc(groups: seq<SupportGroup>, g: SupportGroup, code: string)
    ensures IdsFor(groups + [g], code) == IdsFor(groups, code) + SentFor(g, code)
  {
  }

  lemma {:induction false} CountConcat(a: seq<SupportGroup>, b: seq<SupportGroup>)
    ensures CountIds(a + b) == CountIds(a) + CountIds(b)
    decreases |b|
  {
    if b == [] {
      assert a + b == a;
    } else {
      CountConcat(a, b[..|b| - 1]);
      assert (a + b)[..|a + b| - 1] == a + b[..|b| - 1];
    }
  }

  lemma {:induction false} SameIdsSameCheck(desk: Desk, reqs: seq<Requirement>, groups: seq<SupportGroup>, groups': seq<SupportGroup>)
    requires forall code :: IdsFor(groups, code) == IdsFor(groups', code)
    ensures Requested(reqs, groups) == Requested(reqs, groups')
    ensures CheckRequirements(desk, reqs, groups) == CheckRequirements(desk, reqs, groups')
  {
    if reqs != [] {
      SameIdsSameCheck(desk, reqs[..|reqs| - 1], groups, groups');
    }
  }

  lemma SameIdsSameRule(desk: Desk, reqs: seq<Requirement>, groups: seq<SupportGroup>, groups': seq<SupportGroup>)
    requires (forall code :: IdsFor(groups, code) == IdsFor(groups', code)) && CountIds(groups) == CountIds(groups')
    requires OnlyAsked(reqs, groups) <==> OnlyAsked(reqs, groups')
    ensures Check(desk, reqs, groups).attached == Check(desk, reqs, groups').attached
    ensures Check(desk, reqs, groups).errors == [] <==> Check(desk, reqs, groups').errors == []
  {
    SameIdsSameCheck(desk, reqs, groups, groups');
    assert MeetsCatalog(desk, reqs, groups) <==> MeetsCatalog(desk, reqs, groups');
    ReportsNothingExactlyWhen(desk, reqs, groups);
    ReportsNothingExactlyWhen(desk, reqs, groups');
  }

  function Under(code: string): SupportGroup -> bool {
    (g: SupportGroup) => Trim(g.requirementCode) == code
  }

  /** The groups of one code, in the order they came. */
  function GroupsFor(groups: seq<SupportGroup>, code: string): seq<SupportGroup> {
    Filter(Under(code), groups)
  }

  lemma {:induction false} IdsComeFromTheirGroups(groups: seq<SupportGroup>, code: string)
    ensures IdsFor(groups, code) == IdsFor(GroupsFor(groups, code), code)
  {
    if groups != [] {
      var rest, g := groups[..|groups| - 1], groups[|groups| - 1];
      IdsComeFromTheirGroups(rest, code);
      if Under(code)(g) {
        IdsForSnoc(GroupsFor(rest, code), g, code);
      } else {
        NothingAdded(IdsFor(rest, code), SentFor(g, code));
        NothingAdded(GroupsFor(rest, code), []);
      }
    }
  }

  lemma NothingAdded<T>(a: seq<T>, b: seq<T>)
    requires b == []
    ensures a + b == a
  {
  }

  lemma {:induction false} CountPermutes(groups: seq<SupportGroup>, groups': seq<SupportGroup>)
    requires multiset(groups) == multiset(groups')
    ensures CountIds(groups) == CountIds(groups')
    decreases |groups|
  {
    SameLength(groups, groups');
    if groups != [] {
      var rest, g := groups[..|groups| - 1], groups[|groups| - 1];
      assert groups == rest + [g];
      assert g in multiset(groups');
      var a, b := MemberSplits(groups', g);
      assert multiset(rest) == multiset(groups) - multiset{g};
      CountPermutes(rest, a + b);
      CountConcat(a, b);
      CountConcat(a + [g], b);
      CountConcat(a, [g]);
      assert CountIds([g]) == |g.supportIds| by { assert [g][..0] == []; }
    }
  }

  lemma SameGroupsPermute(groups: seq<SupportGroup>, groups': seq<SupportGroup>)
    requires forall code :: GroupsFor(groups, code) == GroupsFor(groups', code)
    ensures multiset(groups) == multiset(groups')
  {
    forall g
      ensures multiset(groups)[g] == multiset(groups')[g]
    {
      var code := Trim(g.requirementCode);
      FilterCount(Under(code), groups, g);
      FilterCount(Under(code), groups', g);
      assert GroupsFor(groups, code) == GroupsFor(groups', code);
    }
  }

  lemma PermutedAreAsked(reqs: seq<Requirement>, groups: seq<SupportGroup>, groups': seq<SupportGroup>)
    requires multiset(groups) == multiset(groups') && OnlyAsked(reqs, groups)
    ensures OnlyAsked(reqs, groups')
  {
    forall i | 0 <= i < |groups'|
      ensures Asked(reqs, Trim(groups'[i].requirementCode))
    {
      assert groups'[i] in multiset(groups);
    }
  }

  /**
   Any reordering that keeps the groups of each code in order changes neither the
   files attached nor whether anything is reported.
   */
  lemma OrderOfGroupsIsIrrelevant(desk: Desk, reqs: seq<Requirement>, groups: seq<SupportGroup>, groups': seq<SupportGroup>)
    requires forall code :: GroupsFor(groups, code) == GroupsFor(groups', code)
    ensures Check(desk, reqs, groups).attached == Check(desk, reqs, groups').attached
    ensures Check(desk, reqs, groups).errors == [] <==> Check(desk, reqs, groups').errors == []
  {
    forall code
      ensures IdsFor(groups, code) == IdsFor(groups', code)
    {
      IdsComeFromTheirGroups(groups, code);
      IdsComeFromTheirGroups(groups', code);
    }
    SameGroupsPermute(groups, groups');
    CountPermutes(groups, groups');
    if OnlyAsked(reqs, groups) {
      PermutedAreAsked(reqs, groups, groups');
    }
    if OnlyAsked(reqs, groups') {
      PermutedAreAsked(reqs, groups', groups);
    }
    SameIdsSameRule(desk, reqs, groups, groups');
  }

  /** In particular, neighbouring groups of different codes may be swapped. */
  lemma SwapIsIrrelevant(desk: Desk, reqs: seq<Requirement>, a: seq<SupportGroup>, g: SupportGroup, h: SupportGroup, b: seq<SupportGroup>)
    requires Trim(g.requirementCode) != Trim(h.requirementCode)
    ensures Check(desk, reqs, a + [g] + [h] + b).attached == Check(desk, reqs, a + [h] + [g] + b).attached
    ensures Check(desk, reqs, a + [g] + [h] + b).errors == [] <==> Check(desk, reqs, a + [h] + [g] + b).errors == []
  {
    forall code
      ensures GroupsFor(a + [g] + [h] + b, code) == GroupsFor(a + [h] + [g] + b, code)
    {
      SplitInFour(a, g, h, b, code);
      SplitInFour(a, h, g, b, code);
    }
    OrderOfGroupsIsIrrelevant(desk, reqs, a + [g] + [h] + b, a + [h] + [g] + b);
  }

  lemma SplitInFour(a: seq<SupportGroup>, g: SupportGroup, h: SupportGroup, b: seq<SupportGroup>, code: string)
    ensures GroupsFor(a + [g] + [h] + b, code) ==
              GroupsFor(a, code) + (if Under(code)(g) then [g] else []) + (if Under(code)(h) then [h] else []) + GroupsFor(b, code)
  {
    FilterConcat(Under(code), a + [g] + [h], b);
    FilterConcat(Under(code), a + [g], [h]);
    FilterConcat(Under(code), a, [g]);
    FilterOne(Under(code), g);
    FilterOne(Under(code), h);
  }
}
