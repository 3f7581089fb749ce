/**
 * perform_injection: walk the injection points group by group, test every
 * eligible parameter against the confirmation oracle, and stop at the first
 * parameter reported vulnerable.
 *
 * The connection probe (`basic_check`), the confirmation oracle
 * (`check_injections`), the interactive prompts and the external check that
 * parameters exist for a level are parameters of the method.
 */
module Injection {
  import opened Wrappers
  import opened Text
  import opened Target

  /** The parameters the parser found for one injection type, in the parser's order. */
  datatype PointGroup = PointGroup(kind: InjectionType, params: seq<Parameter>)

  /** The options that steer the search; a blank `dbms` or `testParameter` means "not given". */
  datatype Options = Options(
    level: int,
    techniques: string,
    dbms: string,
    testParameter: seq<string>,
    code: int,
    textOnly: bool)

  /** What `basic_check` reports; a blank `possibleDbms` means no backend hint. */
  datatype ConnectionCheck = ConnectionCheck(
    base: string,
    isDynamic: bool,
    possibleDbms: string,
    isConnectionTested: bool)

  /** The arguments of one `check_injections` call that vary during the search. */
  datatype Query = Query(
    kind: InjectionType,
    parameter: Parameter,
    base: string,
    possibleDbms: string,
    dbms: string,
    techniques: string,
    code: Option<int>,
    textOnly: bool)

  /**
   * One tested parameter: whether the connection probe ran first, the
   * techniques as they stood before this test, upper-cased (what such a probe
   * is sent), and the query sent.
   */
  datatype Attempt = Attempt(probed: bool, probeTechniques: string, query: Query)

  datatype VectorKind = ErrorVector | BooleanVector | TimeVector

  /** What `check_injections` reports for a parameter. */
  datatype Verdict = Verdict(
    vulnerable: bool,
    backend: string,
    parameter: Parameter,
    matchString: Option<string>,
    attack: Option<string>,
    kind: InjectionType,
    vectors: map<VectorKind, string>)

  /** The yes/no prompts that change the search (batch mode answers yes to all). */
  datatype Question = MarkerInBody | MarkerInUrl | MarkerInHeaders | SkipOtherDbms(dbms: string)

  /** The record perform_injection returns. */
  datatype GhauriResponse = GhauriResponse(
    url: string,
    data: string,
    vector: Option<string>,
    backend: string,
    parameter: Option<Parameter>,
    base: string,
    injectionType: Option<InjectionType>,
    isInjected: bool,
    isMultipart: bool,
    attack: Option<string>,
    matchString: Option<string>,
    vectors: map<VectorKind, string>,
    code: Option<int>,
    textOnly: Option<bool>)

  /** The run ends with no parameter to test at the level, or with a response. */
  datatype Outcome = NoParameters | Finished(response: GhauriResponse)

  // ---------------------------------------------------------------- vectors

  function Priority(k: VectorKind): nat {
    match k
    case ErrorVector => 0
    case BooleanVector => 1
    case TimeVector => 2
  }

  predicate Truthy(vs: map<VectorKind, string>, k: VectorKind) {
    k in vs && vs[k] != ""
  }

  /** The reported vector: error-based if present, else boolean-based, else whatever the time slot holds. */
  function PickVector(vs: map<VectorKind, string>): (r: Option<string>)
    ensures (r.Some? && r.value != "") <==>
      Truthy(vs, ErrorVector) || Truthy(vs, BooleanVector) || Truthy(vs, TimeVector)
    ensures r.Some? && r.value != "" ==>
      exists k :: Truthy(vs, k) && r.value == vs[k] &&
        forall k' :: Priority(k') < Priority(k) ==> !Truthy(vs, k')
    ensures r.None? <==> !Truthy(vs, ErrorVector) && !Truthy(vs, BooleanVector) && TimeVector !in vs
  {
    if Truthy(vs, ErrorVector) then Some(vs[ErrorVector])
    else if Truthy(vs, BooleanVector) then Some(vs[BooleanVector])
    else if TimeVector in vs then Some(vs[TimeVector])
    else None
  }

  /** The default status code 200 is passed on and reported as no code at all. */
  function ReportedCode(code: int): Option<int> {
    if code != 200 then Some(code) else None
  }

  predicate Hit(r: Option<Verdict>) {
    r.Some? && r.value.vulnerable
  }

  function NotInjected(): GhauriResponse {
    GhauriResponse("", "", Some(""), "", None, "", None, false, false, None, None, map[], None, None)
  }

  function InjectedResponse(t: Resolved, isMultipart: bool, q: Query, v: Verdict, code: int): GhauriResponse {
    GhauriResponse(
      url := t.url, data := t.data, vector := PickVector(v.vectors), backend := v.backend,
      parameter := Some(v.parameter), base := q.base, injectionType := Some(v.kind),
      isInjected := true, isMultipart := isMultipart, attack := v.attack,
      matchString := v.matchString, vectors := v.vectors, code := ReportedCode(code),
      textOnly := Some(q.textOnly))
  }

  // ------------------------------------------------------- which parameters

  /** Everything that decides which parameters are tested, in which order. */
  datatype Setup = Setup(
    groups: seq<PointGroup>,
    markers: seq<InjectionType>,
    level: int,
    testParameter: seq<string>,
    accepted: bool)

  /** The one custom-marker prompt, asked while handling the first group. */
  function FirstQuestion(markers: seq<InjectionType>): Question {
    if POST in markers then MarkerInBody
    else if GET in markers then MarkerInUrl
    else MarkerInHeaders
  }

  function Prepare(groups: seq<PointGroup>, markers: seq<InjectionType>, opts: Options, decide: Question -> bool): Setup {
    Setup(groups, markers, EscalateLevel(opts.level, markers), opts.testParameter,
          markers != [] && decide(FirstQuestion(markers)))
  }

  /** `s` holds the choices the run makes before its first test. */
  predicate Describes(s: Setup, markers: seq<InjectionType>, level: int, opts: Options, decide: Question -> bool) {
    && s.markers == markers
    && s.level == level
    && s.testParameter == opts.testParameter
    && s.accepted == (markers != [] && decide(FirstQuestion(markers)))
  }

  /**
   * The injection types in force while group `i` is handled. Without markers the
   * level's list, fixed once. With markers, the first group sees the marked
   * locations only if the prompt was accepted; every later group sees them
   * whatever the answer was, since the prompt is not asked again and its
   * default is yes.
   */
  function TypesAt(s: Setup, i: nat): seq<InjectionType> {
    if s.markers != [] && (i > 0 || s.accepted) then s.markers else LevelTypes(s.level)
  }

  /** The parameters of a group that the allow-list keeps (`parameters` in the source). */
  function Keep(s: Setup, ps: seq<Parameter>): seq<Parameter> {
    if s.testParameter == [] then ps else FilterByKeys(ps, s.testParameter)
  }

  predicate Chosen(s: Setup, p: Parameter) {
    (s.testParameter == [] || p.key in s.testParameter) && (s.markers == [] || HasMarker(p))
  }

  datatype Candidate = Candidate(kind: InjectionType, parameter: Parameter)

  /** The kept parameters that are not skipped for lacking a marker, in order. */
  function Selected(s: Setup, kind: InjectionType, ps: seq<Parameter>): seq<Candidate> {
    if ps == [] then []
    else
      var p := ps[|ps| - 1];
      Selected(s, kind, ps[..|ps| - 1]) + (if s.markers == [] || HasMarker(p) then [Candidate(kind, p)] else [])
  }

  function Row(s: Setup, i: nat): seq<Candidate>
    requires i < |s.groups|
  {
    var g := s.groups[i];
    if g.kind in TypesAt(s, i) then Selected(s, g.kind, Keep(s, g.params)) else []
  }

  /** The parameters of the first `n` groups that get tested, in the order they are tested. */
  function Candidates(s: Setup, n: nat): seq<Candidate>
    requires n <= |s.groups|
  {
    if n == 0 then [] else Candidates(s, n - 1) + Row(s, n - 1)
  }

  /** A parameter is eligible in group `i` when its type is in force there and neither filter drops it. */
  predicate Eligible(s: Setup, i: nat, c: Candidate)
    requires i < |s.groups|
  {
    s.groups[i].kind == c.kind && c.kind in TypesAt(s, i) && c.parameter in s.groups[i].params && Chosen(s, c.parameter)
  }

  lemma {:induction false} SelectedMembership(s: Setup, kind: InjectionType, ps: seq<Parameter>, c: Candidate)
    ensures c in Selected(s, kind, ps) <==> c.kind == kind && c.parameter in ps && (s.markers == [] || HasMarker(c.parameter))
  {
    if ps != [] {
      var init := ps[..|ps| - 1];
      SelectedMembership(s, kind, init, c);
      assert ps == init + [ps[|ps| - 1]];
    }
  }

  lemma KeepMembership(s: Setup, ps: seq<Parameter>, p: Parameter)
    ensures p in Keep(s, ps) <==> p in ps && (s.testParameter == [] || p.key in s.testParameter)
  {
  }

  /** A parameter is in a group's row exactly when that group makes it eligible. */
  lemma RowMembership(s: Setup, i: nat, c: Candidate)
    requires i < |s.groups|
    ensures c in Row(s, i) <==> Eligible(s, i, c)
  {
    var g := s.groups[i];
    if g.kind in TypesAt(s, i) {
      SelectedMembership(s, g.kind, Keep(s, g.params), c);
      KeepMembership(s, g.params, c.parameter);
    }
  }

  /** A parameter is tested exactly when some group makes it eligible. */
  lemma {:induction false} CandidatesMembership(s: Setup, n: nat, c: Candidate)
    requires n <= |s.groups|
    ensures c in Candidates(s, n) <==> exists i :: 0 <= i < n && Eligible(s, i, c)
  {
    if n > 0 {
      assert c in Candidates(s, n) <==> c in Candidates(s, n - 1) || c in Row(s, n - 1);
      CandidatesMembership(s, n - 1, c);
      RowMembership(s, n - 1, c);
      if c in Candidates(s, n - 1) {
        var i :| 0 <= i < n - 1 && Eligible(s, i, c);
        assert 0 <= i < n && Eligible(s, i, c);
      } else if Eligible(s, n - 1, c) {
        assert 0 <= n - 1 < n;
      } else {
        forall i | 0 <= i < n
          ensures !Eligible(s, i, c)
        {
          if i < n - 1 {
            assert !(0 <= i < n - 1 && Eligible(s, i, c));
          }
        }
      }
    }
  }

  /** Without custom markers, no parameter of a type outside the level's list is ever tested. */
  lemma OnlyLevelTypesTested(s: Setup, c: Candidate)
    requires s.markers == []
    requires c in Candidates(s, |s.groups|)
    ensures c.kind in LevelTypes(s.level) && 1 <= s.level <= 3 && Rank(c.kind) <= s.level
  {
    CandidatesMembership(s, |s.groups|, c);
    var i :| 0 <= i < |s.groups| && Eligible(s, i, c);
    LevelTypesMembership(s.level, c.kind);
  }

  /** With custom markers, every tested parameter carries a `*` in its name or value. */
  lemma OnlyMarkedTested(s: Setup, c: Candidate)
    requires s.markers != []
    requires c in Candidates(s, |s.groups|)
    ensures HasMarker(c.parameter)
  {
    CandidatesMembership(s, |s.groups|, c);
  }

  lemma {:induction false} SelectedPrefix(s: Setup, kind: InjectionType, ps: seq<Parameter>, j: nat)
    requires j <= |ps|
    ensures Selected(s, kind, ps[..j]) <= Selected(s, kind, ps)
    decreases |ps| - j
  {
    if j < |ps| {
      SelectedPrefix(s, kind, ps, j + 1);
      assert ps[..j + 1][..j] == ps[..j];
    } else {
      assert ps[..j] == ps;
    }
  }

  lemma {:induction false} CandidatesPrefix(s: Setup, i: nat, n: nat)
    requires i <= n <= |s.groups|
    ensures Candidates(s, i) <= Candidates(s, n)
    decreases n - i
  {
    if i < n {
      CandidatesPrefix(s, i + 1, n);
    }
  }

  lemma SelectedStep(s: Setup, kind: InjectionType, ps: seq<Parameter>, j: nat)
    requires j < |ps|
    ensures Selected(s, kind, ps[..j + 1]) ==
      Selected(s, kind, ps[..j]) + (if s.markers == [] || HasMarker(ps[j]) then [Candidate(kind, ps[j])] else [])
  {
    assert ps[..j + 1][..j] == ps[..j];
  }

  // ------------------------------------------------------- the trace kept

  /** The parameters tested, in the order they were tested. */
  function Targets(attempts: seq<Attempt>): seq<Candidate> {
    if attempts == [] then []
    else
      var a := attempts[|attempts| - 1];
      Targets(attempts[..|attempts| - 1]) + [Candidate(a.query.kind, a.query.parameter)]
  }

  lemma TargetsAppend(attempts: seq<Attempt>, a: Attempt)
    ensures Targets(attempts + [a]) == Targets(attempts) + [Candidate(a.query.kind, a.query.parameter)]
  {
    assert (attempts + [a])[..|attempts|] == attempts;
  }

  function CheckFor(basicCheck: (InjectionType, Parameter, string) -> ConnectionCheck, a: Attempt): ConnectionCheck {
    basicCheck(a.query.kind, a.query.parameter, a.probeTechniques)
  }

  /** The query carries what the probe reported; `--text-only` overrides the dynamic-page flag. */
  predicate Reflects(q: Query, c: ConnectionCheck, textOnly: bool) {
    q.base == c.base && q.possibleDbms == c.possibleDbms && q.textOnly == (textOnly || c.isDynamic)
  }

  predicate SameProbe(q: Query, q': Query) {
    q.base == q'.base && q.possibleDbms == q'.possibleDbms && q.textOnly == q'.textOnly
  }

  /**
   * The probe rule, one test at a time: the first test is probed, and a later
   * one is probed when the test before it was probed and that probe did not
   * report the connection tested. A probed test carries what its probe
   * reported; any other test reuses the probe results of the test before it.
   */
  predicate ProbeRule(attempts: seq<Attempt>, k: nat, basicCheck: (InjectionType, Parameter, string) -> ConnectionCheck, textOnly: bool)
    requires k < |attempts|
  {
    && attempts[k].probed == (k == 0 || (attempts[k - 1].probed && !CheckFor(basicCheck, attempts[k - 1]).isConnectionTested))
    && (attempts[k].probed ==> Reflects(attempts[k].query, CheckFor(basicCheck, attempts[k]), textOnly))
    && (!attempts[k].probed ==> k > 0 && SameProbe(attempts[k].query, attempts[k - 1].query))
  }

  /**
   * The connection probe runs before the `k`-th test exactly when no earlier
   * probe reported the connection tested; a test without a probe reuses the
   * previous test's probe results.
   */
  predicate ProbedAt(attempts: seq<Attempt>, k: nat, basicCheck: (InjectionType, Parameter, string) -> ConnectionCheck, textOnly: bool)
    requires k < |attempts|
  {
    && (attempts[k].probed <==> forall j :: 0 <= j < k ==> !CheckFor(basicCheck, attempts[j]).isConnectionTested)
    && (attempts[k].probed ==> Reflects(attempts[k].query, CheckFor(basicCheck, attempts[k]), textOnly))
    && (!attempts[k].probed ==> k > 0 && SameProbe(attempts[k].query, attempts[k - 1].query))
  }

  predicate ProbesUntilConnected(attempts: seq<Attempt>, basicCheck: (InjectionType, Parameter, string) -> ConnectionCheck, textOnly: bool) {
    forall k :: 0 <= k < |attempts| ==> ProbedAt(attempts, k, basicCheck, textOnly)
  }

  /** Applied from the first test on, the probe rule makes the probe one-shot: it stops at the first probe that reports the connection tested. */
  lemma {:induction false} ProbeRuleUntilConnected(
    attempts: seq<Attempt>, k: nat, basicCheck: (InjectionType, Parameter, string) -> ConnectionCheck, textOnly: bool)
    requires k < |attempts|
    requires forall j :: 0 <= j <= k ==> ProbeRule(attempts, j, basicCheck, textOnly)
    ensures ProbedAt(attempts, k, basicCheck, textOnly)
  {
    assert ProbeRule(attempts, k, basicCheck, textOnly);
    if k > 0 {
      ProbeRuleUntilConnected(attempts, k - 1, basicCheck, textOnly);
      assert ProbedAt(attempts, k - 1, basicCheck, textOnly);
    }
  }

  predicate Hinted(a: Attempt) {
    a.query.possibleDbms != ""
  }

  function HintCount(attempts: seq<Attempt>): nat {
    if attempts == [] then 0
    else HintCount(attempts[..|attempts| - 1]) + (if Hinted(attempts[|attempts| - 1]) then 1 else 0)
  }

  /** The techniques sent before the `k`-th test; before the first one, the upper-cased option. */
  function TechniquesBefore(attempts: seq<Attempt>, k: nat, techniques: string): string
    requires k <= |attempts|
  {
    if k == 0 then Upper(techniques) else attempts[k - 1].query.techniques
  }

  /**
   * The technique rule, one test at a time: a probe before the test is sent
   * the techniques of the test before it, and a test with a backend hint puts
   * an `E` in front of them.
   */
  predicate TechniqueRule(attempts: seq<Attempt>, k: nat, techniques: string)
    requires k < |attempts|
  {
    && attempts[k].probeTechniques == TechniquesBefore(attempts, k, techniques)
    && attempts[k].query.techniques == (if Hinted(attempts[k]) then "E" else "") + TechniquesBefore(attempts, k, techniques)
  }

  /**
   * Each test with a backend hint has put one more `E` in front of the
   * techniques: those before this test for its probe, and this test's own
   * hint included for its query.
   */
  predicate TechniquesAt(attempts: seq<Attempt>, k: nat, techniques: string)
    requires k < |attempts|
  {
    && attempts[k].probeTechniques == Es(HintCount(attempts[..k])) + Upper(techniques)
    && attempts[k].query.techniques == Es(HintCount(attempts[..k + 1])) + Upper(techniques)
  }

  predicate TechniquesAccumulate(attempts: seq<Attempt>, techniques: string) {
    forall k :: 0 <= k < |attempts| ==> TechniquesAt(attempts, k, techniques)
  }

  lemma HintCountStep(attempts: seq<Attempt>, k: nat)
    requires k < |attempts|
    ensures HintCount(attempts[..k + 1]) == HintCount(attempts[..k]) + (if Hinted(attempts[k]) then 1 else 0)
  {
    assert attempts[..k + 1][..k] == attempts[..k];
  }

  /** Applied from the first test on, the technique rule accumulates one `E` per hinted test. */
  lemma {:induction false} TechniqueRuleAccumulates(attempts: seq<Attempt>, k: nat, techniques: string)
    requires k < |attempts|
    requires forall j :: 0 <= j <= k ==> TechniqueRule(attempts, j, techniques)
    ensures TechniquesAt(attempts, k, techniques)
  {
    var h := HintCount(attempts[..k]);
    var u := Upper(techniques);
    assert TechniquesBefore(attempts, k, techniques) == Es(h) + u by {
      if k > 0 {
        TechniqueRuleAccumulates(attempts, k - 1, techniques);
      } else {
        assert attempts[..k] == [];
        assert Es(h) + u == u;
      }
    }
    HintCountStep(attempts, k);
    assert TechniqueRule(attempts, k, techniques);
    if Hinted(attempts[k]) {
      EsStep(h, u);
    } else {
      assert "" + (Es(h) + u) == Es(h) + u;
    }
  }

  /** The backend is fixed by the first hint the user agrees to, unless one was given. */
  function NextDbms(dbms: string, hint: string, decide: Question -> bool): string {
    if hint != "" && dbms == "" && decide(SkipOtherDbms(hint)) then hint else dbms
  }

  /** The backend in force before the `k`-th test. */
  function DbmsBefore(attempts: seq<Attempt>, k: nat, dbms: string): string
    requires k <= |attempts|
  {
    if k == 0 then dbms else attempts[k - 1].query.dbms
  }

  predicate DbmsAt(attempts: seq<Attempt>, k: nat, dbms: string, decide: Question -> bool)
    requires k < |attempts|
  {
    attempts[k].query.dbms == NextDbms(DbmsBefore(attempts, k, dbms), attempts[k].query.possibleDbms, decide)
  }

  predicate DbmsFollowsHints(attempts: seq<Attempt>, dbms: string, decide: Question -> bool) {
    forall k :: 0 <= k < |attempts| ==> DbmsAt(attempts, k, dbms, decide)
  }

  /** A backend given on the command line is sent with every test. */
  lemma {:induction false} GivenDbmsKept(attempts: seq<Attempt>, k: nat, dbms: string, decide: Question -> bool)
    requires dbms != "" && k < |attempts|
    requires DbmsFollowsHints(attempts, dbms, decide)
    ensures attempts[k].query.dbms == dbms
  {
    assert DbmsAt(attempts, k, dbms, decide);
    if k > 0 {
      GivenDbmsKept(attempts, k - 1, dbms, decide);
    }
  }

  /** Once a backend is fixed it never changes. */
  lemma {:induction false} FixedDbmsKept(attempts: seq<Attempt>, i: nat, k: nat, dbms: string, decide: Question -> bool)
    requires i <= k < |attempts| && attempts[i].query.dbms != ""
    requires DbmsFollowsHints(attempts, dbms, decide)
    ensures attempts[k].query.dbms == attempts[i].query.dbms
    decreases k - i
  {
    if i < k {
      assert DbmsAt(attempts, i + 1, dbms, decide);
      FixedDbmsKept(attempts, i + 1, k, dbms, decide);
    }
  }

  // ------------------------------------------------------------ the search

  datatype Progress = Progress(
    attempts: seq<Attempt>,
    connected: bool,
    base: string,
    textOnly: bool,
    possibleDbms: string,
    techniques: string,
    dbms: string)

  /** The `k`-th test obeys the probe, technique, backend and status-code rules. */
  ghost predicate Disciplined(
    attempts: seq<Attempt>, k: nat, opts: Options,
    basicCheck: (InjectionType, Parameter, string) -> ConnectionCheck, decide: Question -> bool)
    requires k < |attempts|
  {
    && ProbeRule(attempts, k, basicCheck, opts.textOnly)
    && TechniqueRule(attempts, k, opts.techniques)
    && DbmsAt(attempts, k, opts.dbms, decide)
    && attempts[k].query.code == ReportedCode(opts.code)
  }

  /** The locals agree with the tests sent so far. */
  ghost predicate Consistent(
    pr: Progress, opts: Options,
    basicCheck: (InjectionType, Parameter, string) -> ConnectionCheck, decide: Question -> bool)
  {
    && (forall k :: 0 <= k < |pr.attempts| ==> Disciplined(pr.attempts, k, opts, basicCheck, decide))
    && Upper(pr.techniques) == TechniquesBefore(pr.attempts, |pr.attempts|, opts.techniques)
    && pr.dbms == DbmsBefore(pr.attempts, |pr.attempts|, opts.dbms)
    && (pr.attempts == [] ==> !pr.connected)
    && (pr.attempts != [] ==>
          var last := pr.attempts[|pr.attempts| - 1];
          && pr.connected == (!last.probed || CheckFor(basicCheck, last).isConnectionTested)
          && last.query.base == pr.base && last.query.possibleDbms == pr.possibleDbms
          && last.query.textOnly == pr.textOnly)
  }

  /** `next` is `pr` with one more test, for parameter `p` of type `kind`. */
  ghost predicate Appended(pr: seq<Attempt>, next: seq<Attempt>, kind: InjectionType, p: Parameter) {
    && |next| == |pr| + 1
    && next == pr + [next[|pr|]]
    && next[|pr|].query.kind == kind && next[|pr|].query.parameter == p
  }

  lemma AppendedTargets(pr: seq<Attempt>, next: seq<Attempt>, kind: InjectionType, p: Parameter)
    requires Appended(pr, next, kind, p)
    ensures pr <= next
    ensures forall k :: 0 <= k < |pr| ==> next[k] == pr[k]
    ensures Targets(next) == Targets(pr) + [Candidate(kind, p)]
  {
    assert next[..|pr|] == pr;
    TargetsAppend(pr, next[|pr|]);
  }

  /**
   * One tested parameter, as a relation between the locals before and after:
   * the connection probe runs unless an earlier probe reported the connection
   * tested, a backend hint puts an `E` in front of the upper-cased techniques
   * and may fix the backend, and the query carries the current locals.
   */
  ghost predicate Step(
    pr: Progress, next: Progress, kind: InjectionType, p: Parameter, opts: Options,
    basicCheck: (InjectionType, Parameter, string) -> ConnectionCheck, decide: Question -> bool)
  {
    && Appended(pr.attempts, next.attempts, kind, p)
    && var a := next.attempts[|pr.attempts|];
    && a.probed == !pr.connected
    && (a.probed ==>
          next.connected == CheckFor(basicCheck, a).isConnectionTested
          && Reflects(a.query, CheckFor(basicCheck, a), opts.textOnly))
    && (!a.probed ==>
          next.connected == pr.connected && a.query.base == pr.base
          && a.query.possibleDbms == pr.possibleDbms && a.query.textOnly == pr.textOnly)
    && a.query.code == ReportedCode(opts.code)
    && a.probeTechniques == Upper(pr.techniques)
    && next.techniques == (if a.query.possibleDbms != "" then "E" + Upper(pr.techniques) else pr.techniques)
    && a.query.techniques == Upper(next.techniques)
    && a.query.dbms == NextDbms(pr.dbms, a.query.possibleDbms, decide)
    && next.base == a.query.base && next.textOnly == a.query.textOnly
    && next.possibleDbms == a.query.possibleDbms && next.dbms == a.query.dbms
  }

  /** No test from index `lo` up to `hi` was reported vulnerable. */
  ghost predicate Misses(attempts: seq<Attempt>, lo: nat, hi: nat, checkInjections: Query -> Option<Verdict>)
    requires hi <= |attempts|
  {
    forall k :: lo <= k < hi ==> !Hit(checkInjections(attempts[k].query))
  }

  /** Misses over a prefix carry over to the longer trace. */
  lemma MissesExtend(
    attempts: seq<Attempt>, more: seq<Attempt>, lo: nat, hi: nat, checkInjections: Query -> Option<Verdict>)
    requires hi <= |attempts| && attempts <= more
    requires Misses(attempts, lo, hi, checkInjections)
    ensures Misses(more, lo, hi, checkInjections)
  {
    assert forall k :: 0 <= k < |attempts| ==> more[k] == attempts[k];
  }

  /**
   * What holds after the first `j` kept parameters of a group: the tests of
   * earlier groups (`before`, which tested `tested`) are untouched, the
   * parameters of this group tested so far follow them, and none was a hit.
   */
  ghost predicate GroupSoFar(
    before: seq<Attempt>, tested: seq<Candidate>, attempts: seq<Attempt>,
    s: Setup, kind: InjectionType, ps: seq<Parameter>, j: nat, checkInjections: Query -> Option<Verdict>)
    requires j <= |ps|
  {
    && before <= attempts
    && Targets(attempts) == tested + Selected(s, kind, ps[..j])
    && Misses(attempts, |before|, |attempts|, checkInjections)
  }

  /** Skipping a parameter without a marker changes nothing. */
  lemma SkipStep(
    before: seq<Attempt>, tested: seq<Candidate>, attempts: seq<Attempt>,
    s: Setup, kind: InjectionType, ps: seq<Parameter>, j: nat, checkInjections: Query -> Option<Verdict>)
    requires j < |ps| && s.markers != [] && !HasMarker(ps[j])
    requires GroupSoFar(before, tested, attempts, s, kind, ps, j, checkInjections)
    ensures GroupSoFar(before, tested, attempts, s, kind, ps, j + 1, checkInjections)
  {
    SelectedStep(s, kind, ps, j);
    assert Selected(s, kind, ps[..j]) + [] == Selected(s, kind, ps[..j]);
  }

  /**
   * How the test of one group ended: the trace grew by tests of the group's
   * selected parameters, in order; without a hit all of them were tested, with
   * one the search stopped at the first test reported vulnerable.
   */
  ghost predicate GroupResult(
    before: seq<Attempt>, after: seq<Attempt>, found: Option<Verdict>,
    s: Setup, kind: InjectionType, ps: seq<Parameter>, checkInjections: Query -> Option<Verdict>)
  {
    && before <= after
    && Targets(after) <= Targets(before) + Selected(s, kind, ps)
    && (found.None? ==>
          && Targets(after) == Targets(before) + Selected(s, kind, ps)
          && Misses(after, |before|, |after|, checkInjections))
    && (found.Some? ==>
          && |before| < |after|
          && found == checkInjections(after[|after| - 1].query)
          && Hit(found)
          && Misses(after, |before|, |after| - 1, checkInjections))
  }

  /** Testing the `j`-th kept parameter appends it to the trace; a hit ends the group. */
  lemma TestStep(
    before: seq<Attempt>, tested: seq<Candidate>, prev: seq<Attempt>, next: seq<Attempt>, verdict: Option<Verdict>,
    s: Setup, kind: InjectionType, ps: seq<Parameter>, j: nat, checkInjections: Query -> Option<Verdict>)
    requires j < |ps| && (s.markers == [] || HasMarker(ps[j])) && tested == Targets(before)
    requires GroupSoFar(before, tested, prev, s, kind, ps, j, checkInjections)
    requires Appended(prev, next, kind, ps[j])
    requires verdict == checkInjections(next[|next| - 1].query)
    ensures Hit(verdict) ==> GroupResult(before, next, verdict, s, kind, ps, checkInjections)
    ensures !Hit(verdict) ==> GroupSoFar(before, tested, next, s, kind, ps, j + 1, checkInjections)
  {
    AppendedTargets(prev, next, kind, ps[j]);
    SelectedStep(s, kind, ps, j);
    var sel := Selected(s, kind, ps[..j]);
    var c := Candidate(kind, ps[j]);
    assert tested + sel + [c] == tested + (sel + [c]);
    MissesExtend(prev, next, |before|, |prev|, checkInjections);
    if Hit(verdict) {
      SelectedPrefix(s, kind, ps, j + 1);
      PrefixAppend(tested, Selected(s, kind, ps[..j + 1]), Selected(s, kind, ps));
    }
  }

  /** A group whose kept parameters were all tested without a hit. */
  lemma GroupExhausted(
    before: seq<Attempt>, tested: seq<Candidate>, attempts: seq<Attempt>,
    s: Setup, kind: InjectionType, ps: seq<Parameter>, checkInjections: Query -> Option<Verdict>)
    requires tested == Targets(before)
    requires GroupSoFar(before, tested, attempts, s, kind, ps, |ps|, checkInjections)
    ensures GroupResult(before, attempts, None, s, kind, ps, checkInjections)
  {
    assert ps[..|ps|] == ps;
  }

  /** A prefix stays a prefix behind a common head. */
  lemma PrefixAppend(a: seq<Candidate>, b: seq<Candidate>, c: seq<Candidate>)
    requires b <= c
    ensures a + b <= a + c
  {
    assert forall k :: 0 <= k < |a + b| ==> (a + b)[k] == (a + c)[k];
  }

  lemma PrefixTransitive(a: seq<Candidate>, b: seq<Candidate>, c: seq<Candidate>)
    requires a <= b && b <= c
    ensures a <= c
  {
    assert forall k :: 0 <= k < |a| ==> a[k] == b[k] == c[k];
  }

  /** What holds after the first `i` groups: the trace is exactly their candidates, none a hit. */
  ghost predicate SearchSoFar(attempts: seq<Attempt>, s: Setup, i: nat, checkInjections: Query -> Option<Verdict>)
    requires i <= |s.groups|
  {
    && Targets(attempts) == Candidates(s, i)
    && Misses(attempts, 0, |attempts|, checkInjections)
  }

  /** The search stopped at its last test, the first one reported vulnerable, within the search order. */
  ghost predicate Stopped(attempts: seq<Attempt>, found: Option<Verdict>, s: Setup, checkInjections: Query -> Option<Verdict>) {
    && |attempts| > 0
    && found == checkInjections(attempts[|attempts| - 1].query)
    && Hit(found)
    && Targets(attempts) <= Candidates(s, |s.groups|)
    && Misses(attempts, 0, |attempts| - 1, checkInjections)
  }

  /** Where the search ended: its trace leads the search order, and only its last test can be a hit. */
  lemma SearchEnded(attempts: seq<Attempt>, found: Option<Verdict>, s: Setup, checkInjections: Query -> Option<Verdict>)
    requires found.None? ==> SearchSoFar(attempts, s, |s.groups|, checkInjections)
    requires found.Some? ==> Stopped(attempts, found, s, checkInjections)
    ensures Targets(attempts) <= Candidates(s, |s.groups|)
    ensures forall k :: 0 <= k < |attempts| - 1 ==> !Hit(checkInjections(attempts[k].query))
    ensures found.None? ==>
      && Targets(attempts) == Candidates(s, |s.groups|)
      && forall k :: 0 <= k < |attempts| ==> !Hit(checkInjections(attempts[k].query))
    ensures found.Some? ==>
      && |attempts| > 0
      && found == checkInjections(attempts[|attempts| - 1].query)
      && Hit(found)
  {
  }

  /** A group whose type is not in force adds nothing. */
  lemma GroupSkipped(attempts: seq<Attempt>, s: Setup, i: nat, checkInjections: Query -> Option<Verdict>)
    requires i < |s.groups| && s.groups[i].kind !in TypesAt(s, i)
    requires SearchSoFar(attempts, s, i, checkInjections)
    ensures SearchSoFar(attempts, s, i + 1, checkInjections)
  {
    assert Candidates(s, i + 1) == Candidates(s, i) + [];
  }

  /** A group tested to its end without a hit adds its row of candidates. */
  lemma GroupDone(pr: seq<Attempt>, next: seq<Attempt>, s: Setup, i: nat, checkInjections: Query -> Option<Verdict>)
    requires i < |s.groups| && s.groups[i].kind in TypesAt(s, i)
    requires SearchSoFar(pr, s, i, checkInjections)
    requires GroupResult(pr, next, None, s, s.groups[i].kind, Keep(s, s.groups[i].params), checkInjections)
    ensures SearchSoFar(next, s, i + 1, checkInjections)
  {
    MissesExtend(pr, next, 0, |pr|, checkInjections);
  }

  /** A hit in group `i` leaves a trace that leads the full search order, with no earlier hit. */
  lemma GroupHit(
    pr: seq<Attempt>, next: seq<Attempt>, found: Option<Verdict>, s: Setup, i: nat,
    checkInjections: Query -> Option<Verdict>)
    requires i < |s.groups| && s.groups[i].kind in TypesAt(s, i)
    requires SearchSoFar(pr, s, i, checkInjections)
    requires found.Some? && GroupResult(pr, next, found, s, s.groups[i].kind, Keep(s, s.groups[i].params), checkInjections)
    ensures Stopped(next, found, s, checkInjections)
  {
    CandidatesPrefix(s, i + 1, |s.groups|);
    PrefixTransitive(Targets(next), Candidates(s, i + 1), Candidates(s, |s.groups|));
    MissesExtend(pr, next, 0, |pr|, checkInjections);
  }

  // ----------------------------------------------------- the step lemmas

  /** The rules for a test only look at that test and the one before it, so they survive appending more tests. */
  lemma DisciplinedExtend(
    attempts: seq<Attempt>, more: seq<Attempt>, k: nat, opts: Options,
    basicCheck: (InjectionType, Parameter, string) -> ConnectionCheck, decide: Question -> bool)
    requires k < |attempts| && attempts <= more
    requires Disciplined(attempts, k, opts, basicCheck, decide)
    ensures Disciplined(more, k, opts, basicCheck, decide)
  {
    assert more[k] == attempts[k];
    if k > 0 {
      assert more[k - 1] == attempts[k - 1];
    }
  }

  /** Upper-casing after an `E` is put in front changes nothing more. */
  lemma UpperAfterHint(t: string)
    ensures Upper("E" + Upper(t)) == "E" + Upper(t)
  {
    UpperConcat("E", Upper(t));
    UpperIdempotent(t);
    assert Upper("E") == [UpperChar('E')] + Upper("");
  }

  /** The new test obeys the rules, given the locals it was built from. */
  lemma NewTestDisciplined(
    pr: Progress, next: Progress, kind: InjectionType, p: Parameter, opts: Options,
    basicCheck: (InjectionType, Parameter, string) -> ConnectionCheck, decide: Question -> bool)
    requires Consistent(pr, opts, basicCheck, decide)
    requires Step(pr, next, kind, p, opts, basicCheck, decide)
    ensures Disciplined(next.attempts, |pr.attempts|, opts, basicCheck, decide)
  {
    var n := |pr.attempts|;
    var a := next.attempts[n];
    if n > 0 {
      assert next.attempts[n - 1] == pr.attempts[n - 1];
    }
    assert TechniquesBefore(next.attempts, n, opts.techniques) == Upper(pr.techniques);
    if Hinted(a) {
      UpperAfterHint(pr.techniques);
    }
    assert TechniqueRule(next.attempts, n, opts.techniques);
  }

  /** One tested parameter keeps the locals consistent and appends its candidate to the trace. */
  lemma StepKeepsConsistent(
    pr: Progress, next: Progress, kind: InjectionType, p: Parameter, opts: Options,
    basicCheck: (InjectionType, Parameter, string) -> ConnectionCheck, decide: Question -> bool)
    requires Consistent(pr, opts, basicCheck, decide)
    requires Step(pr, next, kind, p, opts, basicCheck, decide)
    ensures Consistent(next, opts, basicCheck, decide)
  {
    var n := |pr.attempts|;
    assert pr.attempts <= next.attempts;
    forall k | 0 <= k < n + 1
      ensures Disciplined(next.attempts, k, opts, basicCheck, decide)
    {
      if k < n {
        DisciplinedExtend(pr.attempts, next.attempts, k, opts, basicCheck, decide);
      } else {
        NewTestDisciplined(pr, next, kind, p, opts, basicCheck, decide);
      }
    }
    assert Upper(next.techniques) == TechniquesBefore(next.attempts, n + 1, opts.techniques);
    assert next.dbms == DbmsBefore(next.attempts, n + 1, opts.dbms);
  }

  /** The rules, applied from the first test on, give the four properties of the whole trace. */
  lemma Unbundle(
    attempts: seq<Attempt>, opts: Options,
    basicCheck: (InjectionType, Parameter, string) -> ConnectionCheck, decide: Question -> bool)
    requires forall k :: 0 <= k < |attempts| ==> Disciplined(attempts, k, opts, basicCheck, decide)
    ensures ProbesUntilConnected(attempts, basicCheck, opts.textOnly)
    ensures TechniquesAccumulate(attempts, opts.techniques)
    ensures DbmsFollowsHints(attempts, opts.dbms, decide)
    ensures forall k :: 0 <= k < |attempts| ==> attempts[k].query.code == ReportedCode(opts.code)
  {
    forall k | 0 <= k < |attempts|
      ensures ProbedAt(attempts, k, basicCheck, opts.textOnly)
      ensures TechniquesAt(attempts, k, opts.techniques)
      ensures DbmsAt(attempts, k, opts.dbms, decide)
      ensures attempts[k].query.code == ReportedCode(opts.code)
    {
      forall j | 0 <= j <= k
        ensures ProbeRule(attempts, j, basicCheck, opts.textOnly)
        ensures TechniqueRule(attempts, j, opts.techniques)
      {
        assert Disciplined(attempts, j, opts, basicCheck, decide);
      }
      assert Disciplined(attempts, k, opts, basicCheck, decide);
      ProbeRuleUntilConnected(attempts, k, basicCheck, opts.textOnly);
      TechniqueRuleAccumulates(attempts, k, opts.techniques);
    }
  }

  // ------------------------------------------------------------ the methods

  /**
   * Test one parameter: probe the connection unless an earlier probe reported
   * it tested, put an `E` in front of the techniques and offer to fix the
   * backend when the probe hinted at one, then ask the confirmation oracle.
   */
  method TestParameter(
    kind: InjectionType,
    p: Parameter,
    opts: Options,
    basicCheck: (InjectionType, Parameter, string) -> ConnectionCheck,
    checkInjections: Query -> Option<Verdict>,
    decide: Question -> bool,
    pr: Progress)
    returns (next: Progress, verdict: Option<Verdict>)
    ensures Step(pr, next, kind, p, opts, basicCheck, decide)
    ensures verdict == checkInjections(next.attempts[|pr.attempts|].query)
  {
    var connected, base, textOnly, possibleDbms := pr.connected, pr.base, pr.textOnly, pr.possibleDbms;
    var techniques, dbms := pr.techniques, pr.dbms;
    var probed := false;
    if !connected {
      var check := basicCheck(kind, p, Upper(techniques));
      base := check.base;
      textOnly := if !opts.textOnly then check.isDynamic else opts.textOnly;
      possibleDbms := check.possibleDbms;
      connected := check.isConnectionTested;
      probed := true;
    }
    if possibleDbms != "" {
      techniques := "E" + Upper(techniques);
      dbms := NextDbms(dbms, possibleDbms, decide);
    }
    var query := Query(kind, p, base, possibleDbms, dbms, Upper(techniques), ReportedCode(opts.code), textOnly);
    next := Progress(pr.attempts + [Attempt(probed, Upper(pr.techniques), query)], connected, base, textOnly, possibleDbms, techniques, dbms);
    verdict := checkInjections(query);
  }

  /**
   * The injection types in force for group `i`. The custom-marker prompt is
   * asked once, for the first group; a "no" keeps the level's list for that
   * group only. Without markers the level's list is chosen once and kept.
   */
  method ChooseTypes(
    markers: seq<InjectionType>,
    level: int,
    isAsked: bool,
    injectionTypes: seq<InjectionType>,
    decide: Question -> bool,
    ghost s: Setup,
    ghost i: nat)
    returns (asked: bool, types: seq<InjectionType>)
    requires s.markers == markers && s.level == level
    requires s.accepted == (markers != [] && decide(FirstQuestion(markers)))
    requires isAsked <==> markers != [] && i > 0
    requires i > 0 ==> injectionTypes == TypesAt(s, i - 1)
    requires i == 0 ==> injectionTypes == []
    ensures asked <==> markers != []
    ensures types == TypesAt(s, i)
  {
    asked, types := isAsked, injectionTypes;
    if markers != [] {
      MarkerKinds(markers);
      var question := true;
      if POST in markers && !asked {
        question := decide(MarkerInBody);
        asked := true;
      }
      if GET in markers && !asked {
        question := decide(MarkerInUrl);
        asked := true;
      }
      if (HEADER in markers || COOKIE in markers) && !asked {
        question := decide(MarkerInHeaders);
        asked := true;
      }
      if question {
        types := markers;
      }
    }
    if level == 1 && types == [] {
      types := [GET, POST];
    }
    if level == 2 && types == [] {
      types := [GET, POST, COOKIE];
    }
    if level == 3 && types == [] {
      types := [GET, POST, COOKIE, HEADER];
    }
  }

  /** A non-empty marker list names at least one of the locations the prompts ask about. */
  lemma MarkerKinds(markers: seq<InjectionType>)
    requires markers != []
    ensures POST in markers || GET in markers || HEADER in markers || COOKIE in markers
  {
    assert markers[0] in markers;
    match markers[0]
    case GET =>
    case POST =>
    case COOKIE =>
    case HEADER =>
  }

  /**
   * The loop over the kept parameters of one group: skip a parameter without a
   * marker when custom markers exist, test the others in order, and stop at
   * the first one the oracle reports vulnerable.
   */
  method TestGroup(
    kind: InjectionType,
    parameters: seq<Parameter>,
    markers: seq<InjectionType>,
    opts: Options,
    basicCheck: (InjectionType, Parameter, string) -> ConnectionCheck,
    checkInjections: Query -> Option<Verdict>,
    decide: Question -> bool,
    pr: Progress,
    ghost s: Setup)
    returns (next: Progress, found: Option<Verdict>)
    requires s.markers == markers
    requires Consistent(pr, opts, basicCheck, decide)
    ensures Consistent(next, opts, basicCheck, decide)
    ensures GroupResult(pr.attempts, next.attempts, found, s, kind, parameters, checkInjections)
  {
    next := pr;
    ghost var tested := Targets(pr.attempts);
    assert parameters[..0] == [];
    for j := 0 to |parameters|
      invariant Consistent(next, opts, basicCheck, decide)
      invariant GroupSoFar(pr.attempts, tested, next.attempts, s, kind, parameters, j, checkInjections)
    {
      var p := parameters[j];
      var marked := '*' in p.key || '*' in p.value;
      if markers != [] && !marked {
        SkipStep(pr.attempts, tested, next.attempts, s, kind, parameters, j, checkInjections);
        continue;
      }
      ghost var prev := next;
      var verdict;
      next, verdict := TestParameter(kind, p, opts, basicCheck, checkInjections, decide, next);
      StepKeepsConsistent(prev, next, kind, p, opts, basicCheck, decide);
      TestStep(pr.attempts, tested, prev.attempts, next.attempts, verdict, s, kind, parameters, j, checkInjections);
      if verdict.Some? && verdict.value.vulnerable {
        return next, verdict;
      }
    }
    GroupExhausted(pr.attempts, tested, next.attempts, s, kind, parameters, checkInjections);
    found := None;
  }

  /**
   * One injection point: choose the types in force, and when the point's type
   * is among them, apply the `testparameter` allow-list and test its
   * parameters.
   */
  method VisitGroup(
    group: PointGroup,
    markers: seq<InjectionType>,
    level: int,
    isAsked: bool,
    injectionTypes: seq<InjectionType>,
    opts: Options,
    basicCheck: (InjectionType, Parameter, string) -> ConnectionCheck,
    checkInjections: Query -> Option<Verdict>,
    decide: Question -> bool,
    pr: Progress,
    ghost s: Setup,
    ghost i: nat)
    returns (asked: bool, types: seq<InjectionType>, next: Progress, found: Option<Verdict>)
    requires Describes(s, markers, level, opts, decide)
    requires i < |s.groups| && s.groups[i] == group
    requires isAsked <==> markers != [] && i > 0
    requires i > 0 ==> injectionTypes == TypesAt(s, i - 1)
    requires i == 0 ==> injectionTypes == []
    requires Consistent(pr, opts, basicCheck, decide)
    requires SearchSoFar(pr.attempts, s, i, checkInjections)
    ensures asked <==> markers != []
    ensures types == TypesAt(s, i)
    ensures Consistent(next, opts, basicCheck, decide)
    ensures found.None? ==> SearchSoFar(next.attempts, s, i + 1, checkInjections)
    ensures found.Some? ==> Stopped(next.attempts, found, s, checkInjections)
  {
    asked, types := ChooseTypes(markers, level, isAsked, injectionTypes, decide, s, i);
    if group.kind in types {
      var parameters := group.params;
      if opts.testParameter != [] {
        parameters := FilterByKeys(parameters, opts.testParameter);
      }
      assert parameters == Keep(s, group.params);
      next, found := TestGroup(group.kind, parameters, markers, opts, basicCheck, checkInjections, decide, pr, s);
      if found.Some? {
        GroupHit(pr.attempts, next.attempts, found, s, i, checkInjections);
      } else {
        GroupDone(pr.attempts, next.attempts, s, i, checkInjections);
      }
    } else {
      next, found := pr, None;
      GroupSkipped(pr.attempts, s, i, checkInjections);
    }
  }

  /** The loop over the injection points, in the parser's order, up to the first hit. */
  method SearchGroups(
    groups: seq<PointGroup>,
    markers: seq<InjectionType>,
    level: int,
    opts: Options,
    basicCheck: (InjectionType, Parameter, string) -> ConnectionCheck,
    checkInjections: Query -> Option<Verdict>,
    decide: Question -> bool,
    ghost s: Setup)
    returns (pr: Progress, found: Option<Verdict>)
    requires s.groups == groups && Describes(s, markers, level, opts, decide)
    ensures Consistent(pr, opts, basicCheck, decide)
    ensures found.None? ==> SearchSoFar(pr.attempts, s, |groups|, checkInjections)
    ensures found.Some? ==> Stopped(pr.attempts, found, s, checkInjections)
  {
    var isAsked := false;
    var injectionTypes: seq<InjectionType> := [];
    pr := Progress([], false, "", opts.textOnly, "", opts.techniques, opts.dbms);
    for i := 0 to |groups|
      invariant isAsked <==> markers != [] && i > 0
      invariant i > 0 ==> injectionTypes == TypesAt(s, i - 1)
      invariant i == 0 ==> injectionTypes == []
      invariant Consistent(pr, opts, basicCheck, decide)
      invariant SearchSoFar(pr.attempts, s, i, checkInjections)
    {
      isAsked, injectionTypes, pr, found :=
        VisitGroup(groups[i], markers, level, isAsked, injectionTypes, opts, basicCheck, checkInjections, decide, pr, s, i);
      if found.Some? {
        return;
      }
    }
    found := None;
  }

  /**
   * The whole run: resolve the request, escalate the level, give up when the
   * level has no parameter, otherwise search, and report the first hit or the
   * all-empty record. `attempts` is the sequence of tests sent.
   */
  method PerformInjection(
    src: Source,
    groups: seq<PointGroup>,
    markers: seq<InjectionType>,
    isMultipart: bool,
    opts: Options,
    pointsFound: int -> bool,
    basicCheck: (InjectionType, Parameter, string) -> ConnectionCheck,
    checkInjections: Query -> Option<Verdict>,
    decide: Question -> bool)
    returns (outcome: Outcome, attempts: seq<Attempt>)
    ensures outcome.NoParameters? <==> !pointsFound(EscalateLevel(opts.level, markers))
    ensures outcome.NoParameters? ==> attempts == []
    ensures Targets(attempts) <= Candidates(Prepare(groups, markers, opts, decide), |groups|)
    ensures forall k :: 0 <= k < |attempts| - 1 ==> !Hit(checkInjections(attempts[k].query))
    ensures outcome.Finished? && !outcome.response.isInjected ==>
      && outcome.response == NotInjected()
      && Targets(attempts) == Candidates(Prepare(groups, markers, opts, decide), |groups|)
      && forall k :: 0 <= k < |attempts| ==> !Hit(checkInjections(attempts[k].query))
    ensures outcome.Finished? && outcome.response.isInjected ==>
      && |attempts| > 0
      && var last := attempts[|attempts| - 1].query;
      && Hit(checkInjections(last))
      && outcome.response == InjectedResponse(Resolve(src), isMultipart, last, checkInjections(last).value, opts.code)
    ensures ProbesUntilConnected(attempts, basicCheck, opts.textOnly)
    ensures TechniquesAccumulate(attempts, opts.techniques)
    ensures DbmsFollowsHints(attempts, opts.dbms, decide)
    ensures forall k :: 0 <= k < |attempts| ==> attempts[k].query.code == ReportedCode(opts.code)
  {
    var target := Resolve(src);
    var level := EscalateLevel(opts.level, markers);
    ghost var s := Prepare(groups, markers, opts, decide);
    if !pointsFound(level) {
      return NoParameters, [];
    }
    var pr, found := SearchGroups(groups, markers, level, opts, basicCheck, checkInjections, decide, s);
    attempts := pr.attempts;
    SearchEnded(attempts, found, s, checkInjections);
    Unbundle(attempts, opts, basicCheck, decide);
    if found.Some? {
      outcome := Finished(GhauriResponse(
        url := target.url, data := target.data, vector := PickVector(found.value.vectors),
        backend := found.value.backend, parameter := Some(found.value.parameter), base := pr.base,
        injectionType := Some(found.value.kind), isInjected := true, isMultipart := isMultipart,
        attack := found.value.attack, matchString := found.value.matchString,
        vectors := found.value.vectors, code := ReportedCode(opts.code), textOnly := Some(pr.textOnly)));
    } else {
      outcome := Finished(NotInjected());
    }
  }
}
