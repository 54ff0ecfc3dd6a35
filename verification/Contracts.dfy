/**
 * The hash-frozen records of contracts.py and the rows the ledger keeps.
 * A SHA-256 digest is the free constructor Sha256 over the canonical text it
 * was taken of, so two digests are equal exactly when the hashed records are.
 */
module Contracts {
  import opened Wrappers
  import opened CanonicalValues

  datatype Digest = Sha256(of: Hashed)

  datatype Hashed =
    | SpecText(spec: SpecDict)
    | StateText(state: RunState)
    | CandidateText(candidate: Candidate)
    | EvaluationText(evaluation: Evaluation)
    | EvidenceText(evidence: Evidence)
    | AdviceText(advice: Advice)
    | MemoryText(memory: Memory)
    | ReceiptText(receipt: Receipt)
    | PlainText(text: string)
    | TreeText(stream: seq<Token>)

  /** What `digest.update` is fed while a tree is hashed: text, NUL bytes and inner digests. */
  datatype Token = Name(name: string) | Nul | Inner(digest: Digest)

  // ----- RunSpec -----

  datatype Comparison = Minimize | Maximize | Pareto

  datatype NetworkPolicy = Disabled | Allowlist

  datatype RunSpec = RunSpec(
    runId: string,
    targetRoot: string,
    seedDigest: Digest,
    objective: string,
    exclusions: seq<string>,
    evaluatorId: string,
    evaluatorConfig: Fields,
    correctnessPredicates: seq<string>,
    scoreKeys: seq<string>,
    comparison: Comparison,
    allowedToolsets: seq<string>,
    networkPolicy: NetworkPolicy,
    maxSteps: int,
    maxWallSeconds: int,
    maxCostUsd: real,
    noProgressLimit: int,
    approvalReceipt: string)
  {
    predicate WithinBounds() {
      && |correctnessPredicates| > 0 && |scoreKeys| > 0 && |allowedToolsets| > 0
      && maxSteps > 0 && maxWallSeconds > 0 && maxCostUsd >= 0.0 && noProgressLimit > 0
    }
  }

  /** The dictionary of a RunSpec: its version tag and its fields, the configuration in primitive form. */
  datatype SpecDict = SpecDict(contractVersion: string, body: RunSpec)

  const RUN_SPEC_VERSION := "avo.run-spec.v1"
  const STRICT_IMPROVEMENT := "strict_improvement"

  datatype ContractError = OutOfBounds | BadConfig | UnsupportedVersion

  /** The constructor: check the bounds, then freeze the configuration. */
  function MakeSpec(raw: RunSpec): Result<RunSpec, ContractError> {
    if !raw.WithinBounds() then Err(OutOfBounds)
    else match FreezeFields(raw.evaluatorConfig)
      case Ok(config) => Ok(raw.(evaluatorConfig := config))
      case Err(_) => Err(BadConfig)
  }

  function ToDict(s: RunSpec): SpecDict {
    SpecDict(RUN_SPEC_VERSION, s.(evaluatorConfig := Sort(PrimitiveFields(s.evaluatorConfig))))
  }

  function SpecIdentity(s: RunSpec): Digest {
    Sha256(SpecText(ToDict(s)))
  }

  /** Reading a stored RunSpec back. Loading JSON inverts dumping it on primitive values. */
  function SpecFromJson(d: SpecDict): Result<RunSpec, ContractError> {
    if d.contractVersion != RUN_SPEC_VERSION then Err(UnsupportedVersion) else MakeSpec(d.body)
  }

  predicate Strict(s: RunSpec) {
    Lookup(s.evaluatorConfig, STRICT_IMPROVEMENT) == Some(Bool(true))
  }

  // ----- the other records -----

  datatype Status =
    | Created | Ready | Running | Evaluating | SupervisionRequired | Supervising | Paused
    | Succeeded | NoResult | Cancelled | BudgetExhausted | Failed

  datatype RunState = RunState(
    runSpecHash: Digest,
    status: Status,
    revision: nat,
    stepsUsed: nat,
    consecutiveNoProgress: nat,
    bestCandidateHash: Option<Digest>,
    costUsd: real,
    pausedFrom: Option<Status>)
  {
    predicate IsTerminal() {
      status.Succeeded? || status.NoResult? || status.Cancelled? || status.BudgetExhausted? || status.Failed?
    }
  }

  /** A text that survives `strip`: it is not empty and does not begin with white space. */
  predicate Solid(s: string) {
    s != "" && !IsSpace(s[0])
  }

  /** The white space of `str.strip`. */
  predicate IsSpace(c: char) {
    var n := c as int;
    0x09 <= n <= 0x0D || 0x1C <= n <= 0x20 || n == 0x85 || n == 0xA0 || n == 0x1680 ||
    0x2000 <= n <= 0x200A || n == 0x2028 || n == 0x2029 || n == 0x202F || n == 0x205F || n == 0x3000
  }

  predicate Blank(s: string) {
    s == "" || (IsSpace(s[0]) && Blank(s[1..]))
  }

  /** What a parsed child payload guarantees of its rationale. */
  type Rationale = s: string | Solid(s) && |s| <= 1000 witness "r"

  /** `f"{run_id}-candidate-{ordinal}"` is named by its two parts. */
  datatype Candidate = Candidate(
    runId: string,
    ordinal: nat,
    runSpecHash: Digest,
    parent: Option<Digest>,
    artifact: Digest,
    childResultHash: Digest,
    hypothesis: Rationale)
  {
    function Identity(): Digest {
      Sha256(CandidateText(this))
    }
  }

  datatype Evidence =
    | NoEvidence
    | StrategyArtifact(strategy: string, rationale: string)
    | SandboxEvidence(patchHash: Digest, treeHash: Digest, exitCode: int, stdoutHash: Digest, stderrHash: Digest)

  datatype Reason = FailedCorrectness | Regressed | NotStrictlyBetter | NonRegressing

  datatype Evaluation = Evaluation(
    candidateHash: Digest,
    runSpecHash: Digest,
    evaluatorId: string,
    correctnessPassed: bool,
    scores: map<string, real>,
    baselineScores: map<string, real>,
    eligible: bool,
    reason: Reason,
    evidenceHash: Digest)
  {
    function Identity(): Digest {
      Sha256(EvaluationText(this))
    }
  }

  /** `f"{run_id}-supervisor-1"` is named by its run. */
  datatype Advice = Advice(
    runId: string,
    runSpecHash: Digest,
    stagnationEvidenceHash: Digest,
    directions: seq<string>,
    prohibitedRepeats: seq<string>)
  {
    function Identity(): Digest {
      Sha256(AdviceText(this))
    }
  }

  datatype Memory = Memory(
    runSpecHash: Digest,
    memoryRevision: nat,
    runStatus: Status,
    stateRevision: nat,
    bestCandidateHash: Option<Digest>,
    recentCandidateHashes: seq<Digest>,
    recentEvaluationHashes: seq<Digest>,
    recentFailureSignatures: seq<string>,
    triedHypotheses: seq<string>,
    supervisorAdviceHash: Option<Digest>)
  {
    function Identity(): Digest {
      Sha256(MemoryText(this))
    }

    /** The checks of `ContinuationMemory.__post_init__`. */
    predicate Valid() {
      && memoryRevision > 0
      && |recentCandidateHashes| <= 5 && |recentEvaluationHashes| <= 5
      && Texts(recentFailureSignatures) && Texts(triedHypotheses)
    }

    static predicate Texts(items: seq<string>) {
      |items| <= 5 && AllTexts(items)
    }

    static predicate AllTexts(items: seq<string>) {
      items != [] ==> !Blank(items[0]) && |items[0]| <= 300 && AllTexts(items[1..])
    }
  }

  datatype Receipt = Receipt(
    runId: string,
    runSpecHash: Digest,
    candidateHash: Digest,
    evaluationHash: Digest,
    baselineTreeHash: Digest,
    patchHash: Digest,
    outputTreeHash: Digest,
    outputSourceHash: Digest,
    exitCode: int,
    testsPassed: bool,
    stdoutHash: Digest,
    stderrHash: Digest)
  {
    function Identity(): Digest {
      Sha256(ReceiptText(this))
    }
  }

  // ----- canonical identity survives storage -----

  lemma FreezeKeepsLookup(f: Fields, k: string)
    requires FreezeFields(f).Ok?
    ensures Lookup(f, k).None? ==> Lookup(FreezeFields(f).value, k).None?
    ensures Lookup(f, k).Some? ==>
              FreezeValue(Lookup(f, k).value).Ok? &&
              Lookup(FreezeFields(f).value, k) == Some(FreezeValue(Lookup(f, k).value).value)
  {
  }

  lemma FreezeWellFormed(v: Value)
    requires WellFormed(v) && FreezeValue(v).Ok?
    ensures WellFormed(FreezeValue(v).value)
    decreases v
  {
    match v
    case Mapping(f) => FreezeWellFormedFields(f);
    case List(xs) => FreezeWellFormedItems(xs);
    case Tuple(xs) => FreezeWellFormedItems(xs);
    case _ =>
  }

  lemma FreezeWellFormedItems(xs: Items)
    requires WellFormedItems(xs) && FreezeItems(xs).Ok?
    ensures WellFormedItems(FreezeItems(xs).value)
    decreases xs
  {
    if xs.Item? { FreezeWellFormed(xs.head); FreezeWellFormedItems(xs.tail); }
  }

  lemma FreezeWellFormedFields(f: Fields)
    requires WellFormedFields(f) && FreezeFields(f).Ok?
    ensures WellFormedFields(FreezeFields(f).value) && Keys(FreezeFields(f).value) == Keys(f)
    decreases f
  {
    if f.Field? { FreezeWellFormed(f.value); FreezeWellFormedFields(f.rest); }
  }

  /** The stored configuration of a constructed spec is the canonical form of the raw one. */
  lemma DictOfMadeSpec(raw: RunSpec)
    requires MakeSpec(raw).Ok?
    ensures ToDict(MakeSpec(raw).value).body ==
            raw.(evaluatorConfig := Canon(Mapping(raw.evaluatorConfig)).fields)
    ensures NonEmptyKeysFields(raw.evaluatorConfig)
  {
    FreezeThenPrimitiveFields(raw.evaluatorConfig);
  }

  /**
   * A spec that was constructed, stored and loaded has the same dictionary, the same identity and
   * the same strictness as the one that was created, and loading it once more returns it unchanged.
   */
  lemma SpecSurvivesStorage(raw: RunSpec)
    requires WellFormedFields(raw.evaluatorConfig) && MakeSpec(raw).Ok?
    ensures var s := MakeSpec(raw).value;
            var loaded := SpecFromJson(ToDict(s));
            && loaded.Ok?
            && ToDict(loaded.value) == ToDict(s)
            && SpecIdentity(loaded.value) == SpecIdentity(s)
            && (Strict(loaded.value) <==> Strict(s))
            && loaded.value == s.(evaluatorConfig := loaded.value.evaluatorConfig)
            && SpecFromJson(ToDict(loaded.value)) == loaded
  {
    var s := MakeSpec(raw).value;
    var config := Mapping(raw.evaluatorConfig);
    var c := Canon(config).fields;
    DictOfMadeSpec(raw);
    CanonWellFormed(config);
    CanonNonEmptyKeys(config);
    CanonFixed(Canon(config));
    FreezeThenPrimitiveFields(c);
    var stored := ToDict(s).body;
    assert stored.evaluatorConfig == c && MakeSpec(stored).Ok?;
    DictOfMadeSpec(stored);
    assert Canon(Mapping(c)) == Mapping(c);
    StrictSurvives(raw.evaluatorConfig);
  }

  lemma StrictSurvives(f: Fields)
    requires WellFormedFields(f) && FreezeFields(f).Ok?
    requires FreezeFields(Canon(Mapping(f)).fields).Ok?
    ensures Lookup(FreezeFields(Canon(Mapping(f)).fields).value, STRICT_IMPROVEMENT) == Some(Bool(true)) <==>
            Lookup(FreezeFields(f).value, STRICT_IMPROVEMENT) == Some(Bool(true))
  {
    CanonKeepsTrue(f, STRICT_IMPROVEMENT);
    FreezeKeepsTrue(f, STRICT_IMPROVEMENT);
    FreezeKeepsTrue(Canon(Mapping(f)).fields, STRICT_IMPROVEMENT);
  }

  lemma FreezeKeepsTrue(f: Fields, k: string)
    requires FreezeFields(f).Ok?
    ensures Lookup(FreezeFields(f).value, k) == Some(Bool(true)) <==> Lookup(f, k) == Some(Bool(true))
  {
    FreezeKeepsLookup(f, k);
  }

  lemma CanonKeepsTrue(f: Fields, k: string)
    requires WellFormedFields(f)
    ensures Lookup(Canon(Mapping(f)).fields, k) == Some(Bool(true)) <==> Lookup(f, k) == Some(Bool(true))
  {
    CanonFieldsFacts(f);
    CanonWellFormedFields(f);
    SortFacts(CanonFields(f));
  }

  /** Two constructed specs have one identity exactly when they agree up to the key order of their configurations. */
  lemma IdentityDecidesSpec(raw: RunSpec, raw': RunSpec)
    requires WellFormedFields(raw.evaluatorConfig) && WellFormedFields(raw'.evaluatorConfig)
    requires MakeSpec(raw).Ok? && MakeSpec(raw').Ok?
    ensures SpecIdentity(MakeSpec(raw).value) == SpecIdentity(MakeSpec(raw').value) <==>
            && raw' == raw.(evaluatorConfig := raw'.evaluatorConfig)
            && Same(Mapping(raw.evaluatorConfig), Mapping(raw'.evaluatorConfig))
  {
    DictOfMadeSpec(raw);
    DictOfMadeSpec(raw');
    CanonDecidesSame(Mapping(raw.evaluatorConfig), Mapping(raw'.evaluatorConfig));
    var a, b := ToDict(MakeSpec(raw).value).body, ToDict(MakeSpec(raw').value).body;
    if a == b {
      assert raw == a.(evaluatorConfig := raw.evaluatorConfig);
      assert raw' == b.(evaluatorConfig := raw'.evaluatorConfig);
    }
  }
}
