/**
 * The sandbox runner of phase4_runner.py and the host's check of its envelope in
 * phase4_sandbox.py. A file is its decoded text; base64 is decoded exactly or not at all.
 */
module Sandbox {
  import opened Wrappers
  import opened Contracts
  import opened PatchText
  import opened PatchEngine
  import opened PatchGrammar

  const MAX_FILE := 16384
  const MAX_OUTPUT := 65536
  const COMMAND_ID := "phase4.python-unittest.v1"
  const SOURCE_NAME := "calculator.py"
  const TEST_NAME := "test_calculator.py"

  datatype Policy = Policy(
    network: string, readOnlyRoot: bool, capDrop: string, noNewPrivileges: bool,
    memoryMib: int, cpus: real, pidsLimit: int, user: string, tmpfsBytes: int)

  const POLICY := Policy("none", true, "ALL", true, 64, 0.5, 64, "65534:65534", 16777216)

  /** The two files of a baseline directory. */
  datatype Baseline = Baseline(source: string, tests: string) {
    predicate WithinSize() {
      Utf8Length(source) <= MAX_FILE && Utf8Length(tests) <= MAX_FILE
    }
  }

  /** `read_text`: universal newlines turn CR LF and CR into LF. */
  function ReadText(file: string): string {
    if file == "" then ""
    else if file[0] == '\r' then "\n" + ReadText(file[if |file| >= 2 && file[1] == '\n' then 2 else 1..])
    else [file[0]] + ReadText(file[1..])
  }

  // ----- tree hashes -----

  function TextHash(text: string): Digest {
    Sha256(PlainText(text))
  }

  function TreeStream(names: seq<string>, files: seq<string>): seq<Token>
    requires |names| == |files|
  {
    if names == [] then []
    else
      var n := |names| - 1;
      TreeStream(names[..n], files[..n]) + [Name(names[n]), Nul, Inner(TextHash(files[n]))]
  }

  function TreeHash(source: string, tests: string): Digest {
    Sha256(TreeText(TreeStream([SOURCE_NAME, TEST_NAME], [source, tests])))
  }

  /** The loop both sides run: feed the digest file by file. */
  method HashTree(names: seq<string>, files: seq<string>) returns (d: Digest)
    requires |names| == |files|
    ensures d == Sha256(TreeText(TreeStream(names, files)))
  {
    var stream: seq<Token> := [];
    for i := 0 to |names|
      invariant stream == TreeStream(names[..i], files[..i])
    {
      assert names[..i + 1][..i] == names[..i] && files[..i + 1][..i] == files[..i];
      stream := stream + [Name(names[i])];
      stream := stream + [Nul];
      stream := stream + [Inner(TextHash(files[i]))];
    }
    assert names[..|names|] == names && files[..|files|] == files;
    return Sha256(TreeText(stream));
  }

  // ----- the runner -----

  datatype Encoded = Base64(text: string) | NotBase64

  datatype Envelope = Envelope(
    source: Encoded,
    sourceHash: Digest,
    treeHash: Digest,
    commandId: string,
    exitCode: int,
    testsPassed: bool,
    stdoutHash: Option<Digest>,
    stderrHash: Option<Digest>,
    policy: Policy)

  datatype RunnerError = InvalidBaseline | PatchRefused(error: PatchError) | OversizedOutput

  /** What an operating system reports of an ended process. */
  type ExitCode = n: int | -0x8000_0000 <= n < 0x1_0000_0000

  /** How the fixed test command ended. */
  datatype TestRun = TestRun(exitCode: ExitCode, stdout: string, stderr: string)

  /** RFC 4648, section 4: four characters for every three bytes begun. */
  function Base64Length(bytes: nat): nat {
    4 * ((bytes + 2) / 3)
  }

  function NumeralLength(n: int): nat {
    if n < 0 then 1 + |Decimal(-n)| else |Decimal(n)|
  }

  /** The bytes of the compact JSON text of an honest envelope; 362 of them never vary, and four digests are 64 each. */
  function JsonLength(candidate: string, exitCode: int): nat {
    362 + 4 * 64 + Base64Length(Utf8Length(candidate)) + NumeralLength(exitCode) + if exitCode == 0 then 4 else 5
  }

  function EnvelopeOf(b: Baseline, candidate: string, t: TestRun): Envelope {
    Envelope(Base64(candidate), TextHash(candidate), TreeHash(candidate, b.tests), COMMAND_ID,
             t.exitCode, t.exitCode == 0, Some(TextHash(t.stdout)), Some(TextHash(t.stderr)), POLICY)
  }

  function RunnerMain(b: Baseline, patchFile: string, t: TestRun): Result<Envelope, RunnerError> {
    if !b.WithinSize() then Err(InvalidBaseline)
    else match Parse(ReadText(patchFile))
      case Err(e) => Err(PatchRefused(e))
      case Ok(p) =>
        ParsedIsWellFormed(ReadText(patchFile));
        match Applied(p, ReadText(b.source))
        case Err(e) => Err(PatchRefused(e))
        case Ok(candidate) =>
          if JsonLength(candidate, t.exitCode) > MAX_OUTPUT then Err(OversizedOutput) else Ok(EnvelopeOf(b, candidate, t))
  }

  // ----- the host -----

  datatype SandboxResult = SandboxResult(
    candidateSource: string,
    candidateSourceHash: Digest,
    candidateTreeHash: Digest,
    commandId: string,
    exitCode: int,
    testsPassed: bool,
    stdoutHash: Digest,
    stderrHash: Digest,
    policy: Policy,
    patchHash: Digest)

  datatype HostError =
    | BadPolicy | BadEncoding | Oversized | NotApplicable(error: PatchError) | SourceMismatch | BadSourceHash
    | BadTreeHash | BadLogHash | Inconsistent | BadCommand
    | BadBaseline | ProcessFailed

  function ValidateOutput(env: Envelope, b: Baseline, p: ValidatedPatch): Result<SandboxResult, HostError>
    requires p.oldStart >= 1
  {
    if env.policy != POLICY then Err(BadPolicy)
    else if env.source.NotBase64? then Err(BadEncoding)
    else if Utf8Length(env.source.text) > MAX_FILE then Err(Oversized)
    else
      var candidate := env.source.text;
      match Applied(p, ReadText(b.source))
      case Err(e) => Err(NotApplicable(e))
      case Ok(expected) =>
        if candidate != expected then Err(SourceMismatch)
        else if env.sourceHash != TextHash(candidate) then Err(BadSourceHash)
        else if env.treeHash != TreeHash(candidate, b.tests) then Err(BadTreeHash)
        else if env.stdoutHash.None? || env.stderrHash.None? then Err(BadLogHash)
        else if env.testsPassed != (env.exitCode == 0) then Err(Inconsistent)
        else if env.commandId != COMMAND_ID then Err(BadCommand)
        else Ok(SandboxResult(candidate, TextHash(candidate), TreeHash(candidate, b.tests), COMMAND_ID,
                              env.exitCode, env.testsPassed, env.stdoutHash.value, env.stderrHash.value, POLICY, TextHash(p.raw)))
  }

  /** `DockerSandbox.run` around a runner that is the one above. */
  function HostRun(b: Baseline, p: ValidatedPatch, t: TestRun): Result<SandboxResult, HostError>
    requires p.oldStart >= 1
  {
    if !b.WithinSize() then Err(BadBaseline)
    else match RunnerMain(b, p.raw, t)
      case Err(_) => Err(ProcessFailed)
      case Ok(env) => ValidateOutput(env, b, p)
  }

  // ----- sizes -----

  lemma {:induction false} NewSideIsShorter(body: seq<string>)
    ensures Utf8Length(Unlines(NewSide(body))) <= Utf8Length(Unlines(body))
  {
    if body != [] {
      var n := |body| - 1;
      var line, before := body[n], NewSide(body[..n]);
      NewSideIsShorter(body[..n]);
      assert body == body[..n] + [line];
      UnlinesLengthSnoc(body[..n], line);
      if OnNewSide(line) {
        UnlinesLengthSnoc(before, line[1..]);
      } else {
        assert NewSide(body) == before + [] == before;
      }
    }
  }

  lemma UnlinesLengthSnoc(lines: seq<string>, line: string)
    ensures Utf8Length(Unlines(lines + [line])) == Utf8Length(Unlines(lines)) + Utf8Length(line) + 1
  {
    UnlinesAppend(lines, [line]);
    assert Unlines([line]) == line + "\n" by {
      assert [line][1..] == [];
      assert line + "\n" + "" == line + "\n";
    }
    Utf8LengthAppend(Unlines(lines), line + "\n");
    Utf8LengthAppend(line, "\n");
    assert Utf8Length("\n") == 1;
  }

  /** The output of a parsed patch is no longer than its source and the patch text together. */
  lemma OutputSize(payload: string, source: string)
    requires Parse(payload).Ok? && Parse(payload).value.oldStart >= 1 && Applied(Parse(payload).value, source).Ok?
    ensures Utf8Length(Applied(Parse(payload).value, source).value) <= Utf8Length(source) + Utf8Length(payload)
  {
    var p := Parse(payload).value;
    ParsedIsWellFormed(payload);
    ParsedIsRendered(payload);
    OutsideTheHunk(p, source);
    var lines := SplitLines(source);
    var a, b := Unlines(lines[..p.oldStart - 1]), Unlines(lines[p.oldStart - 1 + p.oldCount..]);
    Utf8LengthAppend(a + Unlines(NewSide(p.body)), b);
    Utf8LengthAppend(a, Unlines(NewSide(p.body)));
    Utf8LengthAppend(a + Unlines(OldSide(p.body)), b);
    Utf8LengthAppend(a, Unlines(OldSide(p.body)));
    NewSideIsShorter(p.body);
    var head := [OLD_FILE, NEW_FILE, SplitLines(payload)[2]];
    UnlinesAppend(head, p.body);
    Utf8LengthAppend(Unlines(head), Unlines(p.body));
    Utf8LengthOfNormal(payload);
    Utf8LengthOfNormal(source);
  }

  lemma FirstLength(file: string, k: nat)
    requires |file| >= k && (k == 1 || k == 2)
    ensures Utf8Length(file[..k]) >= Utf8Length(if file[0] == '\r' then "\n" else [file[0]])
  {
    hide ReadText;
    assert file[..1] == [file[0]];
    if k == 2 {
      Utf8LengthAppend(file[..1], [file[1]]);
      assert file[..2] == file[..1] + [file[1]];
    }
  }

  lemma {:induction false} ReadTextFacts(file: string)
    ensures Utf8Length(ReadText(file)) <= Utf8Length(file) && NoReturn(ReadText(file))
    ensures NoReturn(file) ==> ReadText(file) == file
    decreases |file|
  {
    if file != "" {
      var k := if file[0] == '\r' && |file| >= 2 && file[1] == '\n' then 2 else 1;
      ReadTextFacts(file[k..]);
      var c := if file[0] == '\r' then "\n" else [file[0]];
      Utf8LengthAppend(c, ReadText(file[k..]));
      Utf8LengthAppend(file[..k], file[k..]);
      assert file == file[..k] + file[k..];
      FirstLength(file, k);
      assert ReadText(file) == c + ReadText(file[k..]);
    }
  }

  lemma {:induction false} DecimalLength(n: nat)
    requires n < 0x1_0000_0000
    ensures |Decimal(n)| <= 10
  {
    DecimalDigits(n, 10);
  }

  lemma {:induction false} DecimalDigits(n: nat, k: nat)
    requires k >= 1 && n < Pow10(k)
    ensures |Decimal(n)| <= k
  {
    if n >= 10 {
      assert k > 1;
      DecimalDigits(n / 10, k - 1);
    }
  }

  function Pow10(k: nat): nat {
    if k == 0 then 1 else 10 * Pow10(k - 1)
  }

  lemma JsonLengthBound(candidate: string, exitCode: ExitCode)
    requires Utf8Length(candidate) <= 24576
    ensures Base64Length(Utf8Length(candidate)) <= 32768 && JsonLength(candidate, exitCode) <= MAX_OUTPUT
  {
    DecimalLength(if exitCode < 0 then -exitCode else exitCode);
  }

  /** The runner's own limit on its output never fires: 24576 bytes of source make 32768 characters of base64. */
  lemma RunnerOutputFits(b: Baseline, patchFile: string, t: TestRun)
    requires b.WithinSize() && Parse(ReadText(patchFile)).Ok?
    requires Parse(ReadText(patchFile)).value.oldStart >= 1 && Applied(Parse(ReadText(patchFile)).value, ReadText(b.source)).Ok?
    ensures var candidate := Applied(Parse(ReadText(patchFile)).value, ReadText(b.source)).value;
            && Utf8Length(candidate) <= 24576
            && Base64Length(Utf8Length(candidate)) <= 32768
            && JsonLength(candidate, t.exitCode) <= MAX_OUTPUT
            && RunnerMain(b, patchFile, t) == Ok(EnvelopeOf(b, candidate, t))
  {
    var payload, source := ReadText(patchFile), ReadText(b.source);
    var candidate := Applied(Parse(payload).value, source).value;
    assert Utf8Length(candidate) <= 24576 by {
      ParsedIsWellFormed(payload);
      ReadTextFacts(b.source);
      OutputSize(payload, source);
    }
    JsonLengthBound(candidate, t.exitCode);
  }

  // ----- the host and the runner agree -----

  /** The host accepts an honest envelope exactly when the candidate is within the host's size limit. */
  lemma HostAcceptsHonestEnvelope(b: Baseline, p: ValidatedPatch, t: TestRun)
    requires p.oldStart >= 1 && Applied(p, ReadText(b.source)).Ok?
    ensures var candidate := Applied(p, ReadText(b.source)).value;
            var r := ValidateOutput(EnvelopeOf(b, candidate, t), b, p);
            && (r.Ok? <==> Utf8Length(candidate) <= MAX_FILE)
            && (r.Ok? ==>
                  && r.value.candidateSource == candidate && r.value.exitCode == t.exitCode && (r.value.testsPassed <==> t.exitCode == 0)
                  && r.value.stdoutHash == TextHash(t.stdout) && r.value.stderrHash == TextHash(t.stderr)
                  && r.value.patchHash == TextHash(p.raw))
  {
    hide Applied, ReadText, TreeHash;
  }

  /** Which envelopes the host accepts, whoever printed them. */
  lemma HostAcceptsExactly(env: Envelope, b: Baseline, p: ValidatedPatch)
    requires p.oldStart >= 1
    ensures ValidateOutput(env, b, p).Ok? <==>
            && env.policy == POLICY && env.commandId == COMMAND_ID
            && env.source.Base64? && Utf8Length(env.source.text) <= MAX_FILE && Applied(p, ReadText(b.source)) == Ok(env.source.text)
            && env.sourceHash == TextHash(env.source.text) && env.treeHash == TreeHash(env.source.text, b.tests)
            && env.stdoutHash.Some? && env.stderrHash.Some? && (env.testsPassed <==> env.exitCode == 0)
  {
    hide Applied, ReadText, TreeHash;
  }

  /**
   * What the host accepts is what the envelope says, bound to the patch and the baseline it was called with; so two
   * accepted envelopes differ at most in the exit code and the log hashes, honest or not.
   */
  lemma AcceptedResultIsDetermined(env: Envelope, env': Envelope, b: Baseline, p: ValidatedPatch)
    requires p.oldStart >= 1 && ValidateOutput(env, b, p).Ok? && ValidateOutput(env', b, p).Ok?
    ensures var r, r' := ValidateOutput(env, b, p).value, ValidateOutput(env', b, p).value;
            && Ok(r.candidateSource) == Applied(p, ReadText(b.source))
            && r.candidateTreeHash == TreeHash(r.candidateSource, b.tests) && r.candidateSourceHash == TextHash(r.candidateSource)
            && r.patchHash == TextHash(p.raw) && r.commandId == COMMAND_ID && r.policy == POLICY
            && r.exitCode == env.exitCode && (r.testsPassed <==> env.exitCode == 0)
            && Some(r.stdoutHash) == env.stdoutHash && Some(r.stderrHash) == env.stderrHash
            && r' == r.(exitCode := env'.exitCode, testsPassed := env'.exitCode == 0,
                        stdoutHash := env'.stdoutHash.value, stderrHash := env'.stderrHash.value)
  {
    hide ValidateOutput, Applied, ReadText, TreeHash, TextHash;
    AcceptedFields(env, b, p);
    AcceptedFields(env', b, p);
  }

  lemma AcceptedFields(env: Envelope, b: Baseline, p: ValidatedPatch)
    requires p.oldStart >= 1 && ValidateOutput(env, b, p).Ok?
    ensures var r := ValidateOutput(env, b, p).value;
            && Applied(p, ReadText(b.source)) == Ok(r.candidateSource) && env.stdoutHash.Some? && env.stderrHash.Some?
            && r == SandboxResult(r.candidateSource, TextHash(r.candidateSource), TreeHash(r.candidateSource, b.tests), COMMAND_ID,
                                  env.exitCode, env.exitCode == 0, env.stdoutHash.value, env.stderrHash.value, POLICY, TextHash(p.raw))
  {
    hide Applied, ReadText, TreeHash;
  }

  /**
   * With the runner as it is, a run is accepted exactly when the hunk fits, the files are within size and so is the
   * candidate; the result is then that candidate, with the exit code and the log hashes of the test run.
   */
  lemma HostRunAccepts(b: Baseline, payload: string, t: TestRun)
    requires Parse(payload).Ok? && Parse(payload).value.oldStart >= 1
    ensures var p := Parse(payload).value;
            HostRun(b, p, t).Ok? <==>
              && b.WithinSize()
              && Canonical(ReadText(b.source)) && Fits(p, SplitLines(ReadText(b.source)))
              && Utf8Length(Render(Patched(p, SplitLines(ReadText(b.source))))) <= MAX_FILE
    ensures var p := Parse(payload).value;
            HostRun(b, p, t).Ok? ==>
              var r := HostRun(b, p, t).value;
              && Applied(p, ReadText(b.source)) == Ok(r.candidateSource) && r.patchHash == TextHash(payload)
              && r.exitCode == t.exitCode && (r.testsPassed <==> t.exitCode == 0)
              && r.stdoutHash == TextHash(t.stdout) && r.stderrHash == TextHash(t.stderr)
  {
    hide Parse, ReadText, Applied, Fits, Patched, Canonical, Utf8Length, TreeHash, ValidateOutput, JsonLength, Base64Length;
    var p := Parse(payload).value;
    ParsedIsWellFormed(payload);
    ReadTextFacts(payload);
    AppliesExactlyWhenItFits(p, ReadText(b.source));
    if b.WithinSize() && Applied(p, ReadText(b.source)).Ok? {
      RunnerOutputFits(b, payload, t);
      HostAcceptsHonestEnvelope(b, p, t);
    }
  }

  // ----- an honest candidate that the host refuses -----

  function Blanks(n: nat): seq<string> {
    if n == 0 then [] else Blanks(n - 1) + [""]
  }

  /** One visible line and n empty ones. */
  function PaddedLines(first: seq<string>, n: nat): seq<string> {
    first + Blanks(n)
  }

  lemma {:induction false} PaddedLength(first: seq<string>, n: nat)
    requires AllPlain(first)
    ensures AllPlain(PaddedLines(first, n)) && |PaddedLines(first, n)| == |first| + n
    ensures Utf8Length(Unlines(PaddedLines(first, n))) == Utf8Length(Unlines(first)) + n
  {
    hide Unlines;
    if n == 0 {
      assert PaddedLines(first, 0) == first;
    } else {
      PaddedLength(first, n - 1);
      assert PaddedLines(first, n) == PaddedLines(first, n - 1) + [""];
      UnlinesLengthSnoc(PaddedLines(first, n - 1), "");
    }
  }

  lemma PaddedFacts(first: seq<string>, n: nat)
    requires AllPlain(first) && first != []
    ensures AllPlain(PaddedLines(first, n)) && PaddedLines(first, n) != []
    ensures Utf8Length(Unlines(PaddedLines(first, n))) == Utf8Length(Unlines(first)) + n
    ensures SplitLines(Unlines(PaddedLines(first, n))) == PaddedLines(first, n) && Canonical(Unlines(PaddedLines(first, n)))
  {
    hide PaddedLines, Unlines, SplitLines, Utf8Length;
    PaddedLength(first, n);
    RenderThenSplit(PaddedLines(first, n));
    UnlinesCanonical(PaddedLines(first, n));
  }

  lemma {:induction false} Utf8LengthBound(s: string)
    ensures Utf8Length(s) <= 4 * |s|
  {
    if s != "" { Utf8LengthBound(s[1..]); }
  }

  /** The line `a` stays, and the line `b` is added below it. */
  function GrowingBody(): seq<string> {
    [" a", "+b"]
  }

  lemma GrowingSides()
    ensures OldSide(GrowingBody()) == ["a"] && NewSide(GrowingBody()) == ["a", "b"]
    ensures forall line <- GrowingBody() :: HunkLine(line) && Plain(line) && '\0' !in line
  {
    var body := GrowingBody();
    assert body[..1] == [" a"] && [" a"][..0] == [];
    assert " a"[1..] == "a" && "+b"[1..] == "b";
    assert OldSide([" a"]) == ["a"] && NewSide([" a"]) == ["a"];
  }

  function GrowingPayload(): string {
    Unlines([OLD_FILE, NEW_FILE, "@@ -1 +1,2 @@"] + GrowingBody())
  }

  lemma GrowingHeader()
    ensures var a, b := RangeText("1", None), RangeText("1", Some("2"));
            a.Valid() && b.Valid() && HeaderText(a, b) == "@@ -1 +1,2 @@" && HunkOf(a, b) == Hunk(1, 1, 1, 2)
  {
    assert IsDigit('1') && IsDigit('2') && DigitValue('1') == 1 && DigitValue('2') == 2;
  }

  lemma GrowingLength()
    ensures Utf8Length(GrowingPayload()) <= MAX_BYTES
  {
    UnlinesCons(OLD_FILE, [NEW_FILE, "@@ -1 +1,2 @@", " a", "+b"]);
    UnlinesCons(NEW_FILE, ["@@ -1 +1,2 @@", " a", "+b"]);
    UnlinesCons("@@ -1 +1,2 @@", [" a", "+b"]);
    UnlinesCons(" a", ["+b"]);
    UnlinesCons("+b", []);
    assert [OLD_FILE, NEW_FILE, "@@ -1 +1,2 @@"] + GrowingBody() == [OLD_FILE] + [NEW_FILE, "@@ -1 +1,2 @@", " a", "+b"];
    assert [NEW_FILE, "@@ -1 +1,2 @@", " a", "+b"] == [NEW_FILE] + ["@@ -1 +1,2 @@", " a", "+b"];
    assert ["@@ -1 +1,2 @@", " a", "+b"] == ["@@ -1 +1,2 @@"] + [" a", "+b"];
    assert [" a", "+b"] == [" a"] + ["+b"] && ["+b"] == ["+b"] + [];
    assert |GrowingPayload()| <= 100;
    Utf8LengthBound(GrowingPayload());
  }

  lemma GrowingParses()
    ensures Parse(GrowingPayload()) == Ok(ValidatedPatch(GrowingPayload(), 1, 1, 1, 2, GrowingBody()))
  {
    GrowingHeader();
    GrowingSides();
    GrowingLength();
    RenderedParses(RangeText("1", None), RangeText("1", Some("2")), GrowingBody());
  }

  /** On a baseline of n + 2 bytes the patch applies, and its candidate has two bytes more. */
  lemma GrowingApplies(n: nat)
    ensures var p := ValidatedPatch(GrowingPayload(), 1, 1, 1, 2, GrowingBody());
            var source := Unlines(PaddedLines(["a"], n));
            && Utf8Length(source) == n + 2 && ReadText(source) == source
            && Applied(p, source) == Ok(Unlines(PaddedLines(["a", "b"], n)))
            && Utf8Length(Unlines(PaddedLines(["a", "b"], n))) == n + 4
  {
    hide Unlines, Utf8Length, SplitLines, Render, GrowingPayload, GrowingBody, ReadText;
    var p, source := ValidatedPatch(GrowingPayload(), 1, 1, 1, 2, GrowingBody()), Unlines(PaddedLines(["a"], n));
    GrowingSides();
    PaddedFacts(["a"], n);
    PaddedFacts(["a", "b"], n);
    ShortLengths();
    ReadTextFacts(source);
    var lines := PaddedLines(["a"], n);
    assert lines[0..1] == ["a"] && lines[1..] == Blanks(n) && lines[..0] == [];
    assert Patched(p, lines) == PaddedLines(["a", "b"], n);
    RenderIsUnlines(PaddedLines(["a", "b"], n));
  }

  lemma ShortLengths()
    ensures Utf8Length(Unlines(["a"])) == 2 && Utf8Length(Unlines(["a", "b"])) == 4
  {
    assert [] + ["a"] == ["a"] && ["a"] + ["b"] == ["a", "b"];
    UnlinesLengthSnoc([], "a");
    UnlinesLengthSnoc(["a"], "b");
    assert Utf8Length("a") == 1 && Utf8Length("b") == 1;
  }

  /**
   * The host refuses honest candidates that a patch made too long. Here is one: a baseline of 16384
   * bytes and a patch of one added line, which the runner applies, tests and reports, whatever the
   * tests are and however they end.
   */
  lemma HostRefusesGrownCandidate(tests: string, t: TestRun)
    requires Utf8Length(tests) <= MAX_FILE
    ensures var b := Baseline(Unlines(PaddedLines(["a"], MAX_FILE - 2)), tests);
            var p := Parse(GrowingPayload());
            && b.WithinSize() && p.Ok? && p.value.oldStart >= 1
            && Utf8Length(b.source) == MAX_FILE && Utf8Length(GrowingPayload()) <= MAX_BYTES
            && Applied(p.value, ReadText(b.source)).Ok?
            && RunnerMain(b, GrowingPayload(), t) == Ok(EnvelopeOf(b, Applied(p.value, ReadText(b.source)).value, t))
            && HostRun(b, p.value, t) == Err(Oversized)
  {
    hide Unlines, PaddedLines, Parse, Applied, RunnerMain, ReadText, Utf8Length, GrowingPayload, GrowingBody, EnvelopeOf;
    var b := Baseline(Unlines(PaddedLines(["a"], MAX_FILE - 2)), tests);
    GrowingLength();
    GrowingParses();
    GrowingApplies(MAX_FILE - 2);
    PayloadReads();
    RunnerOutputFits(b, GrowingPayload(), t);
    OversizedIsRefused(b, Parse(GrowingPayload()).value, t);
  }

  lemma PayloadReads()
    ensures ReadText(GrowingPayload()) == GrowingPayload()
  {
    GrowingParses();
    ParsedIsWellFormed(GrowingPayload());
    ReadTextFacts(GrowingPayload());
  }

  lemma OversizedIsRefused(b: Baseline, p: ValidatedPatch, t: TestRun)
    requires p.oldStart >= 1 && Applied(p, ReadText(b.source)).Ok?
    requires Utf8Length(Applied(p, ReadText(b.source)).value) > MAX_FILE
    ensures ValidateOutput(EnvelopeOf(b, Applied(p, ReadText(b.source)).value, t), b, p) == Err(Oversized)
  {
  }

  /** A tree hash names both files: equal hashes mean equal trees. */
  lemma TreeHashDecides(source: string, tests: string, source': string, tests': string)
    ensures TreeHash(source, tests) == TreeHash(source', tests') <==> source == source' && tests == tests'
  {
    TreeStreamOfTwo(source, tests);
    TreeStreamOfTwo(source', tests');
    var s, s' := TreeStream([SOURCE_NAME, TEST_NAME], [source, tests]), TreeStream([SOURCE_NAME, TEST_NAME], [source', tests']);
    if s == s' {
      assert s[2] == s'[2] && s[5] == s'[5];
    }
  }

  lemma TreeStreamOfTwo(source: string, tests: string)
    ensures TreeStream([SOURCE_NAME, TEST_NAME], [source, tests]) ==
            [Name(SOURCE_NAME), Nul, Inner(TextHash(source)), Name(TEST_NAME), Nul, Inner(TextHash(tests))]
  {
    var names, files := [SOURCE_NAME, TEST_NAME], [source, tests];
    assert names[..1] == [SOURCE_NAME] && files[..1] == [source];
    assert names[..1][..0] == [] && files[..1][..0] == [];
    assert TreeStream(names[..1], files[..1]) == [Name(SOURCE_NAME), Nul, Inner(TextHash(source))];
  }
}
