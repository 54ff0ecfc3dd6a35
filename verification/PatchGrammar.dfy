/** `ValidatedPatch.parse` and the grammar it accepts. */
module PatchGrammar {
  import opened Wrappers
  import opened PatchText
  import opened PatchEngine

  const OLD_FILE := "--- a/calculator.py"
  const NEW_FILE := "+++ b/calculator.py"
  const MAX_BYTES := 8192
  const MAX_LINE := 500

  const PROHIBITED: seq<string> := [
    "diff --git ", "new file mode ", "deleted file mode ", "old mode ", "new mode ", "rename from ", "rename to ",
    "copy from ", "copy to ", "GIT binary patch", "Binary files ", "Subproject commit ", "\\ No newline at end of file" ]

  predicate StartsWith(s: string, prefix: string) {
    prefix <= s
  }

  predicate Prohibited(line: string) {
    exists p <- PROHIBITED :: StartsWith(line, p)
  }

  // ----- the hunk header, as the regular expression reads it -----

  /** The numbers of a header; a count that is not written is 1. */
  datatype Hunk = Hunk(oldStart: nat, oldCount: nat, newStart: nat, newCount: nat)

  function DigitRun(s: string): (n: nat)
    ensures n <= |s|
    ensures forall i :: 0 <= i < n ==> IsDigit(s[i])
    ensures n < |s| ==> !IsDigit(s[n])
  {
    if s == "" || !IsDigit(s[0]) then 0 else 1 + DigitRun(s[1..])
  }

  /** A start and an optional count, and the rest of the line. */
  datatype Range = Range(start: string, count: Option<string>, rest: string)

  function ReadRange(s: string): Option<Range> {
    var n := DigitRun(s);
    var rest := s[n..];
    if n == 0 then None
    else if rest == "" || rest[0] != ',' then Some(Range(s[..n], Option.None, rest))
    else
      var m := DigitRun(rest[1..]);
      if m == 0 then None else Some(Range(s[..n], Some(rest[1..][..m]), rest[1..][m..]))
  }

  function CountOf(count: Option<string>): nat
    requires count.Some? ==> Numeral(count.value)
  {
    if count.None? then 1 else Number(count.value)
  }

  lemma RangeNumerals(s: string)
    ensures ReadRange(s).Some? ==>
              && Numeral(ReadRange(s).value.start)
              && (ReadRange(s).value.count.Some? ==> Numeral(ReadRange(s).value.count.value))
  {
  }

  function ReadHunk(line: string): Option<Hunk> {
    RangeNumerals(line[if |line| < 4 then |line| else 4..]);
    if !StartsWith(line, "@@ -") then None
    else
      var before := ReadRange(line[4..]);
      if before.None? || !StartsWith(before.value.rest, " +") then None
      else
        var after := ReadRange(before.value.rest[2..]);
        RangeNumerals(before.value.rest[2..]);
        if after.None? || after.value.rest != " @@" then None
        else Some(Hunk(Number(before.value.start), CountOf(before.value.count), Number(after.value.start), CountOf(after.value.count)))
  }

  // ----- parse -----

  predicate IsText(payload: string) {
    Canonical(payload) && '\0' !in payload
  }

  /** The indices of the lines that begin with `@@`. */
  function HunkIndices(lines: seq<string>): seq<nat> {
    if lines == [] then []
    else
      var n := |lines| - 1;
      HunkIndices(lines[..n]) + if StartsWith(lines[n], "@@") then [n] else []
  }

  predicate BodyStart(line: string) {
    line != "" && (line[0] == ' ' || line[0] == '+' || line[0] == '-')
  }

  predicate FileHeader(line: string) {
    StartsWith(line, "--- ") || StartsWith(line, "+++ ")
  }

  function Parse(payload: string): Result<ValidatedPatch, PatchError> {
    var lines := SplitLines(payload);
    if Utf8Length(payload) > MAX_BYTES then Err(TooLarge)
    else if !IsText(payload) then Err(NotText)
    else match CheckLines(lines)
      case Some(e) => Err(e)
      case None => ParseHunk(payload, lines)
  }

  /** The checks made before the hunk header is read. */
  function CheckLines(lines: seq<string>): (r: Option<PatchError>)
    ensures r.None? ==> |lines| >= 4
  {
    if |lines| < 4 then Some(Incomplete)
    else if lines[0] != OLD_FILE || lines[1] != NEW_FILE then Some(WrongTarget)
    else if exists line <- lines :: Prohibited(line) then Some(ProhibitedOperation)
    else if exists line <- lines :: |line| > MAX_LINE then Some(LineTooLong)
    else if HunkIndices(lines) != [2] then Some(NotOneHunk)
    else None
  }

  function ParseHunk(payload: string, lines: seq<string>): Result<ValidatedPatch, PatchError>
    requires |lines| >= 4
  {
    var hunk := ReadHunk(lines[2]);
    if hunk.None? then Err(BadHeader) else ParseBody(payload, hunk.value, lines[3..])
  }

  function ParseBody(payload: string, h: Hunk, body: seq<string>): Result<ValidatedPatch, PatchError> {
    if h.oldStart < 1 || h.oldCount < 1 || h.newStart < 1 || h.newCount < 1 then Err(ZeroField)
    else if body == [] || exists line <- body :: !BodyStart(line) then Err(BadBodyLine)
    else if exists line <- body :: FileHeader(line) then Err(NotOneFile)
    else Ok(ValidatedPatch(payload, h.oldStart, h.oldCount, h.newStart, h.newCount, body))
  }

  // ----- the grammar -----

  /** A start numeral and an optional count numeral. */
  datatype RangeText = RangeText(start: string, count: Option<string>) {
    predicate Valid() {
      Numeral(start) && (count.Some? ==> Numeral(count.value))
    }

    function Text(): string {
      start + if count.None? then "" else "," + count.value
    }
  }

  function HeaderText(a: RangeText, b: RangeText): string {
    "@@ -" + a.Text() + " +" + b.Text() + " @@"
  }

  function HunkOf(a: RangeText, b: RangeText): Hunk
    requires a.Valid() && b.Valid()
  {
    Hunk(Number(a.start), CountOf(a.count), Number(b.start), CountOf(b.count))
  }

  predicate Positive(h: Hunk) {
    h.oldStart >= 1 && h.oldCount >= 1 && h.newStart >= 1 && h.newCount >= 1
  }

  predicate HunkLine(line: string) {
    BodyStart(line) && |line| <= MAX_LINE && !FileHeader(line)
  }

  /** payload is the text of one hunk with header ranges a and b and the given body. */
  predicate Derives(payload: string, a: RangeText, b: RangeText, body: seq<string>) {
    && Utf8Length(payload) <= MAX_BYTES && IsText(payload)
    && a.Valid() && b.Valid() && Positive(HunkOf(a, b)) && |HeaderText(a, b)| <= MAX_LINE
    && body != [] && (forall line <- body :: HunkLine(line))
    && SplitLines(payload) == [OLD_FILE, NEW_FILE, HeaderText(a, b)] + body
  }

  function PatchOf(payload: string, a: RangeText, b: RangeText, body: seq<string>): ValidatedPatch
    requires a.Valid() && b.Valid()
  {
    var h := HunkOf(a, b);
    ValidatedPatch(payload, h.oldStart, h.oldCount, h.newStart, h.newCount, body)
  }

  // ----- reading headers -----

  lemma {:induction false} DigitRunOfNumeral(a: string, rest: string)
    requires forall i :: 0 <= i < |a| ==> IsDigit(a[i])
    requires rest != "" ==> !IsDigit(rest[0])
    ensures DigitRun(a + rest) == |a|
  {
    if a == "" {
      assert a + rest == rest;
    } else {
      assert forall i :: 0 <= i < |a| - 1 ==> a[1..][i] == a[i + 1];
      DigitRunOfNumeral(a[1..], rest);
      assert (a + rest)[1..] == a[1..] + rest;
    }
  }

  lemma ReadRangeOfText(a: RangeText, rest: string)
    requires a.Valid() && rest != "" && !IsDigit(rest[0]) && rest[0] != ','
    ensures ReadRange(a.Text() + rest) == Some(Range(a.start, a.count, rest))
  {
    var s := a.Text() + rest;
    if a.count.None? {
      assert s == a.start + rest;
      DigitRunOfNumeral(a.start, rest);
      assert s[..|a.start|] == a.start && s[|a.start|..] == rest;
    } else {
      var tail := "," + a.count.value + rest;
      assert s == a.start + tail;
      DigitRunOfNumeral(a.start, tail);
      assert s[..|a.start|] == a.start && s[|a.start|..] == tail;
      assert tail[1..] == a.count.value + rest;
      DigitRunOfNumeral(a.count.value, rest);
      assert tail[1..][..|a.count.value|] == a.count.value && tail[1..][|a.count.value|..] == rest;
    }
  }

  lemma TextOfReadRange(s: string)
    requires ReadRange(s).Some?
    ensures var r := ReadRange(s).value;
            RangeText(r.start, r.count).Valid() && s == RangeText(r.start, r.count).Text() + r.rest
  {
    RangeNumerals(s);
    var n := DigitRun(s);
    assert s == s[..n] + s[n..];
    if s[n..] != "" && s[n] == ',' {
      var m := DigitRun(s[n..][1..]);
      CountFollows(s, n, m);
    }
  }

  lemma CountFollows(s: string, n: nat, m: nat)
    requires n < |s| && s[n] == ',' && m <= |s| - n - 1
    ensures s == s[..n] + ("," + s[n..][1..][..m]) + s[n..][1..][m..]
  {
    var rest := s[n..];
    assert rest == "," + rest[1..] && rest[1..] == rest[1..][..m] + rest[1..][m..];
    assert s == s[..n] + rest;
  }

  lemma Parts(a: string, b: string)
    ensures (a + b)[..|a|] == a && (a + b)[|a|..] == b
  {
  }

  /** ReadHunk, given the two ranges it meets. */
  lemma ReadHunkOfRanges(line: string, before: Range, after: Range)
    requires StartsWith(line, "@@ -") && ReadRange(line[4..]) == Some(before)
    requires StartsWith(before.rest, " +") && ReadRange(before.rest[2..]) == Some(after) && after.rest == " @@"
    ensures RangeText(before.start, before.count).Valid() && RangeText(after.start, after.count).Valid()
    ensures ReadHunk(line) == Some(HunkOf(RangeText(before.start, before.count), RangeText(after.start, after.count)))
  {
    RangeNumerals(line[4..]);
    RangeNumerals(before.rest[2..]);
  }

  /** A header is accepted exactly when it is the text of two ranges, and then its numbers are theirs. */
  lemma HeaderReads(a: RangeText, b: RangeText)
    requires a.Valid() && b.Valid()
    ensures ReadHunk(HeaderText(a, b)) == Some(HunkOf(a, b))
  {
    var line := HeaderText(a, b);
    var rest := " +" + (b.Text() + " @@");
    HeaderAssociates(a.Text(), b.Text());
    Parts("@@ -", a.Text() + rest);
    ReadRangeOfText(a, rest);
    Parts(" +", b.Text() + " @@");
    ReadRangeOfText(b, " @@");
    ReadHunkOfRanges(line, Range(a.start, a.count, rest), Range(b.start, b.count, " @@"));
  }

  lemma HeaderAssociates(x: string, y: string)
    ensures "@@ -" + x + " +" + y + " @@" == "@@ -" + (x + (" +" + (y + " @@")))
  {
  }

  lemma HeaderDerives(line: string)
    requires ReadHunk(line).Some?
    ensures exists a: RangeText, b: RangeText :: a.Valid() && b.Valid() && line == HeaderText(a, b) && ReadHunk(line) == Some(HunkOf(a, b))
  {
    var before := ReadRange(line[4..]).value;
    var after := ReadRange(before.rest[2..]).value;
    var a, b := RangeText(before.start, before.count), RangeText(after.start, after.count);
    TextOfReadRange(line[4..]);
    TextOfReadRange(before.rest[2..]);
    ReadHunkOfRanges(line, before, after);
    HeaderFrom(line, a.Text(), before.rest, b.Text());
  }

  lemma HeaderFrom(line: string, x: string, rest: string, y: string)
    requires StartsWith(line, "@@ -") && line[4..] == x + rest && StartsWith(rest, " +") && rest[2..] == y + " @@"
    ensures line == "@@ -" + x + " +" + y + " @@"
  {
    calc {
      line;
      "@@ -" + line[4..];
      "@@ -" + (x + rest);
      { assert rest == " +" + rest[2..]; }
      "@@ -" + (x + (" +" + (y + " @@")));
      { HeaderAssociates(x, y); }
      "@@ -" + x + " +" + y + " @@";
    }
  }

  // ----- parse accepts exactly the grammar -----

  lemma {:induction false} OnlyHunkIndex(lines: seq<string>, k: nat)
    requires k <= |lines| && forall i :: 0 <= i < |lines| ==> (StartsWith(lines[i], "@@") <==> i == 2)
    ensures HunkIndices(lines[..k]) == if k <= 2 then [] else [2]
  {
    if k > 0 {
      OnlyHunkIndex(lines, k - 1);
      assert lines[..k][..k - 1] == lines[..k - 1];
    }
  }

  /** No line of the grammar begins as a prohibited operation does. */
  lemma NotProhibited(line: string)
    requires line != "" && (line[0] == ' ' || line[0] == '+' || line[0] == '-' || line[0] == '@')
    ensures !Prohibited(line)
  {
    forall p <- PROHIBITED ensures !StartsWith(line, p) {
      ProhibitedStart(p);
    }
  }

  lemma ProhibitedStart(p: string)
    requires p in PROHIBITED
    ensures p != "" && p[0] != ' ' && p[0] != '+' && p[0] != '-' && p[0] != '@'
  {
  }

  lemma GrammarLine(line: string, header: string, body: seq<string>)
    requires line == OLD_FILE || line == NEW_FILE || line == header || line in body
    requires StartsWith(header, "@@") && |header| <= MAX_LINE && forall line <- body :: HunkLine(line)
    ensures !Prohibited(line) && |line| <= MAX_LINE
    ensures StartsWith(line, "@@") ==> line == header
  {
    if line in body { assert HunkLine(line); }
    NotProhibited(line);
  }

  /** The prohibited-prefix, line-length and single-hunk checks all pass on grammatical lines. */
  lemma ChecksPass(lines: seq<string>, header: string, body: seq<string>)
    requires lines == [OLD_FILE, NEW_FILE, header] + body && body != [] && StartsWith(header, "@@") && |header| <= MAX_LINE
    requires forall line <- body :: HunkLine(line)
    ensures CheckLines(lines) == None
  {
    forall i | 0 <= i < |lines|
      ensures !Prohibited(lines[i]) && |lines[i]| <= MAX_LINE && (StartsWith(lines[i], "@@") <==> i == 2)
    {
      if i >= 3 {
        assert lines[i] == body[i - 3] && HunkLine(body[i - 3]);
        GrammarLine(lines[i], header, body);
        assert lines[i][0] != '@';
      } else {
        GrammarLine(lines[i], header, body);
        assert OLD_FILE[0] == '-' && NEW_FILE[0] == '+' && header[0] == "@@"[0];
        assert i < 2 ==> lines[i][0] != '@';
      }
    }
    OnlyHunkIndex(lines, |lines|);
    assert lines[..|lines|] == lines;
  }

  lemma BodyParses(payload: string, h: Hunk, body: seq<string>)
    requires Positive(h) && body != [] && forall line <- body :: HunkLine(line)
    ensures ParseBody(payload, h, body) == Ok(ValidatedPatch(payload, h.oldStart, h.oldCount, h.newStart, h.newCount, body))
  {
    assert forall line <- body :: HunkLine(line) && BodyStart(line) && !FileHeader(line);
  }

  lemma GrammarParses(payload: string, a: RangeText, b: RangeText, body: seq<string>)
    requires Derives(payload, a, b, body)
    ensures Parse(payload) == Ok(PatchOf(payload, a, b, body))
  {
    var lines, header := SplitLines(payload), HeaderText(a, b);
    assert StartsWith(header, "@@") by {
      HeaderAssociates(a.Text(), b.Text());
      Parts("@@", " -" + (a.Text() + (" +" + (b.Text() + " @@"))));
      assert header == "@@" + (" -" + (a.Text() + (" +" + (b.Text() + " @@"))));
    }
    ChecksPass(lines, header, body);
    calc {
      Parse(payload);
      ParseHunk(payload, lines);
      { HeaderReads(a, b); assert lines[2] == header && lines[3..] == body; }
      ParseBody(payload, HunkOf(a, b), body);
      { BodyParses(payload, HunkOf(a, b), body); }
      Ok(PatchOf(payload, a, b, body));
    }
  }

  lemma LinesOfParsed(payload: string)
    requires Parse(payload).Ok?
    ensures var lines := SplitLines(payload);
            && CheckLines(lines).None? && lines[3..] == Parse(payload).value.body
            && lines == [OLD_FILE, NEW_FILE, lines[2]] + lines[3..]
            && ReadHunk(lines[2]).Some? && Positive(ReadHunk(lines[2]).value)
            && ParseBody(payload, ReadHunk(lines[2]).value, lines[3..]) == Parse(payload)
            && |lines[2]| <= MAX_LINE && forall line <- lines[3..] :: HunkLine(line)
  {
    var lines := SplitLines(payload);
    LinesOfChecked(lines);
    LinesOfBody(payload, ReadHunk(lines[2]).value, lines[3..]);
    forall line <- lines[3..] ensures HunkLine(line) {
      assert line in lines;
    }
  }

  lemma LinesOfChecked(lines: seq<string>)
    requires CheckLines(lines).None?
    ensures |lines| >= 4 && lines == [OLD_FILE, NEW_FILE, lines[2]] + lines[3..]
    ensures forall line <- lines :: |line| <= MAX_LINE && !Prohibited(line)
    ensures |lines[2]| <= MAX_LINE
  {
    hide Prohibited, HunkIndices;
    assert lines[2] in lines;
  }

  lemma LinesOfBody(payload: string, h: Hunk, body: seq<string>)
    requires ParseBody(payload, h, body).Ok?
    ensures Positive(h) && ParseBody(payload, h, body).value.body == body
    ensures forall line <- body :: BodyStart(line) && !FileHeader(line)
  {
  }

  lemma ParsesByGrammar(payload: string)
    requires Parse(payload).Ok?
    ensures exists a: RangeText, b: RangeText ::
              Derives(payload, a, b, Parse(payload).value.body) && Parse(payload).value == PatchOf(payload, a, b, Parse(payload).value.body)
  {
    var line := SplitLines(payload)[2];
    LinesOfParsed(payload);
    HeaderDerives(line);
    var a: RangeText, b: RangeText :| a.Valid() && b.Valid() && line == HeaderText(a, b) && ReadHunk(line) == Some(HunkOf(a, b));
    DerivationOf(payload, a, b, Parse(payload).value.body);
  }

  lemma DerivationOf(payload: string, a: RangeText, b: RangeText, body: seq<string>)
    requires a.Valid() && b.Valid() && Positive(HunkOf(a, b)) && |HeaderText(a, b)| <= MAX_LINE
    requires Utf8Length(payload) <= MAX_BYTES && IsText(payload) && ParseBody(payload, HunkOf(a, b), body).Ok?
    requires forall line <- body :: HunkLine(line)
    requires SplitLines(payload) == [OLD_FILE, NEW_FILE, HeaderText(a, b)] + body
    ensures Derives(payload, a, b, body) && ParseBody(payload, HunkOf(a, b), body).value == PatchOf(payload, a, b, body)
  {
  }

  /** `parse` accepts exactly the payloads the grammar derives, and returns the fields of the derivation. */
  lemma ParseAcceptsGrammar(payload: string, p: ValidatedPatch)
    ensures Parse(payload) == Ok(p) <==>
            exists a: RangeText, b: RangeText :: Derives(payload, a, b, p.body) && p == PatchOf(payload, a, b, p.body)
  {
    if Parse(payload) == Ok(p) {
      ParsesByGrammar(payload);
    }
    if a: RangeText, b: RangeText :| Derives(payload, a, b, p.body) && p == PatchOf(payload, a, b, p.body) {
      GrammarParses(payload, a, b, p.body);
    }
  }

  /** What later stages rely on. */
  lemma ParsedIsWellFormed(payload: string)
    requires Parse(payload).Ok?
    ensures Parse(payload).value.WellFormed() && Parse(payload).value.raw == payload
    ensures Utf8Length(payload) <= MAX_BYTES && Canonical(payload)
  {
    LinesOfParsed(payload);
    SplitLinesPlain(payload);
    var lines := SplitLines(payload);
    forall line <- lines[3..] ensures BodyLine(line) {
      assert HunkLine(line) && line in lines;
    }
  }

  /** An accepted payload is its header and body lines, each ended, up to which boundary ends them. */
  lemma ParsedIsRendered(payload: string)
    requires Parse(payload).Ok?
    ensures Normal(payload) == Unlines([OLD_FILE, NEW_FILE, SplitLines(payload)[2]] + Parse(payload).value.body)
  {
    LinesOfParsed(payload);
    SplitThenRender(payload);
  }

  // ----- rendering and parsing back -----

  lemma DigitsArePlain(s: string)
    requires Numeral(s)
    ensures Plain(s) && '\0' !in s
  {
  }

  lemma HeaderIsPlain(a: RangeText, b: RangeText)
    requires a.Valid() && b.Valid()
    ensures Plain(HeaderText(a, b)) && '\0' !in HeaderText(a, b)
  {
    DigitsArePlain(a.start);
    DigitsArePlain(b.start);
    if a.count.Some? { DigitsArePlain(a.count.value); }
    if b.count.Some? { DigitsArePlain(b.count.value); }
  }

  lemma {:induction false} UnlinesWithoutNul(lines: seq<string>)
    requires forall line <- lines :: '\0' !in line
    ensures '\0' !in Unlines(lines)
  {
    if lines != [] {
      UnlinesWithoutNul(lines[1..]);
    }
  }

  /**
   * Rendering a header and a body and parsing the result recovers every field, whether or not the
   * counts are written and in whatever digits.
   */
  lemma RenderedParses(a: RangeText, b: RangeText, body: seq<string>)
    requires a.Valid() && b.Valid() && Positive(HunkOf(a, b)) && |HeaderText(a, b)| <= MAX_LINE
    requires body != [] && forall line <- body :: HunkLine(line) && Plain(line) && '\0' !in line
    requires Utf8Length(Unlines([OLD_FILE, NEW_FILE, HeaderText(a, b)] + body)) <= MAX_BYTES
    ensures var payload := Unlines([OLD_FILE, NEW_FILE, HeaderText(a, b)] + body);
            Parse(payload) == Ok(PatchOf(payload, a, b, body))
  {
    var lines := [OLD_FILE, NEW_FILE, HeaderText(a, b)] + body;
    HeaderIsPlain(a, b);
    assert AllPlain(lines) && forall line <- lines :: '\0' !in line by {
      forall line <- lines ensures Plain(line) && '\0' !in line {
        assert line == OLD_FILE || line == NEW_FILE || line == HeaderText(a, b) || line in body;
      }
    }
    RenderThenSplit(lines);
    UnlinesCanonical(lines);
    UnlinesWithoutNul(lines);
    GrammarParses(Unlines(lines), a, b, body);
  }

  /** In particular with the numerals of the fields themselves. */
  lemma DecimalHeaderReads(h: Hunk)
    ensures var a := RangeText(Decimal(h.oldStart), Some(Decimal(h.oldCount)));
            var b := RangeText(Decimal(h.newStart), Some(Decimal(h.newCount)));
            a.Valid() && b.Valid() && ReadHunk(HeaderText(a, b)) == Some(h)
  {
    DecimalRoundTrip(h.oldStart);
    DecimalRoundTrip(h.oldCount);
    DecimalRoundTrip(h.newStart);
    DecimalRoundTrip(h.newCount);
    HeaderReads(RangeText(Decimal(h.oldStart), Some(Decimal(h.oldCount))), RangeText(Decimal(h.newStart), Some(Decimal(h.newCount))));
  }
}
