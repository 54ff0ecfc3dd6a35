/** ValidatedPatch of phase4_patch.py: the applier, and what applying and undoing a hunk mean. */
module PatchEngine {
  import opened Wrappers
  import opened PatchText

  datatype ValidatedPatch = ValidatedPatch(
    raw: string,
    oldStart: nat,
    oldCount: nat,
    newStart: nat,
    newCount: nat,
    body: seq<string>)
  {
    /** What `parse` guarantees of every patch it returns. */
    predicate WellFormed() {
      && oldStart >= 1 && oldCount >= 1 && newStart >= 1 && newCount >= 1
      && body != []
      && forall line <- body :: BodyLine(line)
    }
  }

  predicate BodyLine(line: string) {
    line != "" && (line[0] == ' ' || line[0] == '+' || line[0] == '-') && Plain(line)
  }

  datatype PatchError =
    // apply
    | NotCanonical | StartsOutside | ContextMismatch | WrongCounts | WrongNewStart
    // parse
    | TooLarge | NotText | Incomplete | WrongTarget | ProhibitedOperation | LineTooLong
    | NotOneHunk | BadHeader | ZeroField | BadBodyLine | NotOneFile

  predicate OnOldSide(line: string) {
    line != "" && (line[0] == ' ' || line[0] == '-')
  }

  predicate OnNewSide(line: string) {
    line != "" && (line[0] == ' ' || line[0] == '+')
  }

  /** The lines a hunk expects to find. */
  function OldSide(body: seq<string>): seq<string> {
    if body == [] then []
    else OldSide(body[..|body| - 1]) + if OnOldSide(body[|body| - 1]) then [body[|body| - 1][1..]] else []
  }

  /** The lines a hunk leaves in their place. */
  function NewSide(body: seq<string>): seq<string> {
    if body == [] then []
    else NewSide(body[..|body| - 1]) + if OnNewSide(body[|body| - 1]) then [body[|body| - 1][1..]] else []
  }

  /** lines holds block at position k. */
  predicate HoldsAt(lines: seq<string>, k: nat, block: seq<string>) {
    k + |block| <= |lines| && lines[k..k + |block|] == block
  }

  /** The hunk fits lines: its header agrees with its body, and its old side is what stands there. */
  predicate Fits(p: ValidatedPatch, lines: seq<string>)
    requires p.oldStart >= 1
  {
    && HoldsAt(lines, p.oldStart - 1, OldSide(p.body))
    && |OldSide(p.body)| == p.oldCount && |NewSide(p.body)| == p.newCount
    && p.newStart == p.oldStart
  }

  /** Prefix, new side, suffix. */
  function Patched(p: ValidatedPatch, lines: seq<string>): seq<string>
    requires p.oldStart >= 1 && HoldsAt(lines, p.oldStart - 1, OldSide(p.body))
  {
    var k := p.oldStart - 1;
    lines[..k] + NewSide(p.body) + lines[k + |OldSide(p.body)|..]
  }

  function Applied(p: ValidatedPatch, source: string): Result<string, PatchError>
    requires p.oldStart >= 1
  {
    var lines := SplitLines(source);
    if !Canonical(source) then Err(NotCanonical)
    else if p.oldStart - 1 > |lines| then Err(StartsOutside)
    else if !HoldsAt(lines, p.oldStart - 1, OldSide(p.body)) then Err(ContextMismatch)
    else if |OldSide(p.body)| != p.oldCount || |NewSide(p.body)| != p.newCount then Err(WrongCounts)
    else if p.newStart != p.oldStart then Err(WrongNewStart)
    else Ok(Render(Patched(p, lines)))
  }

  lemma {:induction false} SidesOfPrefix(body: seq<string>, i: nat)
    requires i <= |body|
    ensures OldSide(body[..i]) <= OldSide(body) && NewSide(body[..i]) <= NewSide(body)
  {
    var n := |body| - 1;
    if i <= n {
      SidesOfPrefix(body[..n], i);
      assert body[..n][..i] == body[..i];
    } else {
      assert body[..i] == body;
    }
  }

  /** One more line of the body. */
  lemma SidesSnoc(body: seq<string>, i: nat)
    requires i < |body|
    ensures OldSide(body[..i + 1]) == OldSide(body[..i]) + if OnOldSide(body[i]) then [body[i][1..]] else []
    ensures NewSide(body[..i + 1]) == NewSide(body[..i]) + if OnNewSide(body[i]) then [body[i][1..]] else []
  {
    assert body[..i + 1][..i] == body[..i];
  }

  /** A line of the source that differs from the hunk's next old line rules the hunk out. */
  lemma MismatchRulesOut(lines: seq<string>, k: nat, block: seq<string>, m: nat)
    requires m < |block| && (k + m >= |lines| || lines[k + m] != block[m])
    ensures !HoldsAt(lines, k, block)
  {
    if k + |block| <= |lines| {
      assert lines[k..k + |block|][m] == lines[k + m];
    }
  }

  lemma HoldsSnoc(lines: seq<string>, k: nat, block: seq<string>, x: string)
    requires HoldsAt(lines, k, block) && k + |block| < |lines| && lines[k + |block|] == x
    ensures HoldsAt(lines, k, block + [x])
  {
    assert lines[k..k + |block| + 1] == lines[k..k + |block|] + [x];
  }

  /** What the loop has collected when it ends: the output so far, and how many old and new lines it saw. */
  datatype Walk = Walk(output: seq<string>, oldSeen: nat, newSeen: nat)

  /** The loop of the source: walk the body with a moving source index, collecting the output. */
  method WalkBody(lines: seq<string>, start: nat, body: seq<string>) returns (r: Option<Walk>)
    requires start <= |lines| && forall line <- body :: line != ""
    ensures r.Some? <==> HoldsAt(lines, start, OldSide(body))
    ensures r.Some? ==> r.value == Walk(lines[..start] + NewSide(body), |OldSide(body)|, |NewSide(body)|)
  {
    var index, output := start, lines[..start];
    var oldSeen, newSeen := 0, 0;
    for i := 0 to |body|
      invariant index == start + oldSeen <= |lines|
      invariant oldSeen == |OldSide(body[..i])| && newSeen == |NewSide(body[..i])|
      invariant HoldsAt(lines, start, OldSide(body[..i]))
      invariant output == lines[..start] + NewSide(body[..i])
    {
      var line := body[i];
      assert line in body;
      var content := line[1..];
      SidesSnoc(body, i);
      if line[0] == ' ' || line[0] == '-' {
        if index >= |lines| || lines[index] != content {
          SidesOfPrefix(body, i + 1);
          MismatchRulesOut(lines, start, OldSide(body), oldSeen);
          return None;
        }
        HoldsSnoc(lines, start, OldSide(body[..i]), content);
        index := index + 1;
        oldSeen := oldSeen + 1;
      }
      if line[0] == ' ' || line[0] == '+' {
        output := output + [content];
        newSeen := newSeen + 1;
      }
    }
    assert body[..|body|] == body;
    return Some(Walk(output, oldSeen, newSeen));
  }

  /** ValidatedPatch.apply. */
  method Apply(p: ValidatedPatch, source: string) returns (r: Result<string, PatchError>)
    requires p.oldStart >= 1 && forall line <- p.body :: line != ""
    ensures r == Applied(p, source)
  {
    if !Canonical(source) {
      return Err(NotCanonical);
    }
    var lines := SplitLines(source);
    var start := p.oldStart - 1;
    if start > |lines| {
      return Err(StartsOutside);
    }
    var walk := WalkBody(lines, start, p.body);
    if walk.None? {
      return Err(ContextMismatch);
    }
    var Walk(output, oldSeen, newSeen) := walk.value;
    if oldSeen != p.oldCount || newSeen != p.newCount {
      return Err(WrongCounts);
    }
    if |output| - newSeen + 1 != p.newStart {
      return Err(WrongNewStart);
    }
    output := output + lines[start + oldSeen..];
    return Ok(Render(output));
  }

  /** Applying succeeds exactly when the source is canonical and the hunk fits it. */
  lemma AppliesExactlyWhenItFits(p: ValidatedPatch, source: string)
    requires p.oldStart >= 1
    ensures Applied(p, source).Ok? <==> Canonical(source) && Fits(p, SplitLines(source))
    ensures Applied(p, source).Ok? ==> Applied(p, source).value == Render(Patched(p, SplitLines(source)))
  {
  }

  // ----- what the output is -----

  lemma {:induction false} SidesPlain(body: seq<string>)
    requires forall line <- body :: BodyLine(line)
    ensures AllPlain(OldSide(body)) && AllPlain(NewSide(body))
    ensures |OldSide(body)| <= |body| && |NewSide(body)| <= |body|
  {
    if body != [] {
      SidesPlain(body[..|body| - 1]);
      var line := body[|body| - 1];
      assert Plain(line[1..]) by {
        assert line in body;
        assert forall i :: 0 <= i < |line| - 1 ==> line[1..][i] == line[i + 1];
      }
    }
  }

  lemma AllPlainParts(lines: seq<string>, a: nat, b: nat, block: seq<string>)
    requires AllPlain(lines) && AllPlain(block) && a <= b <= |lines|
    ensures AllPlain(lines[..a] + block + lines[b..])
  {
  }

  lemma PatchedPlain(p: ValidatedPatch, source: string)
    requires p.WellFormed() && Applied(p, source).Ok?
    ensures AllPlain(Patched(p, SplitLines(source))) && Patched(p, SplitLines(source)) != []
  {
    SidesPlain(p.body);
    SplitLinesPlain(source);
    AllPlainParts(SplitLines(source), p.oldStart - 1, p.oldStart - 1 + |OldSide(p.body)|, NewSide(p.body));
  }

  /** The output of a parsed patch is again a canonical text, and its lines are exactly the computed ones. */
  lemma OutputIsCanonical(p: ValidatedPatch, source: string)
    requires p.WellFormed() && Applied(p, source).Ok?
    ensures Canonical(Applied(p, source).value)
    ensures SplitLines(Applied(p, source).value) == Patched(p, SplitLines(source))
  {
    var out := Patched(p, SplitLines(source));
    PatchedPlain(p, source);
    RenderIsUnlines(out);
    UnlinesCanonical(out);
    RenderThenSplit(out);
  }

  // ----- undo -----

  function SwapLine(line: string): string {
    if line != "" && line[0] == '+' then "-" + line[1..]
    else if line != "" && line[0] == '-' then "+" + line[1..]
    else line
  }

  function SwapBody(body: seq<string>): seq<string> {
    if body == [] then [] else SwapBody(body[..|body| - 1]) + [SwapLine(body[|body| - 1])]
  }

  /** The reverse hunk: additions become removals, and the old and new fields trade places. */
  function Swapped(p: ValidatedPatch): ValidatedPatch {
    p.(oldStart := p.newStart, oldCount := p.newCount, newStart := p.oldStart, newCount := p.oldCount, body := SwapBody(p.body))
  }

  lemma SwapLineFacts(line: string)
    requires BodyLine(line)
    ensures BodyLine(SwapLine(line)) && SwapLine(line)[1..] == line[1..] && SwapLine(SwapLine(line)) == line
    ensures OnOldSide(SwapLine(line)) <==> OnNewSide(line)
    ensures OnNewSide(SwapLine(line)) <==> OnOldSide(line)
  {
    assert line == [line[0]] + line[1..];
    assert forall i :: 1 <= i < |line| ==> SwapLine(line)[i] == line[i];
  }

  lemma {:induction false} SwapBodySides(body: seq<string>)
    requires forall line <- body :: BodyLine(line)
    ensures OldSide(SwapBody(body)) == NewSide(body) && NewSide(SwapBody(body)) == OldSide(body)
    ensures |SwapBody(body)| == |body| && forall line <- SwapBody(body) :: BodyLine(line)
  {
    if body != [] {
      var n := |body| - 1;
      assert body[n] in body;
      SwapBodySides(body[..n]);
      SwapLineFacts(body[n]);
      assert SwapBody(body)[..n] == SwapBody(body[..n]);
    }
  }

  lemma SwappedWellFormed(p: ValidatedPatch)
    requires p.WellFormed()
    ensures Swapped(p).WellFormed()
  {
    SwapBodySides(p.body);
  }

  /** A list with a block at k, once the block is exchanged and exchanged back, is the list. */
  lemma ExchangeBack(lines: seq<string>, k: nat, block: seq<string>, other: seq<string>)
    requires HoldsAt(lines, k, block)
    ensures var there := lines[..k] + other + lines[k + |block|..];
            HoldsAt(there, k, other) && there[..k] + block + there[k + |other|..] == lines
  {
    var there := lines[..k] + other + lines[k + |block|..];
    assert there[k..k + |other|] == other;
    assert there[..k] == lines[..k] && there[k + |other|..] == lines[k + |block|..];
    assert lines == lines[..k] + lines[k..k + |block|] + lines[k + |block|..];
  }

  /**
   * Undo: the reverse hunk applies to the output and returns the source, with every line
   * boundary of the source replaced by LF.
   */
  lemma UndoRestoresSource(p: ValidatedPatch, source: string)
    requires p.WellFormed() && Applied(p, source).Ok?
    ensures Applied(Swapped(p), Applied(p, source).value) == Ok(Normal(source))
  {
    var lines := SplitLines(source);
    var out := Patched(p, lines);
    OutputIsCanonical(p, source);
    SwapBodySides(p.body);
    ExchangeBack(lines, p.oldStart - 1, OldSide(p.body), NewSide(p.body));
    assert Patched(Swapped(p), out) == lines;
    SplitLinesPlain(source);
    RenderIsUnlines(lines);
    SplitThenRender(source);
  }

  /** So undo is exact precisely on sources whose only line boundary is LF. */
  lemma UndoIsExact(p: ValidatedPatch, source: string)
    requires p.WellFormed() && Applied(p, source).Ok?
    ensures Applied(Swapped(p), Applied(p, source).value) == Ok(source) <==>
            forall i :: 0 <= i < |source| && IsBoundary(source[i]) ==> source[i] == '\n'
  {
    UndoRestoresSource(p, source);
    NormalIsIdentity(source);
  }

  lemma {:induction false} SwapBodyTwice(body: seq<string>)
    requires forall line <- body :: BodyLine(line)
    ensures SwapBody(SwapBody(body)) == body
  {
    if body != [] {
      var n := |body| - 1;
      assert body[n] in body;
      SwapBodyTwice(body[..n]);
      SwapLineFacts(body[n]);
      SwapBodySides(body[..n]);
      assert SwapBody(body)[..n] == SwapBody(body[..n]);
    }
  }

  /** Redo: applied to what undo returned, the patch gives its output again. */
  lemma RedoRestoresOutput(p: ValidatedPatch, source: string)
    requires p.WellFormed() && Applied(p, source).Ok?
    ensures Applied(Swapped(p), Applied(p, source).value).Ok?
    ensures Applied(p, Applied(Swapped(p), Applied(p, source).value).value) == Applied(p, source)
  {
    hide Applied;
    var output := Applied(p, source).value;
    UndoRestoresSource(p, source);
    SwappedWellFormed(p);
    SwapBodyTwice(p.body);
    assert Swapped(Swapped(p)) == p;
    UndoRestoresSource(Swapped(p), output);
    OutputIsNormal(p, source);
  }

  lemma OutputIsNormal(p: ValidatedPatch, source: string)
    requires p.WellFormed() && Applied(p, source).Ok?
    ensures Normal(Applied(p, source).value) == Applied(p, source).value
  {
    OutputIsCanonical(p, source);
    PatchedPlain(p, source);
    RenderIsUnlines(Patched(p, SplitLines(source)));
    SplitThenRender(Applied(p, source).value);
  }

  // ----- text outside the hunk -----

  /**
   * The output is the normalised text before the hunk, the new side, and the normalised text after
   * it; `before` and `after` are the parts of the source around the hunk's old lines.
   */
  lemma OutsideTheHunk(p: ValidatedPatch, source: string)
    requires p.WellFormed() && Applied(p, source).Ok?
    ensures var lines := SplitLines(source);
            var k, m := p.oldStart - 1, p.oldStart - 1 + p.oldCount;
            && m <= |lines|
            && Applied(p, source).value == Unlines(lines[..k]) + Unlines(NewSide(p.body)) + Unlines(lines[m..])
            && Normal(source) == Unlines(lines[..k]) + Unlines(OldSide(p.body)) + Unlines(lines[m..])
  {
    AppliesExactlyWhenItFits(p, source);
    OutputParts(p, source);
    SourceParts(p, source);
  }

  lemma OutputParts(p: ValidatedPatch, source: string)
    requires p.WellFormed() && Applied(p, source).Ok?
    ensures var lines := SplitLines(source);
            var k := p.oldStart - 1;
            && k + p.oldCount <= |lines|
            && Applied(p, source).value == Unlines(lines[..k]) + Unlines(NewSide(p.body)) + Unlines(lines[k + p.oldCount..])
  {
    hide OldSide, NewSide;
    AppliesExactlyWhenItFits(p, source);
    PatchedPlain(p, source);
    RenderIsUnlines(Patched(p, SplitLines(source)));
    PartsOfLines(SplitLines(source), p.oldStart - 1, OldSide(p.body), NewSide(p.body));
  }

  lemma SourceParts(p: ValidatedPatch, source: string)
    requires p.oldStart >= 1 && Canonical(source) && Fits(p, SplitLines(source))
    ensures var lines := SplitLines(source);
            var k := p.oldStart - 1;
            && k + p.oldCount <= |lines|
            && Normal(source) == Unlines(lines[..k]) + Unlines(OldSide(p.body)) + Unlines(lines[k + p.oldCount..])
  {
    hide Unlines, SplitLines;
    SplitThenRender(source);
    PartsOfLines(SplitLines(source), p.oldStart - 1, OldSide(p.body), OldSide(p.body));
  }

  /** Lines that hold a block, and what putting another in its place does to their text. */
  lemma PartsOfLines(lines: seq<string>, k: nat, block: seq<string>, block': seq<string>)
    requires HoldsAt(lines, k, block)
    ensures Unlines(lines) == Unlines(lines[..k]) + Unlines(block) + Unlines(lines[k + |block|..])
    ensures Unlines(lines[..k] + block' + lines[k + |block|..]) == Unlines(lines[..k]) + Unlines(block') + Unlines(lines[k + |block|..])
  {
    assert lines == lines[..k] + block + lines[k + |block|..];
    UnlinesOfThree(lines[..k], block, lines[k + |block|..]);
    UnlinesOfThree(lines[..k], block', lines[k + |block|..]);
  }

  lemma UnlinesOfThree(a: seq<string>, b: seq<string>, c: seq<string>)
    ensures Unlines(a + b + c) == Unlines(a) + Unlines(b) + Unlines(c)
  {
    UnlinesAppend(a + b, c);
    UnlinesAppend(a, b);
  }

  /**
   * Outside the hunk the output repeats the source byte for byte exactly when every line
   * boundary there is LF. The hunk replaces the characters of the source from a to b.
   */
  lemma OutsideIsByteIdentical(p: ValidatedPatch, source: string)
    requires p.WellFormed() && Applied(p, source).Ok?
    ensures p.oldStart - 1 + p.oldCount <= |SplitLines(source)|
    ensures var a := |Unlines(SplitLines(source)[..p.oldStart - 1])|;
            var b := a + |Unlines(OldSide(p.body))|;
            && b <= |source|
            && Applied(p, source).value == Normal(source[..a]) + Unlines(NewSide(p.body)) + Normal(source[b..])
            && (Normal(source[..a]) == source[..a] && Normal(source[b..]) == source[b..] <==>
                forall i :: (0 <= i < a || b <= i < |source|) && IsBoundary(source[i]) ==> source[i] == '\n')
  {
    hide Applied, SplitLines, IsBoundary, Unlines, Normal, OldSide, NewSide;
    OutsideTheHunk(p, source);
    AroundTheHunk(source, Applied(p, source).value, SplitLines(source), p.oldStart - 1, p.oldStart - 1 + p.oldCount, p.body);
  }

  lemma AroundTheHunk(source: string, output: string, lines: seq<string>, k: nat, m: nat, body: seq<string>)
    requires k <= m <= |lines|
    requires Normal(source) == Unlines(lines[..k]) + Unlines(OldSide(body)) + Unlines(lines[m..])
    requires output == Unlines(lines[..k]) + Unlines(NewSide(body)) + Unlines(lines[m..])
    ensures var a := |Unlines(lines[..k])|;
            var b := a + |Unlines(OldSide(body))|;
            && b <= |source|
            && output == Normal(source[..a]) + Unlines(NewSide(body)) + Normal(source[b..])
            && (Normal(source[..a]) == source[..a] && Normal(source[b..]) == source[b..] <==>
                forall i :: (0 <= i < a || b <= i < |source|) && IsBoundary(source[i]) ==> source[i] == '\n')
  {
    hide IsBoundary, Unlines, Normal, OldSide, NewSide;
    ByteIdentical(source, output, Unlines(lines[..k]), Unlines(OldSide(body)), Unlines(NewSide(body)), Unlines(lines[m..]));
  }

  lemma ByteIdentical(source: string, output: string, before: string, middle: string, middle': string, after: string)
    requires Normal(source) == before + middle + after && output == before + middle' + after
    ensures var a, b := |before|, |before| + |middle|;
            && b <= |source|
            && output == Normal(source[..a]) + middle' + Normal(source[b..])
            && (Normal(source[..a]) == source[..a] && Normal(source[b..]) == source[b..] <==>
                forall i :: (0 <= i < a || b <= i < |source|) && IsBoundary(source[i]) ==> source[i] == '\n')
  {
    NormalSplits(source, before, middle, after);
    NormalOfEnds(source, |before|, |before| + |middle|);
  }

  lemma NormalSplits(source: string, before: string, middle: string, after: string)
    requires Normal(source) == before + middle + after
    ensures var a, b := |before|, |before| + |middle|;
            b <= |source| && Normal(source[..a]) == before && Normal(source[b..]) == after
  {
    var a, b := |before|, |before| + |middle|;
    assert |Normal(source)| == |source|;
    assert Normal(source[..a]) == Normal(source)[..a];
    assert Normal(source[b..]) == Normal(source)[b..];
  }

  lemma NormalOfEnds(source: string, a: nat, b: nat)
    requires a <= b <= |source|
    ensures Normal(source[..a]) == source[..a] && Normal(source[b..]) == source[b..] <==>
            forall i :: (0 <= i < a || b <= i < |source|) && IsBoundary(source[i]) ==> source[i] == '\n'
  {
    NormalIsIdentity(source[..a]);
    NormalIsIdentity(source[b..]);
    if Normal(source[..a]) == source[..a] && Normal(source[b..]) == source[b..] {
      forall i | (0 <= i < a || b <= i < |source|) && IsBoundary(source[i]) ensures source[i] == '\n' {
        if i < a { assert source[..a][i] == source[i]; } else { assert source[b..][i - b] == source[i]; }
      }
    }
  }
}
