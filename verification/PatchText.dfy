/** Lines, bytes and decimal numerals as the patch engine sees them. */
module PatchText {

  // ----- str.splitlines -----

  /** The characters at which `str.splitlines` ends a line. */
  predicate IsBoundary(c: char) {
    var n := c as int;
    0x0A <= n <= 0x0D || 0x1C <= n <= 0x1E || n == 0x85 || n == 0x2028 || n == 0x2029
  }

  /** Where the first line of s ends. */
  function FirstBreak(s: string): (n: nat)
    ensures n <= |s|
    ensures n < |s| ==> IsBoundary(s[n])
    ensures forall i :: 0 <= i < n ==> !IsBoundary(s[i])
  {
    if s == "" || IsBoundary(s[0]) then 0 else 1 + FirstBreak(s[1..])
  }

  /** CR LF is one line end; every other boundary is one by itself. */
  function BreakLength(s: string): (n: nat)
    requires s != ""
    ensures 1 <= n <= |s|
  {
    if |s| >= 2 && s[0] == '\r' && s[1] == '\n' then 2 else 1
  }

  function SplitLines(s: string): seq<string>
    decreases |s|
  {
    if s == "" then []
    else
      var n := FirstBreak(s);
      if n == |s| then [s] else [s[..n]] + SplitLines(s[n + BreakLength(s[n..])..])
  }

  function Join(lines: seq<string>): string {
    if lines == [] then "" else if |lines| == 1 then lines[0] else lines[0] + "\n" + Join(lines[1..])
  }

  /** `"\n".join(lines) + "\n"`. */
  function Render(lines: seq<string>): string {
    Join(lines) + "\n"
  }

  predicate Plain(line: string) {
    forall i :: 0 <= i < |line| ==> !IsBoundary(line[i])
  }

  predicate AllPlain(lines: seq<string>) {
    forall line <- lines :: Plain(line)
  }

  predicate NoReturn(s: string) {
    forall i :: 0 <= i < |s| ==> s[i] != '\r'
  }

  /** Text in which `apply` accepts a baseline: no CR, and a final LF. */
  predicate Canonical(s: string) {
    NoReturn(s) && s != "" && s[|s| - 1] == '\n'
  }

  /** s with every line boundary replaced by LF. */
  function Normal(s: string): string {
    seq(|s|, i requires 0 <= i < |s| => if IsBoundary(s[i]) then '\n' else s[i])
  }

  /** Each line followed by LF. */
  function Unlines(lines: seq<string>): string {
    if lines == [] then "" else lines[0] + "\n" + Unlines(lines[1..])
  }

  lemma {:induction false} RenderIsUnlines(lines: seq<string>)
    requires lines != []
    ensures Render(lines) == Unlines(lines)
  {
    if |lines| == 1 {
      assert Unlines(lines[1..]) == "";
      assert lines[0] + "\n" + "" == lines[0] + "\n";
    } else {
      RenderIsUnlines(lines[1..]);
      assert Render(lines) == lines[0] + "\n" + (Join(lines[1..]) + "\n");
    }
  }

  lemma {:induction false} UnlinesAppend(a: seq<string>, b: seq<string>)
    ensures Unlines(a + b) == Unlines(a) + Unlines(b)
  {
    if a == [] {
      assert a + b == b;
    } else {
      UnlinesAppend(a[1..], b);
      assert (a + b)[1..] == a[1..] + b;
      assert Unlines(a + b) == a[0] + "\n" + (Unlines(a[1..]) + Unlines(b));
    }
  }

  lemma {:induction false} SplitLinesPlain(s: string)
    ensures AllPlain(SplitLines(s)) && (s != "" ==> SplitLines(s) != [])
    decreases |s|
  {
    if s != "" && FirstBreak(s) < |s| {
      SplitLinesPlain(s[FirstBreak(s) + BreakLength(s[FirstBreak(s)..])..]);
    }
  }

  /** A text each of whose lines is ended, without CR. */
  predicate Ended(s: string) {
    NoReturn(s) && (s != "" ==> IsBoundary(s[|s| - 1]))
  }

  lemma EndedTail(s: string, k: nat)
    requires Ended(s) && k <= |s|
    ensures Ended(s[k..])
  {
    assert forall i :: 0 <= i < |s| - k ==> s[k..][i] == s[k + i];
  }

  lemma BreakOfEnded(s: string)
    requires Ended(s) && s != ""
    ensures FirstBreak(s) < |s| && BreakLength(s[FirstBreak(s)..]) == 1
  {
    assert s[FirstBreak(s)..][0] == s[FirstBreak(s)];
  }

  lemma SplitFirst(s: string)
    requires Ended(s) && s != ""
    ensures var n := FirstBreak(s);
            n < |s| && Ended(s[n + 1..]) && SplitLines(s) == [s[..n]] + SplitLines(s[n + 1..])
  {
    BreakOfEnded(s);
    EndedTail(s, FirstBreak(s) + 1);
  }

  lemma NormalFirst(s: string, n: nat)
    requires n < |s| && IsBoundary(s[n]) && forall i :: 0 <= i < n ==> !IsBoundary(s[i])
    ensures Normal(s) == s[..n] + "\n" + Normal(s[n + 1..])
  {
    var line, rest := s[..n], s[n + 1..];
    forall i | 0 <= i < |s| ensures Normal(s)[i] == (line + "\n" + Normal(rest))[i] {
      if i > n { assert s[i] == rest[i - n - 1]; }
    }
  }

  lemma UnlinesCons(line: string, lines: seq<string>)
    ensures Unlines([line] + lines) == line + "\n" + Unlines(lines)
  {
    assert ([line] + lines)[1..] == lines;
  }

  /** Splitting and joining a CR-free text that ends with LF only replaces its other boundaries by LF. */
  lemma {:induction false} SplitThenRender(s: string)
    requires Ended(s)
    ensures Unlines(SplitLines(s)) == Normal(s)
    decreases |s|
  {
    if s != "" {
      var n := FirstBreak(s);
      var line, rest := s[..n], s[n + 1..];
      calc {
        Unlines(SplitLines(s));
        { SplitFirst(s); }
        Unlines([line] + SplitLines(rest));
        { UnlinesCons(line, SplitLines(rest)); }
        line + "\n" + Unlines(SplitLines(rest));
        { SplitFirst(s); SplitThenRender(rest); }
        line + "\n" + Normal(rest);
        { SplitFirst(s); NormalFirst(s, n); }
        Normal(s);
      }
    }
  }

  /** Joining plain lines and splitting again returns them. */
  lemma {:induction false} RenderThenSplit(lines: seq<string>)
    requires AllPlain(lines)
    ensures SplitLines(Unlines(lines)) == lines
  {
    if lines != [] {
      var l, rest := lines[0], Unlines(lines[1..]);
      var s := Unlines(lines);
      assert s == l + "\n" + rest && lines == [l] + lines[1..];
      assert Plain(l);
      RenderThenSplit(lines[1..]);
      FirstBreakOfLine(l, rest);
      assert s[..|l|] == l && s[|l|..][0] == '\n' && s[|l| + 1..] == rest;
    }
  }

  lemma FirstBreakOfLine(l: string, rest: string)
    requires Plain(l)
    ensures FirstBreak(l + "\n" + rest) == |l|
  {
    var s := l + "\n" + rest;
    var n := FirstBreak(s);
    assert IsBoundary(s[|l|]);
    assert forall i :: 0 <= i < |l| ==> s[i] == l[i];
  }

  lemma {:induction false} UnlinesCanonical(lines: seq<string>)
    requires AllPlain(lines) && lines != []
    ensures Canonical(Unlines(lines))
  {
    assert Plain(lines[0]);
    if |lines| > 1 {
      UnlinesCanonical(lines[1..]);
    } else {
      assert Unlines(lines[1..]) == "";
    }
  }

  /** Normalising changes nothing exactly when LF is the only boundary. */
  lemma NormalIsIdentity(s: string)
    ensures Normal(s) == s <==> forall i :: 0 <= i < |s| && IsBoundary(s[i]) ==> s[i] == '\n'
  {
    if Normal(s) == s {
      forall i | 0 <= i < |s| && IsBoundary(s[i]) ensures s[i] == '\n' {
        assert Normal(s)[i] == '\n';
      }
    }
  }

  // ----- UTF-8 length -----

  function CharBytes(c: char): nat {
    var n := c as int;
    if n < 0x80 then 1 else if n < 0x800 then 2 else if n < 0x1_0000 then 3 else 4
  }

  /** The length of s encoded in UTF-8. */
  function Utf8Length(s: string): nat {
    if s == "" then 0 else CharBytes(s[0]) + Utf8Length(s[1..])
  }

  lemma {:induction false} Utf8LengthAppend(a: string, b: string)
    ensures Utf8Length(a + b) == Utf8Length(a) + Utf8Length(b)
  {
    if a == "" {
      assert a + b == b;
    } else {
      Utf8LengthAppend(a[1..], b);
      assert (a + b)[1..] == a[1..] + b;
    }
  }

  lemma {:induction false} Utf8LengthOfNormal(s: string)
    ensures |s| <= Utf8Length(s) && Utf8Length(Normal(s)) <= Utf8Length(s)
  {
    if s != "" {
      Utf8LengthOfNormal(s[1..]);
      assert Normal(s)[1..] == Normal(s[1..]);
    }
  }

  // ----- decimal numerals -----

  /** The latest digit zero of Unicode 15.1 at or before code point n; nine more digits follow each. */
  function ZeroBefore(n: int): int {
    if n < 0x660 then 0x30 else if n < 0x6F0 then 0x660 else if n < 0x7C0 then 0x6F0 else
    if n < 0x966 then 0x7C0 else if n < 0x9E6 then 0x966 else if n < 0xA66 then 0x9E6 else
    if n < 0xAE6 then 0xA66 else if n < 0xB66 then 0xAE6 else if n < 0xBE6 then 0xB66 else
    if n < 0xC66 then 0xBE6 else if n < 0xCE6 then 0xC66 else if n < 0xD66 then 0xCE6 else
    if n < 0xDE6 then 0xD66 else if n < 0xE50 then 0xDE6 else if n < 0xED0 then 0xE50 else
    if n < 0xF20 then 0xED0 else if n < 0x1040 then 0xF20 else if n < 0x1090 then 0x1040 else
    if n < 0x17E0 then 0x1090 else if n < 0x1810 then 0x17E0 else if n < 0x1946 then 0x1810 else
    if n < 0x19D0 then 0x1946 else if n < 0x1A80 then 0x19D0 else if n < 0x1A90 then 0x1A80 else
    if n < 0x1B50 then 0x1A90 else if n < 0x1BB0 then 0x1B50 else if n < 0x1C40 then 0x1BB0 else
    if n < 0x1C50 then 0x1C40 else if n < 0xA620 then 0x1C50 else if n < 0xA8D0 then 0xA620 else
    if n < 0xA900 then 0xA8D0 else if n < 0xA9D0 then 0xA900 else if n < 0xA9F0 then 0xA9D0 else
    if n < 0xAA50 then 0xA9F0 else if n < 0xABF0 then 0xAA50 else if n < 0xFF10 then 0xABF0 else
    if n < 0x104A0 then 0xFF10 else if n < 0x10D30 then 0x104A0 else if n < 0x11066 then 0x10D30 else
    if n < 0x110F0 then 0x11066 else if n < 0x11136 then 0x110F0 else if n < 0x111D0 then 0x11136 else
    if n < 0x112F0 then 0x111D0 else if n < 0x11450 then 0x112F0 else if n < 0x114D0 then 0x11450 else
    if n < 0x11650 then 0x114D0 else if n < 0x116C0 then 0x11650 else if n < 0x11730 then 0x116C0 else
    if n < 0x118E0 then 0x11730 else if n < 0x11950 then 0x118E0 else if n < 0x11C50 then 0x11950 else
    if n < 0x11D50 then 0x11C50 else if n < 0x11DA0 then 0x11D50 else if n < 0x11F50 then 0x11DA0 else
    if n < 0x16A60 then 0x11F50 else if n < 0x16AC0 then 0x16A60 else if n < 0x16B50 then 0x16AC0 else
    if n < 0x1D7CE then 0x16B50 else if n < 0x1D7D8 then 0x1D7CE else if n < 0x1D7E2 then 0x1D7D8 else
    if n < 0x1D7EC then 0x1D7E2 else if n < 0x1D7F6 then 0x1D7EC else if n < 0x1E140 then 0x1D7F6 else
    if n < 0x1E2F0 then 0x1E140 else if n < 0x1E4F0 then 0x1E2F0 else if n < 0x1E950 then 0x1E4F0 else
    if n < 0x1FBF0 then 0x1E950 else
    0x1FBF0
  }

  /** What `\d` matches: a decimal digit of any script. */
  predicate IsDigit(c: char) {
    var n := c as int;
    ZeroBefore(n) <= n <= ZeroBefore(n) + 9
  }

  function DigitValue(c: char): (d: nat)
    requires IsDigit(c)
    ensures d <= 9
  {
    c as int - ZeroBefore(c as int)
  }

  /** A nonempty run of digits. */
  predicate Numeral(s: string) {
    s != "" && forall i :: 0 <= i < |s| ==> IsDigit(s[i])
  }

  /** `int(s)`. */
  function Number(s: string): nat
    requires Numeral(s)
  {
    if |s| == 1 then DigitValue(s[0]) else 10 * Number(s[..|s| - 1]) + DigitValue(s[|s| - 1])
  }

  /** The shortest ASCII numeral of n. */
  function Decimal(n: nat): string {
    var digit := ('0' as int + n % 10) as char;
    if n < 10 then [digit] else Decimal(n / 10) + [digit]
  }

  lemma {:induction false} DecimalRoundTrip(n: nat)
    ensures Numeral(Decimal(n)) && Number(Decimal(n)) == n
  {
    var digit := ('0' as int + n % 10) as char;
    assert IsDigit(digit) && DigitValue(digit) == n % 10;
    if n >= 10 {
      DecimalRoundTrip(n / 10);
      assert Decimal(n)[..|Decimal(n)| - 1] == Decimal(n / 10);
    }
  }
}
