/**
 The text of a cap sidecar file (api/jobs.go): one line per finished drop,
 "<dropped> <newlines> <kept from> <ends with newline>".
 */
module CapText {
  import opened Options
  import opened Decimal

  const INT64 := 0x8000_0000_0000_0000

  // What one line records about a stream's dropped front. A line written
  // before the flag existed does not say how the front ended.
  datatype Counters = Counters(dropped: nat, newlines: nat, ends: Option<bool>)

  // unicode.IsSpace.
  predicate IsSpace(c: char) {
    || '\t' <= c <= '\r' || c == ' ' || c == '\U{0085}' || c == '\U{00A0}' || c == '\U{1680}'
    || '\U{2000}' <= c <= '\U{200a}' || c == '\U{2028}' || c == '\U{2029}' || c == '\U{202f}'
    || c == '\U{205f}' || c == '\U{3000}'
  }

  // The characters with the Unicode White_Space property.
  const SPACES :=
    {'\t', '\n', '\U{000B}', '\U{000C}', '\r', ' ', '\U{0085}', '\U{00A0}', '\U{1680}', '\U{2000}', '\U{2001}',
     '\U{2002}', '\U{2003}', '\U{2004}', '\U{2005}', '\U{2006}', '\U{2007}', '\U{2008}', '\U{2009}', '\U{200A}',
     '\U{2028}', '\U{2029}', '\U{202F}', '\U{205F}', '\U{3000}'}

  lemma SpacesAre(c: char)
    ensures IsSpace(c) <==> c in SPACES
  {
    var n := c as int;
    if 9 <= n <= 13 || 0x2000 <= n <= 0x200A { assert c == n as char; }
  }

  predicate IsWord(s: string) {
    s != "" && forall i :: 0 <= i < |s| ==> !IsSpace(s[i])
  }

  // How many characters at the front are not white space.
  function WordLength(s: string): (n: nat)
    ensures n <= |s| && (forall i :: 0 <= i < n ==> !IsSpace(s[i])) && (n < |s| ==> IsSpace(s[n]))
  {
    if s == "" || IsSpace(s[0]) then 0 else 1 + WordLength(s[1..])
  }

  // strings.Fields.
  function Fields(s: string): seq<string> {
    if s == "" then []
    else if IsSpace(s[0]) then Fields(s[1..])
    else [s[..WordLength(s)]] + Fields(s[WordLength(s)..])
  }

  lemma FirstField(w: string, rest: string)
    requires IsWord(w)
    ensures Fields(w + " " + rest) == [w] + Fields(rest)
    ensures Fields(w) == [w]
  {
    var s := w + " " + rest;
    assert s[|w|] == ' ' && forall i :: 0 <= i < |w| ==> s[i] == w[i];
    assert WordLength(s) == |w| && s[..|w|] == w && s[|w|..] == " " + rest;
    assert (" " + rest)[1..] == rest;
    assert WordLength(w) == |w| && w[..|w|] == w && w[|w|..] == "";
  }

  lemma FourFields(a: string, b: string, c: string, d: string)
    requires IsWord(a) && IsWord(b) && IsWord(c) && IsWord(d)
    ensures Fields(a + " " + (b + " " + (c + " " + d))) == [a, b, c, d]
  {
    FirstField(d, "");
    FirstField(c, d);
    FirstField(b, c + " " + d);
    FirstField(a, b + " " + (c + " " + d));
  }

  function Flag(ends: bool): string { if ends then "1" else "0" }

  // jobCapLine without its newline.
  function CapLine(dropped: nat, newlines: nat, keptFrom: nat, ends: bool): string {
    Print(dropped) + " " + (Print(newlines) + " " + (Print(keptFrom) + " " + Flag(ends)))
  }

  // jobCapSidecarOf2.
  function ParseLine(line: string): Option<Counters> {
    var f := Fields(line);
    if |f| != 3 && |f| != 4 then None
    else
      var a, b, k := ParseInt(f[0], INT64), ParseInt(f[1], INT64), ParseInt(f[2], INT64);
      if a == None || b == None || k == None || a.value < 0 || b.value < 0 then None
      else if |f| == 3 then Some(Counters(a.value, b.value, None))
      else if f[3] == "0" || f[3] == "1" then Some(Counters(a.value, b.value, Some(f[3] == "1")))
      else None
  }

  // Every line for counters of the record's width parses back to itself.
  lemma LineRoundTrip(dropped: nat, newlines: nat, keptFrom: nat, ends: bool)
    requires dropped < INT64 && newlines < INT64 && keptFrom < INT64
    ensures ParseLine(CapLine(dropped, newlines, keptFrom, ends)) == Some(Counters(dropped, newlines, Some(ends)))
  {
    DigitsAreAWord(Print(dropped));
    DigitsAreAWord(Print(newlines));
    DigitsAreAWord(Print(keptFrom));
    FourFields(Print(dropped), Print(newlines), Print(keptFrom), Flag(ends));
    ParseOfPrint(dropped, INT64);
    ParseOfPrint(newlines, INT64);
    ParseOfPrint(keptFrom, INT64);
  }

  lemma ThreeFields(a: string, b: string, c: string)
    requires IsWord(a) && IsWord(b) && IsWord(c)
    ensures Fields(a + " " + (b + " " + c)) == [a, b, c]
  {
    FirstField(c, "");
    FirstField(b, c);
    FirstField(a, b + " " + c);
  }

  // A line from before the flag parses too, and does not say how the front
  // ended; a line with any other fourth word, or with a negative counter, does
  // not parse.
  lemma OldAndOddLines(dropped: nat, newlines: nat, keptFrom: nat, odd: string)
    requires dropped < INT64 && newlines < INT64 && keptFrom < INT64 && IsWord(odd) && odd != "0" && odd != "1"
    ensures ParseLine(Print(dropped) + " " + (Print(newlines) + " " + Print(keptFrom))) ==
            Some(Counters(dropped, newlines, None))
    ensures ParseLine(Print(dropped) + " " + (Print(newlines) + " " + (Print(keptFrom) + " " + odd))) == None
    ensures 0 < dropped ==> ParseLine("-" + Print(dropped) + " " + (Print(newlines) + " " + Print(keptFrom))) == None
    ensures 0 < newlines ==> ParseLine(Print(dropped) + " " + ("-" + Print(newlines) + " " + Print(keptFrom))) == None
  {
    var a, b, c := Print(dropped), Print(newlines), Print(keptFrom);
    DigitsAreAWord(a);
    DigitsAreAWord(b);
    DigitsAreAWord(c);
    ThreeFields(a, b, c);
    FourFields(a, b, c, odd);
    ThreeFields("-" + a, b, c);
    ThreeFields(a, "-" + b, c);
    ParseOfPrint(dropped, INT64);
    ParseOfPrint(newlines, INT64);
    ParseOfPrint(keptFrom, INT64);
    ParseOfSigned(dropped, INT64);
    ParseOfSigned(newlines, INT64);
  }

  // Nor does a line of fewer or more words.
  lemma OtherLengths(line: string)
    requires |Fields(line)| != 3 && |Fields(line)| != 4
    ensures ParseLine(line) == None
  {
  }

  lemma DigitsAreAWord(s: string)
    requires s != "" && AllDigits(s)
    ensures IsWord(s)
  {
    assert forall c :: IsDigit(c) ==> !IsSpace(c);
  }

  // --- The file ---

  function TrimNewlines(s: string): string {
    if s != "" && s[|s| - 1] == '\n' then TrimNewlines(s[..|s| - 1]) else s
  }

  // What follows the last newline: the last element of a split on it.
  function LastLine(s: string): string {
    if s == "" || s[|s| - 1] == '\n' then "" else LastLine(s[..|s| - 1]) + [s[|s| - 1]]
  }

  // jobCapSidecarOf on the bytes of the file ("" when it is missing).
  function ParseFile(data: string): Option<Counters> {
    if data == "" || data[|data| - 1] != '\n' then None else ParseLine(LastLine(TrimNewlines(data)))
  }

  predicate WholeLines(data: string) {
    data == "" || data[|data| - 1] == '\n'
  }

  lemma {:induction false} LastLineOf(pre: string, line: string)
    requires WholeLines(pre) && '\n' !in line
    ensures LastLine(pre + line) == line
  {
    var s := pre + line;
    if line == "" {
      assert s == pre;
    } else {
      assert s[..|s| - 1] == pre + line[..|line| - 1];
      LastLineOf(pre, line[..|line| - 1]);
      assert line == line[..|line| - 1] + [line[|line| - 1]];
    }
  }

  // A file whose last line has no newline has no counters, whatever it holds.
  lemma TornTailIsRefused(data: string, tail: char)
    requires tail != '\n'
    ensures ParseFile(data + [tail]) == None && !WholeLines(data + [tail]) && ParseFile("") == None
  {
  }

  lemma NoNewlineInDigits(s: string)
    requires AllDigits(s)
    ensures '\n' !in s
  {
  }

  // Appending a line to a whole-line file makes its counters the file's
  // counters, whatever the file held, and leaves it a whole-line file.
  lemma FileRoundTrip(pre: string, dropped: nat, newlines: nat, keptFrom: nat, ends: bool)
    requires WholeLines(pre) && dropped < INT64 && newlines < INT64 && keptFrom < INT64
    ensures var data := pre + CapLine(dropped, newlines, keptFrom, ends) + "\n";
            WholeLines(data) && ParseFile(data) == Some(Counters(dropped, newlines, Some(ends)))
  {
    var line := CapLine(dropped, newlines, keptFrom, ends);
    var data := pre + line + "\n";
    NoNewlineInDigits(Print(dropped));
    NoNewlineInDigits(Print(newlines));
    NoNewlineInDigits(Print(keptFrom));
    assert '\n' !in line && line != "";
    assert data[..|data| - 1] == pre + line;
    assert (pre + line)[|pre + line| - 1] == line[|line| - 1];
    assert TrimNewlines(data) == pre + line;
    LastLineOf(pre, line);
    LineRoundTrip(dropped, newlines, keptFrom, ends);
  }
}
