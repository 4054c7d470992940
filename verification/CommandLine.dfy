/**
 Quoting one Windows command-line argument, against the published parsing rules: 2n backslashes before
 a double quote are n backslashes and a delimiter, 2n+1 are n backslashes and a literal quote, other
 backslashes are literal, and unquoted spaces and tabs separate arguments. `doubled` selects the later
 rule by which a quote pair inside a quoted part is one literal quote; every result holds either way.
 */
module CommandLine {

  function Slashes(n: nat): (s: string)
    ensures |s| == n && forall i :: 0 <= i < n ==> s[i] == '\\'
  {
    seq(n, _ => '\\')
  }

  predicate IsSpace(c: char) {
    c == ' ' || c == '\t'
  }

  // ---------------------------------------------------------------- the parser

  function Leading(s: string): (n: nat)
    ensures n <= |s| && s[..n] == Slashes(n)
    ensures n < |s| ==> s[n] != '\\'
  {
    if s == [] || s[0] != '\\' then 0 else 1 + Leading(s[1..])
  }

  function Prefix(text: string, parsed: (string, string)): (string, string) {
    (text + parsed.0, parsed.1)
  }

  // The rest of one argument and what follows it.
  function ParseArgument(s: string, quoted: bool, doubled: bool): (parsed: (string, string))
    ensures |parsed.1| <= |s|
    ensures s != [] && !IsSpace(s[0]) ==> |parsed.1| < |s|
    decreases |s|
  {
    var n := Leading(s);
    var t := s[n..];
    if t != [] && t[0] == '"' then
      if n % 2 == 1 then Prefix(Slashes(n / 2) + "\"", ParseArgument(t[1..], quoted, doubled))
      else if quoted && doubled && |t| > 1 && t[1] == '"' then
        Prefix(Slashes(n / 2) + "\"", ParseArgument(t[2..], quoted, doubled))
      else Prefix(Slashes(n / 2), ParseArgument(t[1..], !quoted, doubled))
    else if n > 0 then Prefix(Slashes(n), ParseArgument(t, quoted, doubled))
    else if s == [] then ("", "")
    else if !quoted && IsSpace(s[0]) then ("", s)
    else Prefix([s[0]], ParseArgument(s[1..], quoted, doubled))
  }

  function ParseArguments(s: string, doubled: bool): seq<string>
    decreases |s|
  {
    if s == [] then []
    else if IsSpace(s[0]) then ParseArguments(s[1..], doubled)
    else
      var (argument, rest) := ParseArgument(s, false, doubled);
      [argument] + ParseArguments(rest, doubled)
  }

  function UpTo(s: string, stop: char -> bool): nat
    ensures UpTo(s, stop) <= |s|
  {
    if s == [] || stop(s[0]) then 0 else 1 + UpTo(s[1..], stop)
  }

  // The program name has its own rule: a quoted one ends at the next quote, and nothing is escaped.
  function ParseProgram(s: string): (string, string) {
    if s != [] && s[0] == '"' then
      var n := UpTo(s[1..], c => c == '"');
      (s[1..n + 1], if n + 2 <= |s| then s[n + 2..] else "")
    else
      var n := UpTo(s, IsSpace);
      (s[..n], s[n..])
  }

  // The C runtime's own reading of that rule: quotes are dropped and toggle quoting until an unquoted space.
  function ParseToggling(s: string, quoted: bool): (string, string) {
    if s == [] then ("", "")
    else if s[0] == '"' then ParseToggling(s[1..], !quoted)
    else if !quoted && IsSpace(s[0]) then ("", s)
    else Prefix([s[0]], ParseToggling(s[1..], quoted))
  }

  function ParseName(s: string, toggles: bool): (string, string) {
    if toggles then ParseToggling(s, false) else ParseProgram(s)
  }

  // ---------------------------------------------------------------- the quoting

  // What is still to be written for `v` when `n` backslashes are being held back.
  function Escaped(v: string, n: nat): string {
    if v == [] then Slashes(2 * n)
    else if v[0] == '\\' then Escaped(v[1..], n + 1)
    else if v[0] == '"' then Slashes(2 * n + 1) + "\"" + Escaped(v[1..], 0)
    else Slashes(n) + [v[0]] + Escaped(v[1..], 0)
  }

  function Quoted(v: string): string {
    "\"" + Escaped(v, 0) + "\""
  }

  method Quote(value: string) returns (quoted: string)
    ensures quoted == Quoted(value)
  {
    quoted := "\"";
    var slashes := 0;
    for i := 0 to |value|
      invariant quoted + Escaped(value[i..], slashes) == "\"" + Escaped(value, 0)
    {
      var current := value[i];
      assert value[i..][1..] == value[i + 1..];
      if current == '\\' {
        slashes := slashes + 1;
      } else if current == '"' {
        quoted := quoted + Slashes(slashes * 2 + 1) + "\"";
        slashes := 0;
      } else {
        quoted := quoted + Slashes(slashes) + [current];
        slashes := 0;
      }
    }
    quoted := quoted + Slashes(slashes * 2) + "\"";
  }

  function CommandLineOf(fileName: string, arguments: string): string {
    Quoted(fileName) + (if arguments == [] then "" else " " + arguments)
  }

  // ---------------------------------------------------------------- the round trip

  predicate Delimited(tail: string) {
    tail == [] || IsSpace(tail[0])
  }

  lemma {:induction false} LeadingOf(n: nat, t: string)
    requires t == [] || t[0] != '\\'
    ensures Leading(Slashes(n) + t) == n && (Slashes(n) + t)[n..] == t
  {
    assert (Slashes(n) + t)[n..] == t;
    if n > 0 {
      assert (Slashes(n) + t)[1..] == Slashes(n - 1) + t;
      LeadingOf(n - 1, t);
    } else {
      assert Slashes(0) + t == t;
    }
  }

  lemma SlashesAdd(a: nat, b: nat)
    ensures Slashes(a) + Slashes(b) == Slashes(a + b)
  {
  }

  // The published rule for backslashes in front of a double quote.
  lemma ParseQuote(n: nat, t: string, quoted: bool, doubled: bool)
    requires n % 2 == 1 || !quoted || !doubled || t == [] || t[0] != '"'
    ensures ParseArgument(Slashes(n) + "\"" + t, quoted, doubled) ==
            if n % 2 == 1 then Prefix(Slashes(n / 2) + "\"", ParseArgument(t, quoted, doubled))
            else Prefix(Slashes(n / 2), ParseArgument(t, !quoted, doubled))
  {
    var s := Slashes(n) + "\"" + t;
    assert s == Slashes(n) + ("\"" + t);
    LeadingOf(n, "\"" + t);
    assert ("\"" + t)[1..] == t;
  }

  lemma Assoc(a: string, b: string, c: string)
    ensures (a + b) + c == a + (b + c)
  {
  }

  lemma ParseChar(c: char, t: string, doubled: bool)
    requires c != '\\' && c != '"'
    ensures ParseArgument([c] + t, true, doubled) == Prefix([c], ParseArgument(t, true, doubled))
  {
    var s := [c] + t;
    assert Leading(s) == 0 && s[0..] == s && s[1..] == t;
  }

  lemma ParseSlashes(n: nat, s: string, doubled: bool)
    requires n > 0 && s != [] && s[0] != '\\' && s[0] != '"'
    ensures ParseArgument(Slashes(n) + s, true, doubled) == Prefix(Slashes(n), ParseArgument(s, true, doubled))
  {
    LeadingOf(n, s);
  }

  lemma ParsePlain(n: nat, c: char, t: string, doubled: bool)
    requires c != '\\' && c != '"'
    ensures ParseArgument(Slashes(n) + ([c] + t), true, doubled)
            == (Slashes(n) + ([c] + ParseArgument(t, true, doubled).0), ParseArgument(t, true, doubled).1)
  {
    ParseChar(c, t, doubled);
    if n == 0 {
      assert Slashes(0) + ([c] + t) == [c] + t;
      assert Slashes(0) + ([c] + ParseArgument(t, true, doubled).0) == [c] + ParseArgument(t, true, doubled).0;
    } else {
      ParseSlashes(n, [c] + t, doubled);
    }
  }

  lemma ParseDelimited(tail: string, doubled: bool)
    requires Delimited(tail)
    ensures ParseArgument(tail, false, doubled) == ("", tail)
  {
  }

  predicate Parses(v: string, n: nat, tail: string, doubled: bool) {
    ParseArgument(Escaped(v, n) + "\"" + tail, true, doubled) == (Slashes(n) + v, tail)
  }

  lemma ParsesEmpty(n: nat, tail: string, doubled: bool)
    requires Delimited(tail)
    ensures Parses("", n, tail, doubled)
  {
    ParseQuote(2 * n, tail, true, doubled);
    ParseDelimited(tail, doubled);
  }

  lemma ParsesSlash(rest: string, n: nat, tail: string, doubled: bool)
    requires Parses(rest, n + 1, tail, doubled)
    ensures Parses("\\" + rest, n, tail, doubled)
  {
    var v := "\\" + rest;
    assert v[1..] == rest;
    assert Slashes(n + 1) + rest == Slashes(n) + v;
  }

  lemma EscapedQuoteText(rest: string, n: nat, tail: string)
    ensures Escaped("\"" + rest, n) + "\"" + tail == Slashes(2 * n + 1) + "\"" + (Escaped(rest, 0) + "\"" + tail)
  {
    var v, head, inner := "\"" + rest, Slashes(2 * n + 1) + "\"", Escaped(rest, 0);
    assert v[1..] == rest;
    assert Escaped(v, n) == head + inner;
    Assoc(head, inner, "\"");
    Assoc(head, inner + "\"", tail);
  }

  lemma ParseLiteralQuote(n: nat, t: string, doubled: bool)
    ensures ParseArgument(Slashes(2 * n + 1) + "\"" + t, true, doubled)
            == Prefix(Slashes(n) + "\"", ParseArgument(t, true, doubled))
  {
    assert (2 * n + 1) % 2 == 1 && (2 * n + 1) / 2 == n;
    ParseQuote(2 * n + 1, t, true, doubled);
  }

  lemma ParsesQuote(rest: string, n: nat, tail: string, doubled: bool)
    requires Parses(rest, 0, tail, doubled)
    ensures Parses("\"" + rest, n, tail, doubled)
  {
    var t := Escaped(rest, 0) + "\"" + tail;
    var parsed := ParseArgument(t, true, doubled);
    assert parsed == (rest, tail) by {
      assert Slashes(0) + rest == rest;
    }
    EscapedQuoteText(rest, n, tail);
    ParseLiteralQuote(n, t, doubled);
    assert Prefix(Slashes(n) + "\"", parsed) == (Slashes(n) + ("\"" + rest), tail) by {
      Assoc(Slashes(n), "\"", rest);
    }
  }

  lemma ParsesPlain(c: char, rest: string, n: nat, tail: string, doubled: bool)
    requires c != '\\' && c != '"' && Parses(rest, 0, tail, doubled)
    ensures Parses([c] + rest, n, tail, doubled)
  {
    var v, t := [c] + rest, Escaped(rest, 0) + "\"" + tail;
    assert v[1..] == rest && Slashes(0) + rest == rest;
    assert Escaped(v, n) + "\"" + tail == Slashes(n) + ([c] + t);
    ParsePlain(n, c, t, doubled);
  }

  // Inside the quotes the parser gives back the held backslashes and the value, and stops at the tail.
  lemma {:induction false} EscapedParses(v: string, n: nat, tail: string, doubled: bool)
    requires Delimited(tail)
    ensures Parses(v, n, tail, doubled)
    decreases |v|
  {
    if v == [] {
      ParsesEmpty(n, tail, doubled);
    } else {
      assert v == [v[0]] + v[1..];
      if v[0] == '\\' {
        EscapedParses(v[1..], n + 1, tail, doubled);
        ParsesSlash(v[1..], n, tail, doubled);
      } else {
        EscapedParses(v[1..], 0, tail, doubled);
        if v[0] == '"' {
          ParsesQuote(v[1..], n, tail, doubled);
        } else {
          ParsesPlain(v[0], v[1..], n, tail, doubled);
        }
      }
    }
  }

  // Every string survives: the parser gives back exactly the value, and stops exactly where the quoted
  // text ends, whatever delimited text follows.
  lemma QuoteRoundTrip(v: string, tail: string, doubled: bool)
    requires Delimited(tail)
    ensures ParseArgument(Quoted(v) + tail, false, doubled) == (v, tail)
  {
    var inner := Escaped(v, 0) + "\"" + tail;
    assert Quoted(v) + tail == Slashes(0) + "\"" + inner;
    ParseQuote(0, inner, false, doubled);
    EscapedParses(v, 0, tail, doubled);
    assert Slashes(0) + (Slashes(0) + v) == v;
  }

  function JoinQuoted(arguments: seq<string>): string {
    if arguments == [] then ""
    else if |arguments| == 1 then Quoted(arguments[0])
    else Quoted(arguments[0]) + " " + JoinQuoted(arguments[1..])
  }

  // A quoted argument is self-delimiting in front of any further text.
  lemma QuotedComesFirst(v: string, more: string, doubled: bool)
    ensures ParseArguments(CommandLineOf(v, more), doubled) == [v] + ParseArguments(more, doubled)
  {
    var tail := if more == [] then "" else " " + more;
    QuoteRoundTrip(v, tail, doubled);
    var line := Quoted(v) + tail;
    assert line[0] == '"';
    if more != [] {
      assert tail[1..] == more;
    }
  }

  // Whole command lines: quoting and joining any arguments parses back to those arguments.
  lemma {:induction false} ArgumentsRoundTrip(arguments: seq<string>, doubled: bool)
    ensures ParseArguments(JoinQuoted(arguments), doubled) == arguments
  {
    if |arguments| == 1 {
      QuotedComesFirst(arguments[0], "", doubled);
      assert CommandLineOf(arguments[0], "") == Quoted(arguments[0]) + "";
      assert Quoted(arguments[0]) + "" == Quoted(arguments[0]);
    } else if arguments != [] {
      ArgumentsRoundTrip(arguments[1..], doubled);
      var more := JoinQuoted(arguments[1..]);
      assert more[0] == '"';
      assert JoinQuoted(arguments) == CommandLineOf(arguments[0], more) by {
        assert Quoted(arguments[0]) + (" " + more) == Quoted(arguments[0]) + " " + more;
      }
      QuotedComesFirst(arguments[0], more, doubled);
    }
  }

  // ---------------------------------------------------------------- the program name

  predicate ProgramSafe(v: string) {
    '"' !in v && (v == [] || v[|v| - 1] != '\\')
  }

  // The backslashes at the end of a text.
  function Trailing(v: string): nat {
    if v == [] || v[|v| - 1] != '\\' then 0 else 1 + Trailing(v[..|v| - 1])
  }

  lemma Regroup(before: string, c: char, rest: string, after: string)
    ensures before + [c] + rest == before + ([c] + rest)
    ensures before + [c] + (rest + after) == before + ([c] + rest) + after
  {
  }

  // Without quotes to escape, quoting only doubles the backslashes at the end.
  lemma {:induction false} EscapedWithoutQuotes(v: string, n: nat)
    requires '"' !in v
    ensures Escaped(v, n) == Slashes(n) + v + Slashes(Trailing(Slashes(n) + v))
    decreases |v|
  {
    if v == [] {
      TrailingSlashes(n);
      SlashesAdd(n, n);
      assert Slashes(n) + v == Slashes(n);
    } else {
      var rest := v[1..];
      assert v == [v[0]] + rest;
      if v[0] == '\\' {
        EscapedWithoutQuotes(rest, n + 1);
        assert Slashes(n + 1) + rest == Slashes(n) + v;
      } else {
        EscapedWithoutQuotes(rest, 0);
        assert Slashes(0) + rest == rest;
        TrailingAfter(Slashes(n), v[0], rest);
        Regroup(Slashes(n), v[0], rest, Slashes(Trailing(rest)));
      }
    }
  }

  lemma {:induction false} TrailingSlashes(n: nat)
    ensures Trailing(Slashes(n)) == n
  {
    if n > 0 {
      assert Slashes(n)[..n - 1] == Slashes(n - 1);
      TrailingSlashes(n - 1);
    }
  }

  lemma {:induction false} TrailingAfter(before: string, c: char, rest: string)
    requires c != '\\'
    ensures Trailing(before + [c] + rest) == Trailing(rest)
  {
    var s := before + [c] + rest;
    if rest == [] {
      assert s[|s| - 1] == c;
    } else {
      assert s[|s| - 1] == rest[|rest| - 1];
      assert s[..|s| - 1] == before + [c] + rest[..|rest| - 1];
      TrailingAfter(before, c, rest[..|rest| - 1]);
    }
  }

  lemma {:induction false} UpToQuote(text: string, tail: string)
    requires '"' !in text
    ensures UpTo(text + "\"" + tail, c => c == '"') == |text|
  {
    if text != [] {
      assert (text + "\"" + tail)[1..] == text[1..] + "\"" + tail;
      UpToQuote(text[1..], tail);
    }
  }

  lemma {:induction false} UpToHasNoQuote(s: string)
    ensures '"' !in s[..UpTo(s, c => c == '"')]
  {
    if s != [] && s[0] != '"' {
      UpToHasNoQuote(s[1..]);
      var n := UpTo(s[1..], c => c == '"');
      assert s[..n + 1] == [s[0]] + s[1..][..n];
    }
  }

  lemma ProgramText(text: string, tail: string)
    requires '"' !in text
    ensures ParseProgram("\"" + text + "\"" + tail) == (text, tail)
  {
    var line := "\"" + text + "\"" + tail;
    assert line[1..] == text + "\"" + tail;
    UpToQuote(text, tail);
    assert line[1..|text| + 1] == text;
    assert line[|text| + 2..] == tail;
  }

  lemma ProgramWithoutQuote(v: string, tail: string)
    requires '"' !in v
    ensures ParseProgram(Quoted(v) + tail) == (v + Slashes(Trailing(v)), tail)
  {
    EscapedWithoutQuotes(v, 0);
    assert Slashes(0) + v == v;
    ProgramText(v + Slashes(Trailing(v)), tail);
  }

  lemma ProgramWithQuote(v: string, tail: string)
    requires '"' in v
    ensures ParseProgram(Quoted(v) + tail).0 != v
  {
    var line := Quoted(v) + tail;
    var n := UpTo(line[1..], c => c == '"');
    UpToHasNoQuote(line[1..]);
    assert line[1..n + 1] == line[1..][..n];
    assert '"' !in line[1..n + 1];
  }

  lemma ProgramEndsAtQuote(v: string, tail: string)
    ensures ParseProgram(Quoted(v) + tail) == (v, tail) <==> ProgramSafe(v)
  {
    if '"' !in v {
      ProgramWithoutQuote(v, tail);
      assert Trailing(v) == 0 ==> v + Slashes(Trailing(v)) == v;
      assert |v + Slashes(Trailing(v))| == |v| + Trailing(v);
    } else {
      ProgramWithQuote(v, tail);
    }
  }

  lemma {:induction false} TogglingText(text: string, tail: string)
    requires '"' !in text && Delimited(tail)
    ensures ParseToggling(text + "\"" + tail, true) == (text, tail)
  {
    if text == [] {
      assert (text + "\"" + tail)[1..] == tail;
    } else {
      assert (text + "\"" + tail)[1..] == text[1..] + "\"" + tail;
      TogglingText(text[1..], tail);
      assert text[0] in text && [text[0]] + text[1..] == text;
    }
  }

  lemma {:induction false} TogglingHasNoQuote(s: string, quoted: bool)
    ensures '"' !in ParseToggling(s, quoted).0
  {
    if s != [] {
      TogglingHasNoQuote(s[1..], if s[0] == '"' then !quoted else quoted);
    }
  }

  lemma ProgramToggles(v: string, tail: string)
    requires Delimited(tail)
    ensures ParseToggling(Quoted(v) + tail, false) == (v, tail) <==> ProgramSafe(v)
  {
    var line := Quoted(v) + tail;
    assert line[1..] == Escaped(v, 0) + "\"" + tail;
    TogglingHasNoQuote(line, false);
    if '"' !in v {
      EscapedWithoutQuotes(v, 0);
      assert Slashes(0) + v == v;
      assert Escaped(v, 0) == v + Slashes(Trailing(v));
      TogglingText(Escaped(v, 0), tail);
      if Trailing(v) == 0 {
        assert Escaped(v, 0) == v;
      } else {
        assert |Escaped(v, 0)| > |v|;
      }
    }
  }

  // Under both readings the program name comes back exactly when it has no double quote and no trailing
  // backslash.
  lemma ProgramRoundTrip(v: string, tail: string, toggles: bool)
    requires Delimited(tail)
    ensures ParseName(Quoted(v) + tail, toggles) == (v, tail) <==> ProgramSafe(v)
  {
    if toggles {
      ProgramToggles(v, tail);
    } else {
      ProgramEndsAtQuote(v, tail);
    }
  }

  // A program named by a directory with its separator is read back with the separator doubled.
  lemma TrailingBackslashIsDoubled(toggles: bool)
    ensures ParseName(Quoted("C:\\"), toggles) == ("C:\\\\", "")
  {
    var v := "C:\\";
    assert v[..2] == "C:" && Trailing("C:") == 0 && Trailing(v) == 1;
    EscapedWithoutQuotes(v, 0);
    assert Slashes(0) + v == v;
    assert Escaped(v, 0) == v + Slashes(1) == "C:\\\\";
    var line := Quoted(v);
    assert line == line + "";
    assert line[1..] == Escaped(v, 0) + "\"" + "";
    if toggles {
      TogglingText(Escaped(v, 0), "");
    } else {
      UpToQuote(Escaped(v, 0), "");
      assert line[1..|Escaped(v, 0)| + 1] == Escaped(v, 0);
    }
  }

  // The command line handed to the system: an argument parser finds the program and then the given
  // arguments; the program name itself is found exactly when it is safe.
  method BuildCommandLine(fileName: string, arguments: string) returns (line: string)
    ensures line == CommandLineOf(fileName, arguments)
    ensures forall doubled :: ParseArguments(line, doubled) == [fileName] + ParseArguments(arguments, doubled)
    ensures forall toggles ::
              ParseName(line, toggles) == (fileName, if arguments == [] then "" else " " + arguments)
              <==> ProgramSafe(fileName)
  {
    var quoted := Quote(fileName);
    line := quoted + (if |arguments| == 0 then "" else " " + arguments);
    QuotedComesFirst(fileName, arguments, true);
    QuotedComesFirst(fileName, arguments, false);
    ProgramRoundTrip(fileName, if arguments == [] then "" else " " + arguments, true);
    ProgramRoundTrip(fileName, if arguments == [] then "" else " " + arguments, false);
  }
}
