/** The portable launcher's command-line printer (build_scripts/PortableLauncher.cs) against the
    parser its child process uses: the rules of "Parsing C command-line arguments" in the
    Microsoft C language reference, which CommandLineToArgvW follows too. */
module CommandLine {

  predicate Blank(c: char) {
    c == ' ' || c == '\t'
  }

  function Slashes(n: nat): (run: string)
    ensures |run| == n && forall i :: 0 <= i < n ==> run[i] == '\\'
  {
    seq(n, _ => '\\')
  }

  // ---------------------------------------------------------------- the parser (Microsoft's rules)

  /** What a quotation mark means right after the one that would close a quoted part. Runtimes
      differ: it reopens a quoted part, or the pair is one literal mark and the quoted part goes
      on, or the pair is one literal mark and the quoted part ends. */
  datatype PairRule = Reopens | LiteralAndStays | LiteralAndEnds

  function LeadingSlashes(s: string): (n: nat)
    ensures n <= |s|
    ensures forall i :: 0 <= i < n ==> s[i] == '\\'
    ensures n < |s| ==> s[n] != '\\'
  {
    if s == "" || s[0] != '\\' then 0 else 1 + LeadingSlashes(s[1..])
  }

  /** One argument from the front of `s`, and the text after it. Backslashes are literal unless a
      quotation mark follows the run: then each pair is one backslash, and an odd one makes the
      mark literal. Any other mark opens or closes a quoted part, in which blanks do not separate. */
  function Token(rule: PairRule, s: string, quoted: bool): (r: (string, string))
    ensures |r.0| + |r.1| <= |s|
    decreases |s|
  {
    if s == "" || (!quoted && Blank(s[0])) then
      ("", s)
    else if s[0] == '\\' then
      var n := LeadingSlashes(s);
      if n == |s| || s[n] != '"' then
        var (word, rest) := Token(rule, s[n..], quoted);
        (Slashes(n) + word, rest)
      else if n % 2 == 0 then
        var (word, rest) := Token(rule, s[n..], quoted);
        (Slashes(n / 2) + word, rest)
      else
        var (word, rest) := Token(rule, s[n + 1..], quoted);
        (Slashes(n / 2) + "\"" + word, rest)
    else if s[0] == '"' then
      if quoted && |s| > 1 && s[1] == '"' && rule != Reopens then
        var (word, rest) := Token(rule, s[2..], rule == LiteralAndStays);
        ("\"" + word, rest)
      else
        Token(rule, s[1..], !quoted)
    else
      var (word, rest) := Token(rule, s[1..], quoted);
      ([s[0]] + word, rest)
  }

  function Parse(rule: PairRule, s: string): (args: seq<string>)
    decreases |s|
  {
    if s == "" then []
    else if Blank(s[0]) then Parse(rule, s[1..])
    else
      var (word, rest) := Token(rule, s, false);
      TokenConsumes(rule, s);
      [word] + Parse(rule, rest)
  }

  lemma TokenConsumes(rule: PairRule, s: string)
    requires s != "" && !Blank(s[0])
    ensures |Token(rule, s, false).1| < |s|
  {
  }

  // ---------------------------------------------------------------- the printer

  predicate NeedsNoQuotes(argument: string) {
    argument != "" && forall i :: 0 <= i < |argument| ==> !Blank(argument[i]) && argument[i] != '"'
  }

  /** The text between the outer marks, when `pending` backslashes are still to be written. */
  function Escaped(argument: string, pending: nat): string {
    if argument == "" then
      Slashes(2 * pending)
    else if argument[0] == '\\' then
      Escaped(argument[1..], pending + 1)
    else if argument[0] == '"' then
      Slashes(2 * pending + 1) + "\"" + Escaped(argument[1..], 0)
    else
      Slashes(pending) + [argument[0]] + Escaped(argument[1..], 0)
  }

  function Quoted(argument: string): (text: string)
    ensures text != ""
  {
    if NeedsNoQuotes(argument) then argument else "\"" + Escaped(argument, 0) + "\""
  }

  function Joined(args: seq<string>): string {
    if args == [] then "" else Quoted(args[0]) + JoinedAfter(args[1..])
  }

  function JoinedAfter(args: seq<string>): string {
    if args == [] then "" else " " + Quoted(args[0]) + JoinedAfter(args[1..])
  }

  /** IndexOfAny(' ', '\t', '"') < 0 on a non-empty argument. */
  method ScanNeedsNoQuotes(argument: string) returns (plain: bool)
    ensures plain == NeedsNoQuotes(argument)
  {
    if argument == "" {
      return false;
    }
    for i := 0 to |argument|
      invariant forall k :: 0 <= k < i ==> !Blank(argument[k]) && argument[k] != '"'
    {
      if Blank(argument[i]) || argument[i] == '"' {
        return false;
      }
    }
    return true;
  }

  method QuoteArgument(argument: string) returns (text: string)
    ensures text == Quoted(argument)
  {
    var plain := ScanNeedsNoQuotes(argument);
    if plain {
      text := argument;
    } else {
      var quoted := "\"";
      var backslashes := 0;
      for i := 0 to |argument|
        invariant backslashes >= 0
        invariant quoted + Escaped(argument[i..], backslashes) == "\"" + Escaped(argument, 0)
      {
        var character := argument[i];
        assert argument[i..][1..] == argument[i + 1..];
        if character == '\\' {
          backslashes := backslashes + 1;
        } else if character == '"' {
          quoted := quoted + Slashes(backslashes * 2 + 1);
          quoted := quoted + "\"";
          backslashes := 0;
        } else {
          quoted := quoted + Slashes(backslashes);
          backslashes := 0;
          quoted := quoted + [character];
        }
      }
      quoted := quoted + Slashes(backslashes * 2);
      quoted := quoted + "\"";
      text := quoted;
    }
  }

  method JoinArguments(args: seq<string>) returns (text: string)
    ensures text == Joined(args)
    ensures forall rule :: Parse(rule, text) == args
  {
    text := "";
    for i := 0 to |args|
      invariant i == 0 ==> text == ""
      invariant i > 0 ==> text != "" && text + JoinedAfter(args[i..]) == Joined(args)
    {
      var before := text;
      if |text| > 0 {
        text := text + " ";
      }
      var quoted := QuoteArgument(args[i]);
      text := text + quoted;
      JoinedStep(args, i, before, text);
    }
    assert text + "" == text;
    forall rule ensures Parse(rule, text) == args {
      RoundTrip(rule, args);
    }
  }

  lemma JoinedStep(args: seq<string>, i: nat, before: string, after: string)
    requires i < |args|
    requires i > 0 ==> before + JoinedAfter(args[i..]) == Joined(args)
    requires after == (if i == 0 then "" else before + " ") + Quoted(args[i])
    ensures after + JoinedAfter(args[i + 1..]) == Joined(args)
  {
    hide Quoted;
    var later := JoinedAfter(args[i + 1..]);
    assert args[i..][1..] == args[i + 1..];
    if i == 0 {
      assert "" + Quoted(args[0]) == Quoted(args[0]);
    } else {
      Regroup(before, " ", Quoted(args[i]));
      Regroup(before, " " + Quoted(args[i]), later);
    }
  }

  // ---------------------------------------------------------------- the round trip

  predicate AtArgumentEnd(rest: string) {
    rest == "" || Blank(rest[0])
  }

  lemma LeadingSlashesOfRun(n: nat, t: string)
    requires t == "" || t[0] != '\\'
    ensures LeadingSlashes(Slashes(n) + t) == n
    ensures (Slashes(n) + t)[n..] == t
  {
  }

  /** A whole run of backslashes in front of `t`, read at once. */
  lemma TokenOfRun(rule: PairRule, n: nat, t: string, quoted: bool)
    requires t == "" || t[0] != '\\'
    ensures var whole := Token(rule, Slashes(n) + t, quoted);
            if t == "" || t[0] != '"' then
              whole == (Slashes(n) + Token(rule, t, quoted).0, Token(rule, t, quoted).1)
            else if n % 2 == 0 then
              whole == (Slashes(n / 2) + Token(rule, t, quoted).0, Token(rule, t, quoted).1)
            else
              whole == (Slashes(n / 2) + "\"" + Token(rule, t[1..], quoted).0, Token(rule, t[1..], quoted).1)
  {
    var s := Slashes(n) + t;
    if n == 0 {
      hide Token;
      assert s == t;
      assert Slashes(0) + Token(rule, t, quoted).0 == Token(rule, t, quoted).0;
    } else {
      LeadingSlashesOfRun(n, t);
      assert s[0] == '\\';
      assert t != "" ==> s[n] == t[0] && s[n + 1..] == t[1..];
    }
  }

  /** An argument printed as it stands is read back as it stands. */
  lemma {:induction false} PlainToken(rule: PairRule, a: string, rest: string)
    requires forall i :: 0 <= i < |a| ==> !Blank(a[i]) && a[i] != '"'
    requires AtArgumentEnd(rest)
    ensures Token(rule, a + rest, false) == (a, rest)
    decreases |a|
  {
    if a == "" {
      assert a + rest == rest;
    } else if a[0] == '\\' {
      var n := LeadingSlashes(a);
      assert a == Slashes(n) + a[n..];
      assert a + rest == Slashes(n) + (a[n..] + rest);
      LeadingSlashesOfRun(n, a[n..] + rest);
      PlainToken(rule, a[n..], rest);
    } else {
      assert (a + rest)[1..] == a[1..] + rest;
      PlainToken(rule, a[1..], rest);
      assert [a[0]] + a[1..] == a;
    }
  }

  /** Inside quotes, what the printer wrote for `pending` backslashes and then `a` reads back as
      exactly that, and the closing mark ends the argument. */
  lemma {:induction false} EscapedToken(rule: PairRule, a: string, pending: nat, rest: string)
    requires AtArgumentEnd(rest)
    ensures Token(rule, Escaped(a, pending) + "\"" + rest, true) == (Slashes(pending) + a, rest)
    decreases |a|
  {
    hide Token;
    if a == "" {
      Regroup(Slashes(2 * pending), "\"", rest);
      TokenOfRun(rule, 2 * pending, "\"" + rest, true);
      ClosingMark(rule, rest);
    } else if a[0] == '\\' {
      EscapedToken(rule, a[1..], pending + 1, rest);
      assert Slashes(pending + 1) + a[1..] == Slashes(pending) + a;
    } else {
      EscapedToken(rule, a[1..], 0, rest);
      EscapedTokenStep(rule, a, pending, Escaped(a[1..], 0) + "\"" + rest, rest);
      var run := if a[0] == '"' then 2 * pending + 1 else pending;
      var inner := Escaped(a[1..], 0);
      Regroup(Slashes(run) + [a[0]] + inner, "\"", rest);
      Regroup(Slashes(run) + [a[0]], inner, "\"" + rest);
      Regroup(Slashes(run), [a[0]], inner + ("\"" + rest));
      Regroup(inner, "\"", rest);
    }
  }

  lemma ClosingMark(rule: PairRule, rest: string)
    requires AtArgumentEnd(rest)
    ensures Token(rule, "\"" + rest, true) == ("", rest)
  {
  }

  lemma OpeningMark(rule: PairRule, t: string)
    ensures Token(rule, "\"" + t, false) == Token(rule, t, true)
  {
  }

  lemma QuotedLiteral(rule: PairRule, c: char, t: string)
    requires c != '\\' && c != '"'
    ensures Token(rule, [c] + t, true) == ([c] + Token(rule, t, true).0, Token(rule, t, true).1)
  {
  }

  lemma EscapedTokenStep(rule: PairRule, a: string, pending: nat, tail: string, rest: string)
    requires a != "" && a[0] != '\\'
    requires Token(rule, tail, true) == (Slashes(0) + a[1..], rest)
    ensures var run := if a[0] == '"' then 2 * pending + 1 else pending;
            Token(rule, Slashes(run) + ([a[0]] + tail), true) == (Slashes(pending) + a, rest)
  {
    hide Token;
    var run := if a[0] == '"' then 2 * pending + 1 else pending;
    var next := [a[0]] + tail;
    assert next[1..] == tail;
    TokenOfRun(rule, run, next, true);
    if a[0] != '"' {
      QuotedLiteral(rule, a[0], tail);
    }
    assert Slashes(0) + a[1..] == a[1..];
    assert [a[0]] + a[1..] == a;
    Regroup(Slashes(pending), [a[0]], a[1..]);
  }

  lemma Regroup(x: string, y: string, z: string)
    ensures (x + y) + z == x + (y + z)
  {
  }

  lemma QuotedToken(rule: PairRule, a: string, rest: string)
    requires AtArgumentEnd(rest)
    ensures Token(rule, Quoted(a) + rest, false) == (a, rest)
    ensures !Blank((Quoted(a) + rest)[0])
  {
    hide Token;
    if NeedsNoQuotes(a) {
      PlainToken(rule, a, rest);
    } else {
      EscapedToken(rule, a, 0, rest);
      Regroup("\"" + Escaped(a, 0), "\"", rest);
      Regroup("\"", Escaped(a, 0), "\"" + rest);
      Regroup(Escaped(a, 0), "\"", rest);
      OpeningMark(rule, Escaped(a, 0) + "\"" + rest);
      assert Slashes(0) + a == a;
    }
  }

  lemma {:induction false} RoundTripAfter(rule: PairRule, args: seq<string>)
    ensures Parse(rule, JoinedAfter(args)) == args
    ensures AtArgumentEnd(JoinedAfter(args))
  {
    if args != [] {
      RoundTripAfter(rule, args[1..]);
      var s := JoinedAfter(args);
      assert s[1..] == Quoted(args[0]) + JoinedAfter(args[1..]);
      QuotedToken(rule, args[0], JoinedAfter(args[1..]));
    }
  }

  /** Whatever the arguments hold, the child process sees exactly the list the launcher was given,
      under every reading of doubled quotation marks. */
  lemma RoundTrip(rule: PairRule, args: seq<string>)
    ensures Parse(rule, Joined(args)) == args
  {
    if args != [] {
      RoundTripAfter(rule, args[1..]);
      QuotedToken(rule, args[0], JoinedAfter(args[1..]));
    }
  }

  /** Two different argument lists never print alike. */
  lemma JoinedIsInjective(xs: seq<string>, ys: seq<string>)
    ensures Joined(xs) == Joined(ys) ==> xs == ys
  {
    RoundTrip(Reopens, xs);
    RoundTrip(Reopens, ys);
  }

  // ---------------------------------------------------------------- quotes only where needed

  /** Every quotation mark that is read costs at least one character of the input. */
  lemma {:induction false} MarksAreLost(rule: PairRule, s: string, quoted: bool, i: nat)
    requires i < |s| && s[i] == '"'
    requires i < |s| - |Token(rule, s, quoted).1|
    ensures |Token(rule, s, quoted).0| + |Token(rule, s, quoted).1| < |s|
    decreases |s|
  {
    if s[0] == '\\' {
      var n := LeadingSlashes(s);
      assert i >= n;
      if n % 2 == 0 || s[n] != '"' {
        assert s[n..][i - n] == '"';
        MarksAreLost(rule, s[n..], quoted, i - n);
      }
    } else if s[0] != '"' {
      assert s[1..][i - 1] == '"';
      MarksAreLost(rule, s[1..], quoted, i - 1);
    }
  }

  lemma {:induction false} BlankEndsToken(rule: PairRule, s: string, i: nat)
    requires i < |s| && Blank(s[i])
    requires forall k :: 0 <= k < |s| ==> s[k] != '"'
    ensures Token(rule, s, false).1 != ""
    decreases |s|
  {
    if s[0] == '\\' {
      var n := LeadingSlashes(s);
      assert s[n..][i - n] == s[i];
      BlankEndsToken(rule, s[n..], i - n);
    } else if !Blank(s[0]) {
      assert s[1..][i - 1] == s[i];
      BlankEndsToken(rule, s[1..], i - 1);
    }
  }

  lemma {:induction false} ParsedLength(rule: PairRule, s: string)
    ensures forall k :: 0 <= k < |Parse(rule, s)| ==> |Parse(rule, s)[k]| <= |s|
    decreases |s|
  {
    if s != "" {
      if Blank(s[0]) {
        ParsedLength(rule, s[1..]);
      } else {
        TokenConsumes(rule, s);
        ParsedLength(rule, Token(rule, s, false).1);
      }
    }
  }

  /** The launcher leaves an argument bare exactly when its bare text survives the parser. */
  lemma BareExactlyWhenItSurvives(rule: PairRule, a: string)
    ensures Quoted(a) == a <==> Parse(rule, a) == [a]
  {
    RoundTrip(rule, [a]);
    assert Joined([a]) == Quoted(a);
    if Parse(rule, a) == [a] && !NeedsNoQuotes(a) {
      if Blank(a[0]) {
        ParsedLength(rule, a[1..]);
      } else {
        assert Token(rule, a, false) == (a, "");
        var i :| 0 <= i < |a| && (Blank(a[i]) || a[i] == '"');
        if j :| 0 <= j < |a| && a[j] == '"' {
          MarksAreLost(rule, a, false, j);
        } else {
          BlankEndsToken(rule, a, i);
        }
      }
    }
  }
}
