/** The Windows half of packages/cli-supervisor/src/command-display.ts. */
module WindowsCommandLine {
  import opened CommandDisplay
  import opened Options

  // The command-line parser of the Microsoft C runtime undoes the quoting: 2n backslashes and a quote are
  // n backslashes and a delimiter, 2n+1 are n backslashes and a quote, and `""` inside quotes is a quote.
  // The program name has a rule of its own, in which quotes only delimit and backslashes mean nothing.

  predicate IsBlank(c: char) {
    c == ' ' || c == '\t'
  }

  function Held(word: Option<string>): string {
    if word.None? then "" else word.value
  }

  /** The arguments being read: what is left of the line, whether quotes are open, and the word so far. */
  datatype Reader = Reader(text: string, quoted: bool, word: Option<string>)

  /** One step of the parser: a run of backslashes, with the quote after it, or one other character. */
  function Consume(r: Reader): (q: Reader)
    requires r.text != ""
    ensures |q.text| < |r.text|
  {
    var n := Lead(r.text);
    var half := Held(r.word) + Slashes(n / 2);
    if n < |r.text| && r.text[n] == '"' then
      if n % 2 == 1 then Reader(r.text[n + 1..], r.quoted, Some(half + "\""))
      else if r.quoted && n + 1 < |r.text| && r.text[n + 1] == '"' then Reader(r.text[n + 2..], true, Some(half + "\""))
      else Reader(r.text[n + 1..], !r.quoted, Some(half))
    else if n > 0 then Reader(r.text[n..], r.quoted, Some(Held(r.word) + Slashes(n)))
    else if AtBlank(r) then Reader(r.text[1..], false, None)
    else Reader(r.text[1..], r.quoted, Some(Held(r.word) + [r.text[0]]))
  }

  predicate AtBlank(r: Reader) {
    r.text != "" && !r.quoted && IsBlank(r.text[0])
  }

  function Finished(word: Option<string>): seq<string> {
    if word.None? then [] else [word.value]
  }

  function Args(r: Reader): seq<string>
    decreases |r.text|
  {
    if r.text == "" then Finished(r.word)
    else if AtBlank(r) then Finished(r.word) + Args(Consume(r))
    else Args(Consume(r))
  }

  function Arguments(text: string): seq<string> {
    Args(Reader(text, false, None))
  }

  /** The program name at the start of a line, and what follows the blank that ends it. */
  function Program(text: string, quoted: bool): (string, string) {
    if text == "" then ("", "")
    else if text[0] == '"' then Program(text[1..], !quoted)
    else if !quoted && IsBlank(text[0]) then ("", text[1..])
    else
      var rest := Program(text[1..], quoted);
      ([text[0]] + rest.0, rest.1)
  }

  /** A whole line: program name and arguments. */
  function Parse(line: string): (string, seq<string>) {
    var program := Program(line, false);
    (program.0, Arguments(program.1))
  }

  // The two replacements as one recursion.

  /** What becomes of the first run of backslashes and the character after it. */
  function Piece(value: string): string
    requires Lead(value) < |value|
  {
    var n := Lead(value);
    if value[n] == '"' then Slashes(2 * n) + "\\\"" else value[..n + 1]
  }

  function Escaped(value: string): string
    decreases |value|
  {
    var n := Lead(value);
    if n == |value| then Slashes(2 * n) else Piece(value) + Escaped(value[n + 1..])
  }

  lemma {:induction false} LeadIs(text: string, n: nat)
    requires n <= |text| && (n < |text| ==> text[n] != '\\')
    requires forall i :: 0 <= i < n ==> text[i] == '\\'
    ensures Lead(text) == n
  {
  }

  lemma {:induction false} TrailingIs(text: string, n: nat)
    requires n <= |text| && (n < |text| ==> text[|text| - n - 1] != '\\')
    requires forall i :: |text| - n <= i < |text| ==> text[i] == '\\'
    ensures Trailing(text) == n
  {
  }

  /** Doubling at the end does not look past a character that is no backslash. */
  lemma {:induction false} DoubleAfter(head: string, tail: string)
    requires head != "" && head[|head| - 1] != '\\'
    ensures DoubleTrailing(head + tail) == head + DoubleTrailing(tail)
  {
    var n := Trailing(tail);
    var text := head + tail;
    assert forall i :: |text| - n <= i < |text| ==> text[i] == tail[i - |head|];
    assert n == |tail| ==> text[|text| - n - 1] == head[|head| - 1];
    TrailingIs(text, n);
  }

  lemma {:induction false} EscapedIsBoth(value: string)
    ensures DoubleTrailing(EscapeQuotes(value)) == Escaped(value)
    decreases |value|
  {
    var n := Lead(value);
    if n == |value| {
      TrailingIs(value, n);
      assert value + Slashes(n) == Slashes(2 * n);
    } else {
      EscapedIsBoth(value[n + 1..]);
      DoubleAfter(Piece(value), EscapeQuotes(value[n + 1..]));
    }
  }

  // Arguments.

  /** A character that neither escapes nor delimits is read as itself. */
  lemma {:induction false} PlainIsRead(n: nat, c: char, rest: string, word: string)
    requires c != '\\' && c != '"'
    ensures Args(Reader(Slashes(n) + [c] + rest, true, Some(word)))
            == Args(Reader(rest, true, Some(word + (Slashes(n) + [c]))))
  {
    var r := Reader(Slashes(n) + [c] + rest, true, Some(word));
    var q := Reader([c] + rest, true, Some(word + Slashes(n)));
    LeadIs(r.text, n);
    LeadIs(q.text, 0);
    assert r.text[n..] == q.text;
    assert q.text[1..] == rest;
    assert word + Slashes(n) + [c] == word + (Slashes(n) + [c]);
    assert Consume(q) == Reader(rest, true, Some(word + Slashes(n) + [c]));
    if n == 0 {
      assert r.text == q.text && word + Slashes(0) == word;
    } else {
      assert Consume(r) == q;
    }
  }

  lemma {:induction false} EscapedQuoteIsRead(n: nat, rest: string, word: string)
    ensures Args(Reader(Slashes(2 * n) + "\\\"" + rest, true, Some(word)))
            == Args(Reader(rest, true, Some(word + (Slashes(n) + "\""))))
  {
    var r := Reader(Slashes(2 * n) + "\\\"" + rest, true, Some(word));
    LeadIs(r.text, 2 * n + 1);
    assert r.text[2 * n + 2..] == rest;
    assert word + Slashes(n) + "\"" == word + (Slashes(n) + "\"");
    assert Consume(r) == Reader(rest, true, Some(word + Slashes(n) + "\""));
  }

  lemma {:induction false} CloseIsRead(n: nat, rest: string, word: string)
    requires rest == "" || rest[0] != '"'
    ensures Args(Reader(Slashes(2 * n) + "\"" + rest, true, Some(word)))
            == Args(Reader(rest, false, Some(word + Slashes(n))))
  {
    var r := Reader(Slashes(2 * n) + "\"" + rest, true, Some(word));
    LeadIs(r.text, 2 * n);
    assert r.text[2 * n + 1..] == rest;
    assert Consume(r) == Reader(rest, false, Some(word + Slashes(n)));
  }

  lemma {:induction false} PieceIsRead(value: string, rest: string, word: string)
    requires Lead(value) < |value|
    ensures Args(Reader(Piece(value) + rest, true, Some(word)))
            == Args(Reader(rest, true, Some(word + value[..Lead(value) + 1])))
  {
    var n := Lead(value);
    assert value[..n + 1] == Slashes(n) + [value[n]];
    if value[n] == '"' {
      EscapedQuoteIsRead(n, rest, word);
    } else {
      PlainIsRead(n, value[n], rest, word);
    }
  }

  lemma {:induction false} EscapedSplits(value: string, tail: string)
    requires Lead(value) < |value|
    ensures Escaped(value) + tail == Piece(value) + (Escaped(value[Lead(value) + 1..]) + tail)
  {
  }

  lemma {:induction false} Regroup(word: string, value: string, n: nat)
    requires n <= |value|
    ensures word + value[..n] + value[n..] == word + value
  {
  }

  lemma {:induction false} LastRunIsRead(value: string, rest: string, word: string)
    requires (rest == "" || rest[0] != '"') && Lead(value) == |value|
    ensures Args(Reader(Escaped(value) + ("\"" + rest), true, Some(word)))
            == Args(Reader(rest, false, Some(word + value)))
  {
    var n := |value|;
    assert Slashes(n) == value;
    assert Escaped(value) + ("\"" + rest) == Slashes(2 * n) + "\"" + rest;
    CloseIsRead(n, rest, word);
  }

  lemma {:induction false} EscapedIsRead(value: string, rest: string, word: string)
    requires rest == "" || rest[0] != '"'
    ensures Args(Reader(Escaped(value) + ("\"" + rest), true, Some(word)))
            == Args(Reader(rest, false, Some(word + value)))
    decreases |value|
  {
    if Lead(value) == |value| {
      LastRunIsRead(value, rest, word);
    } else {
      var n := Lead(value) + 1;
      EscapedSplits(value, "\"" + rest);
      Regroup(word, value, n);
      PieceIsRead(value, Escaped(value[n..]) + ("\"" + rest), word);
      EscapedIsRead(value[n..], rest, word + value[..n]);
    }
  }

  lemma {:induction false} OpensQuotes(inner: string)
    ensures Arguments("\"" + inner) == Args(Reader(inner, true, Some("")))
  {
    var r := Reader("\"" + inner, false, None);
    LeadIs(r.text, 0);
    assert r.text[1..] == inner;
    assert "" + Slashes(0) == "";
    assert Consume(r) == Reader(inner, true, Some(""));
  }

  lemma {:induction false} QuotedIsRead(value: string, rest: string)
    requires rest == "" || rest[0] != '"'
    ensures Arguments(QuoteWindowsArg(value) + rest) == Args(Reader(rest, false, Some(value)))
  {
    QuotedIs(value, rest);
    OpensQuotes(Escaped(value) + ("\"" + rest));
    EscapedIsRead(value, rest, "");
    assert "" + value == value;
  }

  lemma {:induction false} NextArgument(value: string, rest: string)
    ensures Arguments(QuoteWindowsArg(value) + " " + rest) == [value] + Arguments(rest)
  {
    var spaced := " " + rest;
    assert QuoteWindowsArg(value) + " " + rest == QuoteWindowsArg(value) + spaced;
    QuotedIsRead(value, spaced);
    LeadIs(spaced, 0);
    assert spaced[1..] == rest;
    assert Consume(Reader(spaced, false, Some(value))) == Reader(rest, false, None);
  }

  /** The runtime reads back every argument list, backslash runs before quotes and at the end included. */
  lemma {:induction false} ArgumentsAreRead(args: seq<string>)
    ensures Arguments(Join(QuoteWindowsArg, args)) == args
  {
    if |args| == 1 {
      QuotedIsRead(args[0], "");
      assert QuoteWindowsArg(args[0]) + "" == QuoteWindowsArg(args[0]);
      assert [args[0]] == args;
    } else if |args| > 1 {
      ArgumentsAreRead(args[1..]);
      NextArgument(args[0], Join(QuoteWindowsArg, args[1..]));
      assert [args[0]] + args[1..] == args;
    }
  }

  // The program name.

  /** How the rule for program names sees a command that stands between two quotes: its own quotes
      toggle, and a blank outside them ends the name. */
  datatype Scan = EndsInside | EndsOutside | EndsEarly

  function ScanCommand(command: string, quoted: bool): Scan {
    if command == "" then (if quoted then EndsInside else EndsOutside)
    else if command[0] == '"' then ScanCommand(command[1..], !quoted)
    else if !quoted && IsBlank(command[0]) then EndsEarly
    else ScanCommand(command[1..], quoted)
  }

  /** The command's own quotes are paired, with no blank between the first of a pair and the second. */
  predicate Closed(command: string) {
    ScanCommand(command, true).EndsInside?
  }

  predicate Unremarkable(text: string, quoted: bool) {
    forall i :: 0 <= i < |text| ==> text[i] != '"' && (quoted || !IsBlank(text[i]))
  }

  lemma {:induction false} ProgramSkips(head: string, tail: string, quoted: bool)
    requires Unremarkable(head, quoted)
    ensures Program(head + tail, quoted) == (head + Program(tail, quoted).0, Program(tail, quoted).1)
  {
    if head == "" {
      assert head + tail == tail;
      assert "" + Program(tail, quoted).0 == Program(tail, quoted).0;
    } else {
      ProgramSkips(head[1..], tail, quoted);
      assert (head + tail)[1..] == head[1..] + tail;
      assert [head[0]] + (head[1..] + Program(tail, quoted).0) == head + Program(tail, quoted).0;
    }
  }

  lemma {:induction false} ScanSkips(head: string, tail: string, quoted: bool)
    requires Unremarkable(head, quoted)
    ensures ScanCommand(head + tail, quoted) == ScanCommand(tail, quoted)
  {
    if head == "" {
      assert head + tail == tail;
    } else {
      ScanSkips(head[1..], tail, quoted);
      assert (head + tail)[1..] == head[1..] + tail;
    }
  }

  /** `rest` still holds the closing quote of the command, then `tail`. */
  ghost predicate CutShort(rest: string, tail: string) {
    exists part: string :: rest == part + "\"" + tail
  }

  /** Where reading `part`, then the closing quote, then `tail` as a program name gets to. */
  ghost predicate NameEnds(scan: Scan, rest: string, tail: string) {
    match scan
    case EndsInside => rest == Program(tail, false).1
    case EndsOutside => rest == Program(tail, true).1
    case EndsEarly => CutShort(rest, tail)
  }

  /** How the rule for program names goes on after the first run of the command. */
  lemma {:induction false} PieceIsScanned(command: string, quoted: bool, after: string)
    requires Lead(command) < |command|
    ensures var c := command[Lead(command)];
            && Program(Piece(command) + after, quoted).1
               == (if c == '"' then Program(after, !quoted).1
                   else if quoted || !IsBlank(c) then Program(after, quoted).1 else after)
            && ScanCommand(command, quoted)
               == (if c == '"' then ScanCommand(command[Lead(command) + 1..], !quoted)
                   else if quoted || !IsBlank(c) then ScanCommand(command[Lead(command) + 1..], quoted) else EndsEarly)
  {
    var n := Lead(command);
    var skipped := if command[n] == '"' then Slashes(2 * n) + "\\" else command[..n];
    var next := [command[n]] + after;
    assert Piece(command) + after == skipped + next;
    ProgramSkips(skipped, next, quoted);
    assert next[1..] == after;
    assert command == command[..n] + command[n..];
    ScanSkips(command[..n], command[n..], quoted);
    assert command[n..][1..] == command[n + 1..];
  }

  lemma {:induction false} CommandIsScanned(command: string, quoted: bool, tail: string)
    ensures NameEnds(ScanCommand(command, quoted), Program(Escaped(command) + ("\"" + tail), quoted).1, tail)
    decreases |command|
  {
    var n := Lead(command);
    if n == |command| {
      AllSlashes(n, quoted, tail);
      ScanSkips(command, "", quoted);
      assert command + "" == command;
    } else {
      var after := Escaped(command[n + 1..]) + ("\"" + tail);
      EscapedSplits(command, "\"" + tail);
      PieceIsScanned(command, quoted, after);
      assert after == Escaped(command[n + 1..]) + "\"" + tail;
      assert CutShort(after, tail);
      CommandIsScanned(command[n + 1..], if command[n] == '"' then !quoted else quoted, tail);
    }
  }

  lemma {:induction false} AllSlashes(n: nat, quoted: bool, tail: string)
    ensures Program(Slashes(2 * n) + ("\"" + tail), quoted).1 == Program(tail, !quoted).1
  {
    ProgramSkips(Slashes(2 * n), "\"" + tail, quoted);
    assert ("\"" + tail)[1..] == tail;
  }

  /** What follows the command on the line. */
  function Tail(args: seq<string>): string {
    if args == [] then "" else " " + Join(QuoteWindowsArg, args)
  }

  lemma {:induction false} QuotedIs(value: string, tail: string)
    ensures QuoteWindowsArg(value) + tail == "\"" + (Escaped(value) + ("\"" + tail))
  {
    EscapedIsBoth(value);
  }

  lemma {:induction false} JoinIs(quote: string -> string, command: string, args: seq<string>)
    ensures Join(quote, [command] + args) == quote(command) + if args == [] then "" else " " + Join(quote, args)
  {
    var tokens := [command] + args;
    assert tokens[1..] == args;
    assert quote(command) + "" == quote(command);
    assert quote(command) + " " + Join(quote, args) == quote(command) + (" " + Join(quote, args));
  }

  lemma {:induction false} LineIs(command: string, args: seq<string>)
    ensures FormatCommandForDisplay(command, args, true) == "\"" + (Escaped(command) + ("\"" + Tail(args)))
  {
    QuotedIs(command, Tail(args));
    JoinIs(QuoteWindowsArg, command, args);
  }

  /** Where the arguments of the displayed line are read from. */
  lemma {:induction false} RestOfLine(command: string, args: seq<string>)
    ensures NameEnds(ScanCommand(command, true),
                     Program(FormatCommandForDisplay(command, args, true), false).1, Tail(args))
  {
    LineIs(command, args);
    var inner := Escaped(command) + ("\"" + Tail(args));
    assert ("\"" + inner)[1..] == inner;
    CommandIsScanned(command, true, Tail(args));
  }

  lemma {:induction false} ClosedKeepsArguments(command: string, args: seq<string>)
    requires Closed(command)
    ensures Parse(FormatCommandForDisplay(command, args, true)).1 == args
  {
    RestOfLine(command, args);
    if args != [] {
      assert Tail(args)[1..] == Join(QuoteWindowsArg, args);
      ArgumentsAreRead(args);
    }
  }

  lemma {:induction false} WordIsKept(r: Reader)
    requires r.word.Some?
    ensures Args(r) != []
    decreases |r.text|
  {
    if r.text != "" && !AtBlank(r) {
      WordIsKept(Consume(r));
    }
  }

  lemma {:induction false} QuoteMakesAWord(text: string, i: nat)
    requires i < |text| && text[i] == '"'
    ensures Arguments(text) != []
    decreases |text|
  {
    var r := Reader(text, false, None);
    if AtBlank(r) {
      LeadIs(text, 0);
      QuoteMakesAWord(text[1..], i - 1);
    } else {
      WordIsKept(Consume(r));
    }
  }

  /** A command that is not closed loses the argument list `[]` or the argument list `["x"]`. */
  lemma {:induction false} OpenLosesArguments(command: string)
    requires !Closed(command)
    ensures || Parse(FormatCommandForDisplay(command, [], true)).1 != []
            || Parse(FormatCommandForDisplay(command, ["x"], true)).1 != ["x"]
  {
    if ScanCommand(command, true).EndsEarly? {
      RestOfLine(command, []);
      var rest := Program(FormatCommandForDisplay(command, [], true), false).1;
      var part: string :| rest == part + "\"" + "";
      QuoteMakesAWord(rest, |part|);
    } else {
      RestOfLine(command, ["x"]);
      QuotedX();
    }
  }

  lemma {:induction false} QuotedX()
    ensures Program(Tail(["x"]), true).1 == ""
  {
    var quoted := "\"x\"";
    NoQuoteNoEscape("x");
    TrailingIs("x", 0);
    assert DoubleTrailing("x") == "x" + Slashes(0) == "x";
    assert Join(QuoteWindowsArg, ["x"]) == QuoteWindowsArg("x") == quoted;
    assert Tail(["x"]) == " " + quoted;
    ProgramSkips(" ", quoted, true);
    assert quoted[1..] == "x\"" && "x\""[1..] == "\"" && "\""[1..] == "";
    assert Program("x\"", false).1 == Program("\"", false).1 == Program("", true).1;
  }

  /** The displayed line keeps every argument list exactly when the command is closed. */
  lemma {:induction false} ArgumentsSurviveExactly(command: string)
    ensures (forall args: seq<string> :: Parse(FormatCommandForDisplay(command, args, true)).1 == args)
            <==> Closed(command)
  {
    if Closed(command) {
      forall args: seq<string>
        ensures Parse(FormatCommandForDisplay(command, args, true)).1 == args
      {
        ClosedKeepsArguments(command, args);
      }
    } else {
      OpenLosesArguments(command);
    }
  }

  lemma {:induction false} NameHasNoQuote(text: string, quoted: bool)
    ensures forall i :: 0 <= i < |Program(text, quoted).0| ==> Program(text, quoted).0[i] != '"'
  {
    if text != "" {
      NameHasNoQuote(text[1..], quoted);
      NameHasNoQuote(text[1..], !quoted);
    }
  }

  lemma {:induction false} NoQuoteNoEscape(value: string)
    requires Unremarkable(value, true)
    ensures EscapeQuotes(value) == value && Closed(value)
    decreases |value|
  {
    var n := Lead(value);
    if n < |value| {
      NoQuoteNoEscape(value[n + 1..]);
      assert value == value[..n + 1] + value[n + 1..];
    }
    ScanSkips(value, "", true);
    assert value + "" == value;
  }

  lemma {:induction false} NameOfQuoted(name: string, tail: string)
    requires Unremarkable(name, true) && (tail == "" || tail[0] == ' ')
    ensures Program("\"" + (name + ("\"" + tail)), false).0 == name
  {
    var line := "\"" + (name + ("\"" + tail));
    assert line[1..] == name + ("\"" + tail);
    ProgramSkips(name, "\"" + tail, true);
    assert ("\"" + tail)[1..] == tail;
    assert name + "" == name;
  }

  lemma {:induction false} PlainName(command: string, args: seq<string>)
    requires Unremarkable(command, true)
    ensures Program(FormatCommandForDisplay(command, args, true), false).0 == DoubleTrailing(command)
  {
    NoQuoteNoEscape(command);
    EscapedIsBoth(command);
    LineIs(command, args);
    NameOfQuoted(DoubleTrailing(command), Tail(args));
  }

  /** The whole argv survives, program name included, exactly when the command holds no quote and does
      not end in a backslash. */
  lemma {:induction false} ArgvSurvivesExactly(command: string, args: seq<string>)
    ensures Parse(FormatCommandForDisplay(command, args, true)) == (command, args)
            <==> '"' !in command && Trailing(command) == 0
  {
    NameHasNoQuote(FormatCommandForDisplay(command, args, true), false);
    if '"' !in command {
      NoQuoteNoEscape(command);
      ClosedKeepsArguments(command, args);
      PlainName(command, args);
      assert |DoubleTrailing(command)| == |command| + Trailing(command);
      assert Trailing(command) == 0 ==> DoubleTrailing(command) == command;
    }
  }
}
