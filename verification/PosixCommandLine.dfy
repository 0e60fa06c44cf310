/** The POSIX half of packages/cli-supervisor/src/command-display.ts, undone by the shell's own
    tokenization: IEEE Std 1003.1, XCU sections 2.2 and 2.3. */
module PosixCommandLine {
  import opened CommandDisplay
  import opened Options

  datatype Quoting = Plain | Single | Double

  /** Characters that are not themselves outside quotes: operators, expansions, patterns, comments. */
  predicate Special(c: char) {
    c in {'|', '&', ';', '<', '>', '(', ')', '$', '`', '\n', '*', '?', '[', ']', '#', '~', '=', '%', '!', '{', '}'}
  }

  function Extend(word: Option<string>, c: char): Option<string> {
    Some((if word.None? then "" else word.value) + [c])
  }

  function Start(word: Option<string>): Option<string> {
    if word.None? then Some("") else word
  }

  /** The words of a line that is one simple command of literal words; `None` for any other line.
      `word` is the word being read. */
  function Words(text: string, quoting: Quoting, word: Option<string>): Option<seq<string>>
    decreases |text|
  {
    if text == "" then
      if !quoting.Plain? then None else Some(if word.None? then [] else [word.value])
    else
      var c, rest := text[0], text[1..];
      match quoting
      case Single => if c == '\'' then Words(rest, Plain, word) else Words(rest, Single, Extend(word, c))
      case Double =>
        if c == '"' then Words(rest, Plain, word)
        else if c == '$' || c == '`' then None
        else if c == '\\' && rest != "" && rest[0] in {'$', '`', '"', '\\'} then
          Words(rest[1..], Double, Extend(word, rest[0]))
        else if c == '\\' && rest != "" && rest[0] == '\n' then Words(rest[1..], Double, word)
        else Words(rest, Double, Extend(word, c))
      case Plain =>
        if c == '\'' then Words(rest, Single, Start(word))
        else if c == '"' then Words(rest, Double, Start(word))
        else if c == '\\' then
          if rest == "" then None
          else if rest[0] == '\n' then Words(rest[1..], Plain, word)
          else Words(rest[1..], Plain, Extend(word, rest[0]))
        else if c == ' ' || c == '\t' then
          if word.None? then Words(rest, Plain, None)
          else
            var others := Words(rest, Plain, None);
            if others.None? then None else Some([word.value] + others.value)
        else if Special(c) then None
        else Words(rest, Plain, Extend(word, c))
  }

  /** What the shell passes to the program. */
  function Tokenize(line: string): Option<seq<string>> {
    Words(line, Plain, None)
  }

  /** `'\''` inside single quotes adds one single quote and goes on inside them. */
  lemma {:induction false} QuoteInQuotes(rest: string, word: string)
    ensures Words("'\\''" + rest, Single, Some(word)) == Words(rest, Single, Some(word + "'"))
  {
    var text := "'\\''" + rest;
    assert text[1..] == "\\''" + rest;
    assert text[1..][1..][1..] == "'" + rest;
    assert text[1..][1..][1..][1..] == rest;
    assert Words(text, Single, Some(word)) == Words(text[1..], Plain, Some(word));
    assert Words(text[1..], Plain, Some(word)) == Words(text[1..][1..][1..], Plain, Some(word + "'"));
  }

  /** The shell reads an escaped value back, whatever follows its closing quote. */
  lemma {:induction false} EscapedIsRead(value: string, rest: string, word: string)
    ensures Words(EscapePosix(value) + "'" + rest, Single, Some(word)) == Words(rest, Plain, Some(word + value))
    decreases |value|
  {
    if value == "" {
      assert (EscapePosix(value) + "'" + rest)[1..] == rest;
      assert word + value == word;
    } else {
      var after := EscapePosix(value[1..]) + "'" + rest;
      var c := value[0];
      assert word + [c] + value[1..] == word + value;
      EscapedIsRead(value[1..], rest, word + [c]);
      if c == '\'' {
        assert EscapePosix(value) + "'" + rest == "'\\''" + after;
        QuoteInQuotes(after, word);
      } else {
        assert EscapePosix(value) + "'" + rest == [c] + after;
      }
    }
  }

  lemma {:induction false} QuotedIsRead(value: string, rest: string)
    ensures Words(QuotePosixArg(value) + rest, Plain, None) == Words(rest, Plain, Some(value))
  {
    assert QuotePosixArg(value) + rest == "'" + (EscapePosix(value) + "'" + rest);
    assert "" + value == value;
    EscapedIsRead(value, rest, "");
  }

  lemma {:induction false} JoinIsRead(tokens: seq<string>)
    ensures Tokenize(Join(QuotePosixArg, tokens)) == Some(tokens)
  {
    if |tokens| == 1 {
      assert [tokens[0]] == tokens;
      QuotedIsRead(tokens[0], "");
      assert QuotePosixArg(tokens[0]) + "" == QuotePosixArg(tokens[0]);
    } else if |tokens| > 1 {
      JoinIsRead(tokens[1..]);
      var rest := " " + Join(QuotePosixArg, tokens[1..]);
      assert Join(QuotePosixArg, tokens) == QuotePosixArg(tokens[0]) + rest;
      QuotedIsRead(tokens[0], rest);
      assert rest[1..] == Join(QuotePosixArg, tokens[1..]);
      assert [tokens[0]] + tokens[1..] == tokens;
    }
  }

  /** For every command and argument list, whatever characters they hold, the shell takes the
      displayed line apart into exactly that argv. */
  lemma FormatIsUndone(command: string, args: seq<string>)
    ensures Tokenize(FormatCommandForDisplay(command, args, false)) == Some([command] + args)
  {
    JoinIsRead([command] + args);
  }
}
