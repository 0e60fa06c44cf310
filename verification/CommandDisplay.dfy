/** packages/cli-supervisor/src/command-display.ts. */
module CommandDisplay {
  /** Every `'` becomes `'\''`. */
  function EscapePosix(value: string): string {
    if value == "" then ""
    else (if value[0] == '\'' then "'\\''" else [value[0]]) + EscapePosix(value[1..])
  }

  function QuotePosixArg(value: string): string {
    "'" + EscapePosix(value) + "'"
  }

  function Slashes(n: nat): (s: string)
    ensures |s| == n && forall i :: 0 <= i < n ==> s[i] == '\\'
  {
    seq(n, _ => '\\')
  }

  function LeadFrom(text: string, from: nat): (n: nat)
    requires from <= |text|
    ensures from <= n <= |text| && (n < |text| ==> text[n] != '\\')
    ensures forall i :: from <= i < n ==> text[i] == '\\'
    decreases |text| - from
  {
    if from == |text| || text[from] != '\\' then from else LeadFrom(text, from + 1)
  }

  /** How many backslashes `text` starts with. */
  function Lead(text: string): (n: nat)
    ensures n <= |text| && (n < |text| ==> text[n] != '\\')
    ensures forall i :: 0 <= i < n ==> text[i] == '\\'
  {
    LeadFrom(text, 0)
  }

  /** Every run of backslashes before a `"`, and that `"`, become twice the run and `\"`. */
  function EscapeQuotes(value: string): string
    decreases |value|
  {
    var n := Lead(value);
    if n == |value| then value
    else if value[n] == '"' then Slashes(2 * n) + "\\\"" + EscapeQuotes(value[n + 1..])
    else value[..n + 1] + EscapeQuotes(value[n + 1..])
  }

  function Trailing(text: string): (n: nat)
    ensures n <= |text| && (n < |text| ==> text[|text| - n - 1] != '\\')
    ensures forall i :: |text| - n <= i < |text| ==> text[i] == '\\'
  {
    if text == "" || text[|text| - 1] != '\\' then 0 else 1 + Trailing(text[..|text| - 1])
  }

  /** The run of backslashes at the end is doubled. */
  function DoubleTrailing(text: string): string {
    text + Slashes(Trailing(text))
  }

  function QuoteWindowsArg(value: string): string {
    "\"" + DoubleTrailing(EscapeQuotes(value)) + "\""
  }

  function Join(quote: string -> string, tokens: seq<string>): string {
    if tokens == [] then ""
    else if |tokens| == 1 then quote(tokens[0])
    else quote(tokens[0]) + " " + Join(quote, tokens[1..])
  }

  function FormatCommandForDisplay(command: string, args: seq<string>, windows: bool): string {
    Join(if windows then QuoteWindowsArg else QuotePosixArg, [command] + args)
  }
}
