/** The warnings the plugin logs, and the exact text each one is logged with. */
module Diagnostics {
  import opened Wrappers

  datatype Warning =
    | SourceNotConfigured(functionName: string)   // a stream event without a usable reference (index.js:93)
    | TypeNotConfigured(functionName: string)     // a stream event of no known type (index.js:103)
    | NoFunctions                                 // a service without functions (index.js:166)

  const SourcePrefix: string := "WARNING: Stream event source for function '"
  const TypePrefix: string := "WARNING: Stream event type for function '"
  const StreamSuffix: string := "' is not configured properly. IAM permissions will not be set properly."
  const NoFunctionsText: string := "No functions to add roles to"

  /** What the log method puts in front of every message (index.js:21). */
  const LogPrefix: string := "[serverless-plugin-custom-roles]: "

  /** The message of a warning, as passed to the plugin's log method. */
  function Message(w: Warning): string
  {
    match w
    case SourceNotConfigured(f) => SourcePrefix + f + StreamSuffix
    case TypeNotConfigured(f) => TypePrefix + f + StreamSuffix
    case NoFunctions => NoFunctionsText
  }

  /** The line the log method prints for a message (index.js:20-22). */
  function LogLine(message: string): (line: string)
    ensures |line| > |message|
    ensures line[..|line| - |message|] == LogPrefix
    ensures line[|line| - |message|..] == message
  {
    LogPrefix + message
  }

  /** Whether `s` starts with `prefix` and ends with `suffix`, the two not overlapping. */
  predicate Framed(s: string, prefix: string, suffix: string)
  {
    |prefix| + |suffix| <= |s| && s[..|prefix|] == prefix && s[|s| - |suffix|..] == suffix
  }

  /** What lies between a frame's prefix and suffix. */
  function Inside(s: string, prefix: string, suffix: string): string
    requires Framed(s, prefix, suffix)
  {
    s[|prefix|..|s| - |suffix|]
  }

  /** The warning a logged message reports, read back from its text. */
  function Parse(message: string): Option<Warning>
  {
    if message == NoFunctionsText then Some(NoFunctions)
    else if Framed(message, SourcePrefix, StreamSuffix) then
      Some(SourceNotConfigured(Inside(message, SourcePrefix, StreamSuffix)))
    else if Framed(message, TypePrefix, StreamSuffix) then
      Some(TypeNotConfigured(Inside(message, TypePrefix, StreamSuffix)))
    else None
  }

  /**
   * Every message says which warning it is and, for a stream warning, names
   * the function: reading it back gives the warning, so no two warnings
   * share a text.
   */
  lemma ParseMessage(w: Warning)
    ensures Parse(Message(w)) == Some(w)
  {
    var m := Message(w);
    match w
    case NoFunctions =>
    case SourceNotConfigured(f) =>
      assert (SourcePrefix + f)[0] == SourcePrefix[0];
      assert m[0] == SourcePrefix[0] != NoFunctionsText[0];
      assert m[..|SourcePrefix|] == SourcePrefix;
      assert m[|m| - |StreamSuffix|..] == StreamSuffix;
      assert Inside(m, SourcePrefix, StreamSuffix) == f;
    case TypeNotConfigured(f) =>
      assert (TypePrefix + f)[0] == TypePrefix[0];
      assert (TypePrefix + f)[22] == TypePrefix[22];
      assert m[0] == TypePrefix[0] != NoFunctionsText[0];
      assert m[22] == TypePrefix[22] != SourcePrefix[22];
      assert m[..|TypePrefix|] == TypePrefix;
      assert m[|m| - |StreamSuffix|..] == StreamSuffix;
      assert Inside(m, TypePrefix, StreamSuffix) == f;
  }

  /** Distinct warnings are logged with distinct texts. */
  lemma MessageInjective(w1: Warning, w2: Warning)
    ensures Message(w1) == Message(w2) <==> w1 == w2
  {
    ParseMessage(w1);
    ParseMessage(w2);
  }
}
