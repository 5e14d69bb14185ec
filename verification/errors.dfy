/** The broker client's error enum, its `Display` text and its comparison with strings. */
module Errors {
  import opened Wrappers
  import Text
  import Json

  datatype BrokerError =
    | LinkError(msg: string)
    | ContentError(msg: string)
    | IoError(msg: string)
    | NotFound(msg: string)
    | UrlError(msg: string)
    | ValidationError(errors: seq<string>)

  /** The outcome of any broker call. */
  type Reply = Outcome<Json.Json, BrokerError>

  /** The text an error compares equal to: its message, or the validation
      messages joined with ", ". */
  function Message(e: BrokerError): (r: string)
    ensures !e.ValidationError? ==> r == e.msg
    ensures e.ValidationError? && |e.errors| == 1 ==> r == e.errors[0]
    ensures e.ValidationError? && |e.errors| == 0 ==> r == ""
  {
    match e
    case ValidationError(errs) => Text.Join(errs, ", ")
    case _ => e.msg
  }

  /** `error == text`. */
  predicate EqualsText(e: BrokerError, s: string) {
    Message(e) == s
  }

  /** Comparison with a string ignores which variant carries the message. */
  lemma EqualsIgnoresVariant(m: string, s: string)
    ensures EqualsText(LinkError(m), s) <==> m == s
    ensures EqualsText(ContentError(m), s) <==> m == s
    ensures EqualsText(IoError(m), s) <==> m == s
    ensures EqualsText(NotFound(m), s) <==> m == s
    ensures EqualsText(UrlError(m), s) <==> m == s
    ensures EqualsText(ValidationError([m]), s) <==> m == s
  {
  }

  /** The `Debug` text of a string: quoted, with quotes, backslashes, NUL and
      the three whitespace controls escaped. */
  function DebugChar(c: char): string {
    if c == '"' then "\\\""
    else if c == '\\' then "\\\\"
    else if c == '\n' then "\\n"
    else if c == '\r' then "\\r"
    else if c == '\t' then "\\t"
    else if c == 0 as char then "\\0"
    else [c]
  }

  function DebugEscape(s: string): string {
    if |s| == 0 then "" else DebugChar(s[0]) + DebugEscape(s[1..])
  }

  function DebugList(errs: seq<string>): (r: string)
    ensures |r| >= 2 && r[0] == '[' && r[|r| - 1] == ']'
  {
    "[" + Text.Join(seq(|errs|, i requires 0 <= i < |errs| => "\"" + DebugEscape(errs[i]) + "\""), ", ") + "]"
  }

  function Prefix(e: BrokerError): string {
    match e
    case LinkError(_) => "Error with a HAL link - "
    case ContentError(_) => "Error with the content of a HAL resource - "
    case IoError(_) => "IO Error - "
    case NotFound(_) => "Link/Resource was not found - "
    case UrlError(_) => "Invalid URL - "
    case ValidationError(_) => "failed validation - "
  }

  /** The `Display` text: a fixed prefix per variant followed by the message
      (the `Debug` list of messages for validation errors). */
  function Display(e: BrokerError): (r: string)
    ensures Text.StartsWith(r, Prefix(e))
    ensures !e.ValidationError? ==> Text.EndsWith(r, e.msg) && |r| == |Prefix(e)| + |e.msg|
  {
    match e
    case ValidationError(errs) => Prefix(e) + DebugList(errs)
    case _ => Prefix(e) + e.msg
  }
}
