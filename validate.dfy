// Output validation shared by every collector (naghelp/collect.py,
// `_filter_result` and `_raise_unexpected_result`).
//
// Regular expressions are abstract search predicates, with two exceptions
// written out: the default expected pattern `\S` ("has a non-whitespace
// character") and patterns without metacharacters, such as the default
// unexpected pattern `<timeout>`, which search for their literal text.
module Validate {
  import opened Results
  import opened Text

  datatype Pat =
    | NonWhite                                      // r'\S'
    | Literal(text: string)                         // a pattern without metacharacters
    | Abstract(text: string, search: string -> bool) // any other pattern

  function PatText(p: Pat): string
  {
    match p
    case NonWhite => "\\S"
    case Literal(t) => t
    case Abstract(t, _) => t
  }

  /** `re.search(p, s)` finds something. */
  predicate Searches(p: Pat, s: string)
  {
    match p
    case NonWhite => HasNonWhite(s)
    case Literal(t) => Contains(s, t)
    case Abstract(_, f) => f(s)
  }

  /** A pattern argument is tested only when it is truthy: not `None` and not
      ''.  Patterns are given by their text, so a compiled pattern (always
      truthy in Python) with an empty text is not told apart from ''. */
  predicate Active(p: Option<Pat>)
  {
    p.Some? && PatText(p.value) != ""
  }

  /** `filter(result, key, cmd)`: a new result, or `None` to keep the old one. */
  type Filter = (string, string, string) -> Option<string>

  /** The three per-call settings of `run`/`mrun`: `0` (the default) means
      "use the value given to the constructor". */
  datatype Setting<T> = Inherit | Given(value: T)

  function Choose<T>(s: Setting<T>, objectDefault: T): (r: T)
  {
    match s
    case Inherit => objectDefault
    case Given(v) => v
  }

  /** Why a result was refused. */
  datatype Reason = FoundPattern(pattern: string) | EmptyResult | MissingPattern(pattern: string) | StderrReturned

  /** `UnexpectedResultError`. */
  datatype Unexpected = Unexpected(key: string, cmd: string, reason: Reason, result: string)

  /** The result after the optional filter. */
  function Filtered(result: string, key: string, cmd: string, filter: Option<Filter>): string
  {
    match filter
    case None => result
    case Some(f) =>
      match f(result, key, cmd)
      case None => result
      case Some(r) => r
  }

  /** The unexpected pattern is found in a non-empty result. */
  predicate HitsUnexpected(r: string, unexpected: Option<Pat>)
  {
    Active(unexpected) && r != "" && Searches(unexpected.value, r)
  }

  /** The expected pattern is set and not found. */
  predicate MissesExpected(r: string, expected: Option<Pat>)
  {
    Active(expected) && !Searches(expected.value, r)
  }

  /** `_filter_result`: the filtered result, or the error that would be raised. */
  function FilterResult(result: string, key: string, cmd: string, expected: Option<Pat>,
                        unexpected: Option<Pat>, filter: Option<Filter>): (r: Result<string, Unexpected>)
  {
    var out := Filtered(result, key, cmd, filter);
    if HitsUnexpected(out, unexpected) then
      Err(Unexpected(key, cmd, FoundPattern(PatText(unexpected.value)), out))
    else if MissesExpected(out, expected) then
      if PatText(expected.value) == "\\S" then Err(Unexpected(key, cmd, EmptyResult, out))
      else Err(Unexpected(key, cmd, MissingPattern(PatText(expected.value)), out))
    else Ok(out)
  }

  /** A result is accepted exactly when neither test refuses it, and then it is
      the filtered result; a filter answering `None` keeps the original. */
  lemma {:induction false} FilterResultAccepts(result: string, key: string, cmd: string, expected: Option<Pat>,
                            unexpected: Option<Pat>, filter: Option<Filter>)
    ensures var out := Filtered(result, key, cmd, filter);
            (FilterResult(result, key, cmd, expected, unexpected, filter).Ok?
             <==> !HitsUnexpected(out, unexpected) && !MissesExpected(out, expected))
    ensures FilterResult(result, key, cmd, expected, unexpected, filter).Ok? ==>
              FilterResult(result, key, cmd, expected, unexpected, filter).value == Filtered(result, key, cmd, filter)
    ensures filter.Some? && filter.value(result, key, cmd).None? ==> Filtered(result, key, cmd, filter) == result
  {
  }

  /** The unexpected pattern is tested first: when both tests would refuse, the
      error names the unexpected pattern.  An empty result is never refused by
      the unexpected pattern, and a missed `\S` reports an empty result. */
  lemma {:induction false} FilterResultReasons(result: string, key: string, cmd: string, expected: Option<Pat>,
                            unexpected: Option<Pat>, filter: Option<Filter>)
    ensures var r := FilterResult(result, key, cmd, expected, unexpected, filter);
            var out := Filtered(result, key, cmd, filter);
            && (r.Err? && r.error.reason.FoundPattern? <==> HitsUnexpected(out, unexpected))
            && (r.Err? ==> r.error.key == key && r.error.cmd == cmd && r.error.result == out)
            && (r.Err? && r.error.reason.EmptyResult? <==>
                  !HitsUnexpected(out, unexpected) && MissesExpected(out, expected) && PatText(expected.value) == "\\S")
            && (out == "" && r.Err? ==> !r.error.reason.FoundPattern?)
  {
  }

  /** With the collectors' defaults (`\S` expected, `<timeout>` unexpected, no
      filter), the timeout sentinel is refused. */
  lemma {:induction false} TimeoutSentinelRefused(key: string, cmd: string)
    ensures FilterResult("<timeout>", key, cmd, Some(NonWhite), Some(Literal("<timeout>")), None)
            == Err(Unexpected(key, cmd, FoundPattern("<timeout>"), "<timeout>"))
  {
    assert OccursAt("<timeout>", "<timeout>", 0);
  }

  /** With the defaults, blank output is refused as an empty result. */
  lemma {:induction false} BlankOutputRefused(key: string, cmd: string, out: string)
    requires forall k :: 0 <= k < |out| ==> IsWhite(out[k])
    requires !Contains(out, "<timeout>")
    ensures FilterResult(out, key, cmd, Some(NonWhite), Some(Literal("<timeout>")), None)
            == Err(Unexpected(key, cmd, EmptyResult, out))
  {
  }

  // ---------------------------------------------------------------- the error text

  function Min(a: int, b: int): int { if a < b then a else b }

  /** The result as shown in the error: a marker for '', else at most its first
      80 lines followed by "\n...". */
  function ShownResult(result: string): (r: string)
    ensures result == "" <==> r == "<empty result>"
    ensures result != "" ==> EndsWith(r, "\n...")
  {
    if result == "" then "<empty result>"
    else
      var lines := SplitLines(result);
      var shown := Join(lines[..Min(80, |lines|)], "\n") + "\n...";
      assert shown[|shown| - 1] == '.';
      shown
  }

  function KeyText(key: string): string
  {
    if key == "" then "" else "for command key \"" + key + "\""
  }

  /** The help line; for a found pattern the source appends the matching
      lines highlighted by the text-ops library, which is not modelled. */
  function HelpText(reason: Reason): string
  {
    match reason
    case FoundPattern(p) => "-> found the pattern \"" + p + "\" :\n\n"
    case EmptyResult => "-> empty result"
    case MissingPattern(p) => "-> cannot find the pattern \"" + p + "\""
    case StderrReturned => "<stderr> returned :"
  }

  /** The message of the `UnexpectedResultError`. */
  function UnexpectedMessage(u: Unexpected): (m: string)
    ensures StartsWith(m, "Unexpected result " + KeyText(u.key) + "\nCommand = " + u.cmd + "\n")
  {
    "Unexpected result " + KeyText(u.key) + "\nCommand = " + u.cmd + "\n" + HelpText(u.reason) + "\n\n"
      + ShownResult(u.result)
      + "\n\nNOTE : Due to nagios restrictions, pipe symbol has been replaced by \"!\""
  }
}
