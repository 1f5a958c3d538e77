// What `run` and `mrun` of the interactive collectors (Expect, Telnet, Ssh in
// naghelp/collect.py) have in common: the errors they raise, the per-call
// validation settings, and the batch loop over `(key, command)` pairs.
//
// Each collector runs one command with its own `_run_cmd`; here that is a
// function from the collector's channel state and the command to the
// collector's answer and the next state.
module Batch {
  import opened Results
  import opened Text
  import opened ExpectSteps
  import opened Validate

  /** The exceptions a collector raises. */
  datatype SessionError =
    | ConnectionFailed(message: string) // ConnectionError
    | NotConnected(message: string)     // NotConnected
    | Collect(error: CollectError)      // CollectError, or a timeout that escapes (see CollectError)
    | StreamClosed                      // telnetlib's EOFError
    | Rejected(result: Unexpected)      // UnexpectedResultError
    | Unbound(name: string)             // NameError / AttributeError: a name read before any assignment

  /** The validation settings in force for one call. */
  datatype Checks = Checks(expected: Option<Pat>, unexpected: Option<Pat>, filter: Option<Filter>)

  /** The defaults of every collector: `\S` expected, `<timeout>` unexpected,
      no filter. */
  function DefaultChecks(): Checks
  {
    Checks(Some(NonWhite), Some(Literal("<timeout>")), None)
  }

  /** A per-call argument of 0 takes the object's value. */
  function Effective(objectChecks: Checks, expected: Setting<Option<Pat>>, unexpected: Setting<Option<Pat>>,
                     filter: Setting<Option<Filter>>): (c: Checks)
    ensures expected.Inherit? ==> c.expected == objectChecks.expected
    ensures expected.Given? ==> c.expected == expected.value
    ensures unexpected.Inherit? ==> c.unexpected == objectChecks.unexpected
    ensures unexpected.Given? ==> c.unexpected == unexpected.value
    ensures filter.Inherit? ==> c.filter == objectChecks.filter
    ensures filter.Given? ==> c.filter == filter.value
  {
    Checks(Choose(expected, objectChecks.expected), Choose(unexpected, objectChecks.unexpected), Choose(filter, objectChecks.filter))
  }

  /** What one `_run_cmd` under the call's deadline gives: the cleaned output,
      the deadline (`'<timeout>'` is then used as the output), or an error
      that escapes `run`/`mrun`. */
  datatype CmdResult = Output(text: string) | Late | Fatal(error: SessionError)

  /** The output a command contributes: its own, or the timeout sentinel. */
  function OutputText(r: CmdResult): string
    requires !r.Fatal?
  {
    if r.Output? then r.text else "<timeout>"
  }

  /** `_filter_result` with its error as a collector error. */
  function Validated(out: string, key: string, cmd: string, c: Checks): (r: Result<string, SessionError>)
    ensures r.Ok? <==> FilterResult(out, key, cmd, c.expected, c.unexpected, c.filter).Ok?
    ensures r.Ok? ==> r.value == FilterResult(out, key, cmd, c.expected, c.unexpected, c.filter).value
    ensures r.Err? ==> r.error == Rejected(FilterResult(out, key, cmd, c.expected, c.unexpected, c.filter).error)
  {
    match FilterResult(out, key, cmd, c.expected, c.unexpected, c.filter)
    case Ok(v) => Ok(v)
    case Err(u) => Err(Rejected(u))
  }

  /** A result that validation accepts. */
  predicate Accepted(v: string, c: Checks)
  {
    !HitsUnexpected(v, c.unexpected) && !MissesExpected(v, c.expected)
  }

  /** Storing one command's result under `key` when `store` holds. */
  function Record(acc: map<string, string>, key: string, cmd: string, out: string, c: Checks,
                  store: bool): (r: Result<map<string, string>, SessionError>)
  {
    if !store then Ok(acc)
    else
      match Validated(out, key, cmd, c)
      case Ok(v) => Ok(acc[key := v])
      case Err(e) => Err(e)
  }

  /** Whether a command's result is stored: its key must be truthy, except
      that a collector may store a timeout under an empty key too. */
  function Stores(r: CmdResult, key: string, storeEmptyTimeout: bool): bool
  {
    key != "" || (r.Late? && storeEmptyTimeout)
  }

  /** The `for k, cmd in cmds` loop of `mrun` from the pairs still to run,
      with the dictionary built so far: the dictionary or the first error,
      and the final state. */
  function MRunFrom<S>(run: (S, string) -> (CmdResult, S), st: S, cmds: seq<(string, string)>,
                       c: Checks, storeEmptyTimeout: bool, acc: map<string, string>)
    : (Result<map<string, string>, SessionError>, S)
    decreases |cmds|
  {
    if cmds == [] then (Ok(acc), st)
    else
      var (key, cmd) := cmds[0];
      var (res, st1) := run(st, cmd);
      if res.Fatal? then (Err(res.error), st1)
      else
        match Record(acc, key, cmd, OutputText(res), c, Stores(res, key, storeEmptyTimeout))
        case Err(e) => (Err(e), st1)
        case Ok(acc1) => MRunFrom(run, st1, cmds[1..], c, storeEmptyTimeout, acc1)
  }

  /** One turn of the batch loop: an error of the command, or a refused
      result, ends the batch; otherwise it goes on from the next state with
      the result stored. */
  lemma {:induction false} MRunStep<S>(run: (S, string) -> (CmdResult, S), st: S, cmds: seq<(string, string)>,
                                       c: Checks, storeEmptyTimeout: bool, acc: map<string, string>, res: CmdResult, st1: S)
    requires cmds != [] && run(st, cmds[0].1) == (res, st1)
    ensures res.Fatal? ==> MRunFrom(run, st, cmds, c, storeEmptyTimeout, acc) == (Err(res.error), st1)
    ensures !res.Fatal? ==>
              var rec := Record(acc, cmds[0].0, cmds[0].1, OutputText(res), c, Stores(res, cmds[0].0, storeEmptyTimeout));
              && (rec.Err? ==> MRunFrom(run, st, cmds, c, storeEmptyTimeout, acc) == (Err(rec.error), st1))
              && (rec.Ok? ==> MRunFrom(run, st, cmds, c, storeEmptyTimeout, acc)
                              == MRunFrom(run, st1, cmds[1..], c, storeEmptyTimeout, rec.value))
  {
  }

  /** The truthy keys of the pairs. */
  function Keys(cmds: seq<(string, string)>): set<string>
  {
    set i | 0 <= i < |cmds| && cmds[i].0 != "" :: cmds[i].0
  }

  lemma {:induction false} KeysCons(cmds: seq<(string, string)>)
    requires cmds != []
    ensures Keys(cmds) == (if cmds[0].0 != "" then {cmds[0].0} else {}) + Keys(cmds[1..])
  {
    var rest := cmds[1..];
    forall x | x in Keys(cmds) ensures x in (if cmds[0].0 != "" then {cmds[0].0} else {}) + Keys(rest) {
      var i :| 0 <= i < |cmds| && cmds[i].0 != "" && cmds[i].0 == x;
      if i > 0 { assert rest[i - 1] == cmds[i]; }
    }
    forall x | x in Keys(rest) ensures x in Keys(cmds) {
      var i :| 0 <= i < |rest| && rest[i].0 != "" && rest[i].0 == x;
      assert cmds[i + 1] == rest[i];
    }
  }

  /** A finished batch holds a result for every pair with a truthy key and
      for no other key, except possibly the empty key when timeouts are
      stored under it. */
  lemma {:induction false} MRunKeys<S>(run: (S, string) -> (CmdResult, S), st: S, cmds: seq<(string, string)>,
                                       c: Checks, storeEmptyTimeout: bool, acc: map<string, string>)
    decreases |cmds|
    ensures var r := MRunFrom(run, st, cmds, c, storeEmptyTimeout, acc).0;
            r.Ok? ==> acc.Keys + Keys(cmds) <= r.value.Keys <= acc.Keys + Keys(cmds) + {""}
    ensures var r := MRunFrom(run, st, cmds, c, storeEmptyTimeout, acc).0;
            r.Ok? && !storeEmptyTimeout && "" !in acc ==> r.value.Keys == acc.Keys + Keys(cmds)
  {
    if cmds != [] {
      KeysCons(cmds);
      var (key, cmd) := cmds[0];
      var (res, st1) := run(st, cmd);
      if !res.Fatal? {
        match Record(acc, key, cmd, OutputText(res), c, Stores(res, key, storeEmptyTimeout))
        case Err(e) =>
        case Ok(acc1) =>
          MRunKeys(run, st1, cmds[1..], c, storeEmptyTimeout, acc1);
      }
    }
  }

  /** Every result a finished batch adds has passed validation. */
  lemma {:induction false} MRunAccepted<S>(run: (S, string) -> (CmdResult, S), st: S, cmds: seq<(string, string)>,
                                           c: Checks, storeEmptyTimeout: bool, acc: map<string, string>)
    requires forall k :: k in acc ==> Accepted(acc[k], c)
    decreases |cmds|
    ensures var r := MRunFrom(run, st, cmds, c, storeEmptyTimeout, acc).0;
            r.Ok? ==> forall k :: k in r.value ==> Accepted(r.value[k], c)
  {
    if cmds != [] {
      var (key, cmd) := cmds[0];
      var (res, st1) := run(st, cmd);
      if !res.Fatal? {
        var store := Stores(res, key, storeEmptyTimeout);
        match Record(acc, key, cmd, OutputText(res), c, store)
        case Err(e) =>
        case Ok(acc1) =>
          if store {
            FilterResultAccepts(OutputText(res), key, cmd, c.expected, c.unexpected, c.filter);
          }
          MRunAccepted(run, st1, cmds[1..], c, storeEmptyTimeout, acc1);
      }
    }
  }

  /** With the default settings, a command that runs into the deadline makes
      the whole batch fail on the timeout sentinel as soon as its result is
      stored: `'<timeout>'` is the default unexpected pattern. */
  lemma {:induction false} MRunTimeoutRejected<S>(run: (S, string) -> (CmdResult, S), st: S, cmds: seq<(string, string)>,
                               storeEmptyTimeout: bool, acc: map<string, string>)
    requires cmds != [] && run(st, cmds[0].1).0.Late?
    requires cmds[0].0 != "" || storeEmptyTimeout
    ensures MRunFrom(run, st, cmds, DefaultChecks(), storeEmptyTimeout, acc)
            == (Err(Rejected(Unexpected(cmds[0].0, cmds[0].1, FoundPattern("<timeout>"), "<timeout>"))), run(st, cmds[0].1).1)
  {
    TimeoutSentinelRefused(cmds[0].0, cmds[0].1);
  }

  /** A batch whose first pair, with an empty key, only timed out goes on
      without storing anything when timeouts under empty keys are dropped. */
  lemma {:induction false} MRunSkipsEmptyKey<S>(run: (S, string) -> (CmdResult, S), st: S, cmds: seq<(string, string)>,
                             c: Checks, acc: map<string, string>)
    requires cmds != [] && cmds[0].0 == "" && !run(st, cmds[0].1).0.Fatal?
    ensures MRunFrom(run, st, cmds, c, false, acc) == MRunFrom(run, run(st, cmds[0].1).1, cmds[1..], c, false, acc)
  {
  }

  /** `run`: one command, the optional close, then validation of the output
      with an empty key.  An error of the command escapes before the close,
      and the close comes before validation. */
  function RunOnce<S>(run: (S, string) -> (CmdResult, S), close: S -> (Result<(), SessionError>, S), st: S,
                      cmd: string, shownCmd: string, autoClose: bool, c: Checks): (Result<string, SessionError>, S)
  {
    var (res, st1) := run(st, cmd);
    if res.Fatal? then (Err(res.error), st1)
    else
      var (cr, st2) := if autoClose then close(st1) else (Ok(()), st1);
      if cr.Err? then (Err(cr.error), st2)
      else (Validated(OutputText(res), "", shownCmd, c), st2)
  }

  /** `mrun`: the batch, then the close when `auto_close`; an error inside
      the batch escapes without closing. */
  function MRunOnce<S>(run: (S, string) -> (CmdResult, S), close: S -> (Result<(), SessionError>, S), st: S,
                       cmds: seq<(string, string)>, autoClose: bool, c: Checks, storeEmptyTimeout: bool)
    : (Result<map<string, string>, SessionError>, S)
  {
    var (r, st1) := MRunFrom(run, st, cmds, c, storeEmptyTimeout, map[]);
    if r.Err? || !autoClose then (r, st1)
    else
      var (cr, st2) := close(st1);
      if cr.Err? then (Err(cr.error), st2) else (r, st2)
  }

  /** A timed-out command reaches validation as the sentinel, so with the
      defaults `run` refuses it instead of returning nothing. */
  lemma {:induction false} RunTimeoutRejected<S>(run: (S, string) -> (CmdResult, S), close: S -> (Result<(), SessionError>, S), st: S,
                              cmd: string, shownCmd: string, autoClose: bool)
    requires run(st, cmd).0.Late?
    requires autoClose ==> close(run(st, cmd).1).0.Ok?
    ensures RunOnce(run, close, st, cmd, shownCmd, autoClose, DefaultChecks()).0
            == Err(Rejected(Unexpected("", shownCmd, FoundPattern("<timeout>"), "<timeout>")))
  {
    TimeoutSentinelRefused("", shownCmd);
  }
}
