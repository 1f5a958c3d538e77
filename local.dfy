// The local-command helpers of naghelp/collect.py: `runshex`/`runsh` (the
// command line handed to the process, the treatment of its output),
// `mrunshex`/`mrunsh` (the dictionary they build) and `search_invalid_port`
// (the port list it reads and the first port it reports).
//
// The process is an oracle: it finishes with its stdout, stderr and return
// code, or the alarm of the `Timeout` context fires first.  The socket
// connection of `search_invalid_port` is a reachability predicate.
module LocalCommand {
  import opened Results
  import opened Text
  import opened Validate
  import Batch

  /** A command: a string run by `sh -c`, or an argument list run directly. */
  datatype Command = Shell(line: string) | Argv(args: seq<string>)

  /** What the process does: finish, or outlive the alarm. */
  datatype Proc = Finished(stdout: string, stderr: string, rcode: int) | Alarm

  datatype LocalError =
    | InvalidCommand(message: string)  // InvalidCommandError
    | Timeout(message: string)         // TimeoutError raised by the alarm
    | Rejected(result: Unexpected)     // UnexpectedResultError

  /** `not cmd`. */
  predicate IsEmpty(cmd: Command)
  {
    match cmd
    case Shell(line) => line == ""
    case Argv(args) => args == []
  }

  /** The defaults of `runshex`: `\S` expected, no unexpected pattern, no filter. */
  function LocalChecks(): Batch.Checks
  {
    Batch.Checks(Some(NonWhite), None, None)
  }

  /** `'%ss' % timeout`. */
  function TimeoutArg(timeout: nat): string
  {
    NatToString(timeout) + "s"
  }

  /** An argument list as launched: prefixed with `timeout Ns` unless it is
      already a `timeout` call. */
  function Prefixed(args: seq<string>, timeout: nat): (r: seq<string>)
    requires args != []
    ensures |r| >= |args| && r[|r| - |args|..] == args
    ensures r[0] == "timeout"
    ensures r == args <==> args[0] == "timeout"
  {
    if args[0] != "timeout" then ["timeout", TimeoutArg(timeout)] + args else args
  }

  /** Prefixing twice adds nothing, whatever the second timeout. */
  lemma {:induction false} PrefixedIdempotent(args: seq<string>, timeout: nat, timeout2: nat)
    requires args != []
    ensures Prefixed(Prefixed(args, timeout), timeout2) == Prefixed(args, timeout)
  {
  }

  /** The list formatted with the context when there is one. */
  function Formatted(args: seq<string>, context: Option<string -> string>): (r: seq<string>)
    ensures |r| == |args|
    ensures context.None? ==> r == args
  {
    if context.None? then args else Mapped(args, context.value)
  }

  /** Python 2 `str()` of a list of strings whose items hold no `'`, no
      backslash and no unprintable character: each item in single quotes,
      between brackets. */
  function ListRepr(xs: seq<string>): string
  {
    "[" + Join(Mapped(xs, (x: string) => "'" + x + "'"), ", ") + "]"
  }

  /** `'%s' % cmd` for the command as given. */
  function Repr(cmd: Command): string
  {
    match cmd
    case Shell(line) => line
    case Argv(args) => ListRepr(args)
  }

  /** A launch: the list handed to `subprocess.Popen`, the command as shown in
      errors, and the caller's command afterwards (a list without a context
      is prefixed in place). */
  datatype Launch = Launch(argv: seq<string>, shown: string, after: Command)

  /** Building the process arguments. */
  function Prepare(cmd: Command, context: Option<string -> string>, timeout: nat): (r: Result<Launch, LocalError>)
    ensures r.Err? <==> IsEmpty(cmd)
    ensures r.Err? ==> r.error == InvalidCommand("Command is empty")
    ensures r.Ok? ==> |r.value.argv| >= 1 && r.value.argv[0] == "timeout"
    ensures r.Ok? && cmd.Shell? ==> |r.value.argv| == 5 && r.value.argv[1..4] == [TimeoutArg(timeout), "sh", "-c"]
    ensures r.Ok? && cmd.Argv? ==> var f := Formatted(cmd.args, context);
              |r.value.argv| >= |f| && r.value.argv[|r.value.argv| - |f|..] == f
    ensures r.Ok? && (cmd.Shell? || context.Some?) ==> r.value.after == cmd
  {
    match cmd
    case Shell(line) =>
      if line == "" then Err(InvalidCommand("Command is empty"))
      else
        var l := if context.None? then line else context.value(line);
        Ok(Launch(["timeout", TimeoutArg(timeout), "sh", "-c", l], l, cmd))
    case Argv(args) =>
      if args == [] then Err(InvalidCommand("Command is empty"))
      else
        var argv := Prefixed(Formatted(args, context), timeout);
        Ok(Launch(argv, ListRepr(argv), if context.None? then Argv(argv) else cmd))
  }

  /** Running an argument list again after a call without a context launches
      the same list: the first call's `timeout` prefix stays, and the second
      call's own timeout is not used. */
  lemma {:induction false} ReusedListKeepsFirstTimeout(args: seq<string>, timeout: nat, timeout2: nat)
    requires args != [] && args[0] != "timeout"
    ensures var first := Prepare(Argv(args), None, timeout).value;
            && first.argv == ["timeout", TimeoutArg(timeout)] + args
            && first.after == Argv(first.argv)
            && Prepare(first.after, None, timeout2).value.argv == first.argv
  {
    PrefixedIdempotent(args, timeout, timeout2);
  }

  /** `runshex(cmd, ...)`: the filtered stdout, the stderr and the return
      code, with the caller's command afterwards.  Non-empty stderr is refused
      before stdout is validated when `unexpected_stderr`. */
  function RunShEx(cmd: Command, context: Option<string -> string>, timeout: nat, c: Batch.Checks, key: string,
                   unexpectedStderr: bool, proc: Proc): (Result<(string, string, int), LocalError>, Command)
  {
    match Prepare(cmd, context, timeout)
    case Err(e) => (Err(e), cmd)
    case Ok(l) =>
      if proc.Alarm? then
        (Err(Timeout("Timeout (" + NatToString(timeout) + "s) for command : " + Repr(cmd))), l.after)
      else if unexpectedStderr && proc.stderr != "" then
        (Err(Rejected(Unexpected(key, l.shown, StderrReturned, proc.stderr))), l.after)
      else
        match FilterResult(proc.stdout, key, l.shown, c.expected, c.unexpected, c.filter)
        case Err(u) => (Err(Rejected(u)), l.after)
        case Ok(out) => (Ok((out, proc.stderr, proc.rcode)), l.after)
  }

  /** A finished process yields its own stderr and return code, and stdout as
      `_filter_result` leaves it; stderr is only refused when asked. */
  lemma {:induction false} RunShExOutcome(cmd: Command, context: Option<string -> string>, timeout: nat, c: Batch.Checks, key: string,
                       unexpectedStderr: bool, proc: Proc)
    requires !IsEmpty(cmd) && proc.Finished?
    ensures var r := RunShEx(cmd, context, timeout, c, key, unexpectedStderr, proc).0;
            var shown := Prepare(cmd, context, timeout).value.shown;
            && (r.Ok? <==> (!unexpectedStderr || proc.stderr == "")
                           && FilterResult(proc.stdout, key, shown, c.expected, c.unexpected, c.filter).Ok?)
            && (r.Ok? ==> r.value == (FilterResult(proc.stdout, key, shown, c.expected, c.unexpected, c.filter).value,
                                     proc.stderr, proc.rcode))
            && (unexpectedStderr && proc.stderr != "" ==>
                  r == Err(Rejected(Unexpected(key, shown, StderrReturned, proc.stderr))))
  {
  }

  /** `runsh(cmd, ...)`: the lines of the validated stdout; stderr is never
      refused. */
  function RunSh(cmd: Command, context: Option<string -> string>, timeout: nat, c: Batch.Checks, key: string,
                 proc: Proc): (r: Result<seq<string>, LocalError>)
    ensures r.Ok? ==> forall k :: 0 <= k < |r.value| ==> '\n' !in r.value[k]
  {
    match RunShEx(cmd, context, timeout, c, key, false, proc).0
    case Err(e) => Err(e)
    case Ok(t) =>
      SplitLinesHaveNoBreak(t.0);
      Ok(SplitLines(t.0))
  }

  // ---------------------------------------------------------------- batches

  /** A value of the dictionary `mrunsh`/`mrunshex` build. */
  datatype Value = Str(s: string) | Lines(lines: seq<string>) | Code(code: int)

  /** The three keys `mrunshex` writes for the key `k`. */
  function ExKeys(k: string): set<string>
  {
    {k, k + "_stderr", k + "_rcode"}
  }

  /** Every key of the pairs, the empty key included. */
  function AllKeys(cmds: seq<(string, Command)>): set<string>
    decreases |cmds|
  {
    if cmds == [] then {} else {cmds[0].0} + AllKeys(cmds[1..])
  }

  function AllExKeys(cmds: seq<(string, Command)>): set<string>
    decreases |cmds|
  {
    if cmds == [] then {} else ExKeys(cmds[0].0) + AllExKeys(cmds[1..])
  }

  /** The three entries `mrunshex` writes for the key `k`: stdout, stderr
      and the return code. */
  function ExAcc(acc: map<string, Value>, k: string, t: (string, string, int)): (r: map<string, Value>)
    ensures r.Keys == acc.Keys + ExKeys(k)
  {
    acc[k := Str(t.0)][k + "_stderr" := Str(t.1)][k + "_rcode" := Code(t.2)]
  }

  /** The process oracle: the next outcome, the alarm once it is used up. */
  function NextProc(procs: seq<Proc>): Proc
  {
    if procs == [] then Alarm else procs[0]
  }

  function Rest<T>(xs: seq<T>): seq<T>
  {
    if xs == [] then [] else xs[1..]
  }

  /** The `for k, cmd in cmds` loop of `mrunshex` from the pairs still to run:
      each command stores its stdout, stderr and return code under `k`,
      `k_stderr` and `k_rcode`, in that order; the first error ends it. */
  function MRunShExFrom(cmds: seq<(string, Command)>, procs: seq<Proc>, context: Option<string -> string>,
                        timeout: nat, c: Batch.Checks, unexpectedStderr: bool, acc: map<string, Value>)
    : Result<map<string, Value>, LocalError>
    decreases |cmds|
  {
    if cmds == [] then Ok(acc)
    else
      var (k, cmd) := cmds[0];
      match RunShEx(cmd, context, timeout, c, k, unexpectedStderr, NextProc(procs)).0
      case Err(e) => Err(e)
      case Ok(t) =>
        MRunShExFrom(cmds[1..], Rest(procs), context, timeout, c, unexpectedStderr, ExAcc(acc, k, t))
  }

  /** The loop of `mrunsh`: each command stores its lines under its key. */
  function MRunShFrom(cmds: seq<(string, Command)>, procs: seq<Proc>, context: Option<string -> string>,
                      timeout: nat, c: Batch.Checks, acc: map<string, Value>): Result<map<string, Value>, LocalError>
    decreases |cmds|
  {
    if cmds == [] then Ok(acc)
    else
      var (k, cmd) := cmds[0];
      match RunSh(cmd, context, timeout, c, k, NextProc(procs))
      case Err(e) => Err(e)
      case Ok(lines) => MRunShFrom(cmds[1..], Rest(procs), context, timeout, c, acc[k := Lines(lines)])
  }

  /** A finished `mrunshex` has written the three keys of every pair, the
      empty key included, and nothing else. */
  lemma {:induction false} MRunShExKeys(cmds: seq<(string, Command)>, procs: seq<Proc>, context: Option<string -> string>,
                                        timeout: nat, c: Batch.Checks, unexpectedStderr: bool, acc: map<string, Value>)
    decreases |cmds|
    ensures var r := MRunShExFrom(cmds, procs, context, timeout, c, unexpectedStderr, acc);
            r.Ok? ==> r.value.Keys == acc.Keys + AllExKeys(cmds)
  {
    if cmds != [] {
      var k := cmds[0].0;
      var res := RunShEx(cmds[0].1, context, timeout, c, k, unexpectedStderr, NextProc(procs)).0;
      MRunShExFromStep(cmds, procs, context, timeout, c, unexpectedStderr, acc);
      if res.Ok? {
        var next := ExAcc(acc, k, res.value);
        MRunShExKeys(cmds[1..], Rest(procs), context, timeout, c, unexpectedStderr, next);
        assert AllExKeys(cmds) == ExKeys(k) + AllExKeys(cmds[1..]);
        var r := MRunShExFrom(cmds[1..], Rest(procs), context, timeout, c, unexpectedStderr, next);
        if r.Ok? {
          calc {
            r.value.Keys;
            next.Keys + AllExKeys(cmds[1..]);
            acc.Keys + ExKeys(k) + AllExKeys(cmds[1..]);
            acc.Keys + AllExKeys(cmds);
          }
        }
      }
    }
  }

  /** `MRunShExFrom` on a non-empty batch, unfolded once. */
  lemma MRunShExFromStep(cmds: seq<(string, Command)>, procs: seq<Proc>, context: Option<string -> string>,
                         timeout: nat, c: Batch.Checks, unexpectedStderr: bool, acc: map<string, Value>)
    requires cmds != []
    ensures var res := RunShEx(cmds[0].1, context, timeout, c, cmds[0].0, unexpectedStderr, NextProc(procs)).0;
            MRunShExFrom(cmds, procs, context, timeout, c, unexpectedStderr, acc)
            == if res.Err? then Err(res.error)
               else MRunShExFrom(cmds[1..], Rest(procs), context, timeout, c, unexpectedStderr, ExAcc(acc, cmds[0].0, res.value))
  {
  }

  /** A finished `mrunsh` has a value for every key of the pairs and no other. */
  lemma {:induction false} MRunShKeys(cmds: seq<(string, Command)>, procs: seq<Proc>, context: Option<string -> string>,
                                      timeout: nat, c: Batch.Checks, acc: map<string, Value>)
    decreases |cmds|
    ensures var r := MRunShFrom(cmds, procs, context, timeout, c, acc);
            r.Ok? ==> r.value.Keys == acc.Keys + AllKeys(cmds)
  {
    if cmds != [] {
      var (k, cmd) := cmds[0];
      match RunSh(cmd, context, timeout, c, k, NextProc(procs))
      case Err(e) =>
      case Ok(lines) => MRunShKeys(cmds[1..], Rest(procs), context, timeout, c, acc[k := Lines(lines)]);
    }
  }

  /** An empty command anywhere in the batch makes it fail, unless an
      earlier pair already did. */
  lemma {:induction false} MRunShExEmptyCommand(cmds: seq<(string, Command)>, procs: seq<Proc>, context: Option<string -> string>,
                             timeout: nat, c: Batch.Checks, unexpectedStderr: bool, acc: map<string, Value>)
    requires cmds != [] && IsEmpty(cmds[0].1)
    ensures MRunShExFrom(cmds, procs, context, timeout, c, unexpectedStderr, acc) == Err(InvalidCommand("Command is empty"))
  {
  }

  /** `mrunshex(cmds, ...)`. */
  method MRunShEx(cmds: seq<(string, Command)>, procs: seq<Proc>, context: Option<string -> string>,
                  timeout: nat, c: Batch.Checks, unexpectedStderr: bool)
    returns (r: Result<map<string, Value>, LocalError>)
    ensures r == MRunShExFrom(cmds, procs, context, timeout, c, unexpectedStderr, map[])
  {
    var dct: map<string, Value> := map[];
    var pending := procs;
    var i := 0;
    while i < |cmds|
      invariant i <= |cmds|
      invariant MRunShExFrom(cmds[i..], pending, context, timeout, c, unexpectedStderr, dct)
                == MRunShExFrom(cmds, procs, context, timeout, c, unexpectedStderr, map[])
    {
      var (k, cmd) := cmds[i];
      assert cmds[i..][0] == (k, cmd) && cmds[i..][1..] == cmds[i + 1..];
      var (res, _) := RunShEx(cmd, context, timeout, c, k, unexpectedStderr, NextProc(pending));
      if res.Err? {
        return Err(res.error);
      }
      ghost var before := dct;
      var (out, err, rc) := res.value;
      dct := dct[k := Str(out)];
      dct := dct[k + "_stderr" := Str(err)];
      dct := dct[k + "_rcode" := Code(rc)];
      assert dct == ExAcc(before, k, res.value);
      pending := Rest(pending);
      i := i + 1;
    }
    return Ok(dct);
  }

  /** `mrunsh(cmds, ...)`. */
  method MRunSh(cmds: seq<(string, Command)>, procs: seq<Proc>, context: Option<string -> string>,
                timeout: nat, c: Batch.Checks)
    returns (r: Result<map<string, Value>, LocalError>)
    ensures r == MRunShFrom(cmds, procs, context, timeout, c, map[])
  {
    var dct: map<string, Value> := map[];
    var pending := procs;
    var i := 0;
    while i < |cmds|
      invariant i <= |cmds|
      invariant MRunShFrom(cmds[i..], pending, context, timeout, c, dct)
                == MRunShFrom(cmds, procs, context, timeout, c, map[])
    {
      var (k, cmd) := cmds[i];
      assert cmds[i..][0] == (k, cmd) && cmds[i..][1..] == cmds[i + 1..];
      var res := RunSh(cmd, context, timeout, c, k, NextProc(pending));
      if res.Err? {
        return Err(res.error);
      }
      dct := dct[k := Lines(res.value)];
      pending := Rest(pending);
      i := i + 1;
    }
    return Ok(dct);
  }

  // ---------------------------------------------------------------- ports

  /** `ports` of `search_invalid_port`: a comma-separated string or a list. */
  datatype Ports = PortText(text: string) | PortList(ports: seq<int>)

  /** `[int(n) for n in pieces]`, or `None` for the `ValueError`. */
  function ParseAll(pieces: seq<string>): (r: Option<seq<int>>)
    ensures r.Some? ==> |r.value| == |pieces| && forall k :: 0 <= k < |pieces| ==> ParseInt(pieces[k]) == Some(r.value[k])
    ensures r.None? ==> exists k :: 0 <= k < |pieces| && ParseInt(pieces[k]).None?
  {
    if pieces == [] then Some([])
    else
      match ParseInt(pieces[0])
      case None => None
      case Some(p) =>
        match ParseAll(pieces[1..])
        case None => None
        case Some(ps) => Some([p] + ps)
  }

  function PortsOf(ports: Ports): Option<seq<int>>
  {
    match ports
    case PortList(ps) => Some(ps)
    case PortText(t) => ParseAll(Split(t, ','))
  }

  /** `','.join(str(p) for p in ports)` reads back as the same ports. */
  lemma {:induction false} PortsRoundTrip(ports: seq<int>)
    requires ports != []
    ensures PortsOf(PortText(Join(Ints(ports), ","))) == Some(ports)
  {
    var texts := Ints(ports);
    forall k | 0 <= k < |texts| ensures ',' !in texts[k] {
      NoCommaInInt(ports[k]);
    }
    SplitJoin(texts, ',');
    ParseAllOfInts(ports);
  }

  /** `str(p)` for every port. */
  function Ints(ports: seq<int>): (r: seq<string>)
    ensures |r| == |ports| && forall k :: 0 <= k < |ports| ==> r[k] == IntToString(ports[k])
  {
    if ports == [] then [] else [IntToString(ports[0])] + Ints(ports[1..])
  }

  lemma {:induction false} NoCommaInInt(i: int)
    ensures ',' !in IntToString(i)
  {
    var s := IntToString(i);
    if i < 0 {
      assert s == "-" + NatToString(-i);
      assert forall k :: 1 <= k < |s| ==> s[k] == NatToString(-i)[k - 1];
    }
  }

  lemma {:induction false} ParseAllOfInts(ports: seq<int>)
    ensures ParseAll(Ints(ports)) == Some(ports)
  {
    if ports != [] {
      var t := Ints(ports);
      var rest := Ints(ports[1..]);
      assert t == [IntToString(ports[0])] + rest;
      assert t[0] == IntToString(ports[0]) && t[1..] == rest;
      ParseIntOfIntToString(ports[0]);
      ParseAllOfInts(ports[1..]);
      assert ParseAll(t) == Some([ports[0]] + ports[1..]);
      assert ports == [ports[0]] + ports[1..];
    }
  }

  /** The first port that cannot be reached, in list order. */
  function FirstInvalid(ports: seq<int>, reachable: int -> bool): Option<int>
  {
    if ports == [] then None
    else if !reachable(ports[0]) then Some(ports[0])
    else FirstInvalid(ports[1..], reachable)
  }

  /** `None` exactly when every port is reachable; otherwise a port of the
      list that is not, all ports before it being reachable. */
  lemma {:induction false} FirstInvalidSpec(ports: seq<int>, reachable: int -> bool)
    ensures FirstInvalid(ports, reachable).None? <==> forall k :: 0 <= k < |ports| ==> reachable(ports[k])
    ensures var r := FirstInvalid(ports, reachable);
            r.Some? ==> exists k :: 0 <= k < |ports| && ports[k] == r.value && !reachable(ports[k])
                                    && forall j :: 0 <= j < k ==> reachable(ports[j])
  {
    if ports != [] && reachable(ports[0]) {
      var rest := ports[1..];
      FirstInvalidSpec(rest, reachable);
      var r := FirstInvalid(rest, reachable);
      if r.Some? {
        var k :| 0 <= k < |rest| && rest[k] == r.value && !reachable(rest[k])
                 && forall j :: 0 <= j < k ==> reachable(rest[j]);
        assert ports[k + 1] == r.value;
        assert forall j :: 0 <= j < k + 1 ==> reachable(ports[j]) by {
          forall j | 0 <= j < k + 1 ensures reachable(ports[j]) {
            if j > 0 { assert ports[j] == rest[j - 1]; }
          }
        }
      } else {
        assert forall k :: 0 <= k < |ports| ==> reachable(ports[k]) by {
          forall k | 0 <= k < |ports| ensures reachable(ports[k]) {
            if k > 0 { assert ports[k] == rest[k - 1]; }
          }
        }
      }
    }
  }

  /** `search_invalid_port(ip, ports)`: the first unreachable port, `None`
      when all are reachable, or the `ValueError` of a piece that is no
      integer (`Err`). */
  method SearchInvalidPort(ports: Ports, reachable: int -> bool) returns (r: Result<Option<int>, string>)
    ensures PortsOf(ports).None? <==> r.Err?
    ensures r.Ok? ==> r.value == FirstInvalid(PortsOf(ports).value, reachable)
  {
    var ps: seq<int>;
    match ports {
      case PortList(l) =>
        ps := l;
      case PortText(t) =>
        var parsed := ParseAll(Split(t, ','));
        if parsed.None? {
          return Err("ValueError");
        }
        ps := parsed.value;
    }
    var first := FirstInvalidLoop(ps, reachable);
    return Ok(first);
  }

  /** The `for port in ports` loop of `search_invalid_port`. */
  method FirstInvalidLoop(ps: seq<int>, reachable: int -> bool) returns (r: Option<int>)
    ensures r == FirstInvalid(ps, reachable)
  {
    var i := 0;
    while i < |ps|
      invariant i <= |ps|
      invariant FirstInvalid(ps[i..], reachable) == FirstInvalid(ps, reachable)
    {
      if !reachable(ps[i]) {
        return Some(ps[i]);
      }
      assert ps[i..][1..] == ps[i + 1..];
      i := i + 1;
    }
    return None;
  }
}
