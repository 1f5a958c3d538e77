// The `Ssh` collector (naghelp/collect.py, class `Ssh`): commands run either
// with `exec_command` (no prompt pattern) or typed into an interactive shell
// read up to the prompt pattern.  The shell channel is a channel oracle; the
// answers of `exec_command` are a second oracle, a script of
// `(stdout, stderr)` pairs or socket timeouts; the refusal of
// `client.connect` is a parameter.
module SshSession {
  import opened Results
  import opened Text
  import opened Channel
  import opened ExpectSteps
  import opened Validate
  import opened CommandOutput
  import opened Batch

  /** One answer of `exec_command`: both streams read, or a socket timeout. */
  datatype Exec = Exec(stdout: string, stderr: string) | ExecTimeout

  /** The channel state, the `exec_command` answers still to come and the
      commands executed so far. */
  datatype SshState = SshState(chan: ChanState, execs: seq<Exec>, executed: seq<string>)

  datatype Config = Config(
    host: string,
    user: string,
    refusal: Option<string>,
    promptPattern: Option<string>,
    addStderr: bool,
    checks: Checks)

  /** The compiled prompt pattern, with a leading `^` rewritten. */
  function Prompt(cfg: Config): Pattern
    requires cfg.promptPattern.Some?
  {
    RewritePattern(cfg.promptPattern)
  }

  /** `__init__` opens an interactive shell only for a truthy prompt pattern. */
  predicate UsesShell(cfg: Config)
  {
    cfg.promptPattern.Some? && cfg.promptPattern.value != ""
  }

  /** `_read_to_prompt()`: the text read up to and including the prompt, or
      the socket timeout.  `Ssh` arms no alarm of its own, so a wait that
      matches nothing is always the channel's `socket.timeout`, which `run`,
      `run_script` and `mrun` catch. */
  function ReadToPrompt(cfg: Config, st: SshState): (r: (Option<string>, SshState))
    requires cfg.promptPattern.Some?
    ensures r.1.execs == st.execs && r.1.executed == st.executed
    ensures r.0.Some? <==> Head(st.chan.script).Matched? && Head(st.chan.script).index == 0
    ensures r.0.Some? ==> r.0.value == Head(st.chan.script).text
  {
    var (ch, reply) := PexpectOn(st.chan, [Prompt(cfg)]);
    (if reply.Found? then Some(ch.before) else None, st.(chan := ch))
  }

  /** The connection part of `__init__`. */
  function LoginOn(cfg: Config, st: SshState): (Result<(), SessionError>, SshState)
  {
    if cfg.host == "" then (Err(ConnectionFailed("No host specified for Ssh")), st)
    else if cfg.user == "" then (Err(ConnectionFailed("No user specified for Ssh")), st)
    else if cfg.refusal.Some? then (Err(ConnectionFailed(cfg.refusal.value)), st)
    else if !UsesShell(cfg) then (Ok(()), st)
    else
      var (r, st1) := ReadToPrompt(cfg, st);
      if r.None? then (Err(ConnectionFailed("timed out")), st1) else (Ok(()), st1)
  }

  /** The output `exec_command` gives for one answer: stdout, then stderr
      when `add_stderr`. */
  function ExecText(e: Exec, addStderr: bool): string
  {
    if e.ExecTimeout? then "" else e.stdout + (if addStderr then e.stderr else "")
  }

  /** `exec_command` without a prompt pattern: the command is recorded and
      the next answer used up; no answer or one that timed out is the
      deadline. */
  function ExecCmd(st: SshState, cmd: string, addStderr: bool): (CmdResult, SshState)
  {
    var st1 := st.(execs := if st.execs == [] then [] else st.execs[1..], executed := st.executed + [cmd]);
    if st.execs == [] || st.execs[0].ExecTimeout? then (CmdResult.Late, st1)
    else (Output(ExecText(st.execs[0], addStderr)), st1)
  }

  /** `_run_cmd(cmd)`: `exec_command` when the prompt pattern is None, the
      shell otherwise; an empty prompt pattern opened no shell, so reading
      `self.chan` fails. */
  function CmdOn(cfg: Config, st: SshState, cmd: string): (CmdResult, SshState)
  {
    if cfg.promptPattern.None? then ExecCmd(st, cmd, cfg.addStderr)
    else if cfg.promptPattern.value == "" then (Fatal(Unbound("chan")), st)
    else
      var st1 := st.(chan := st.chan.(log := st.chan.log + [Sent(cmd + "\n")]));
      var (out, st2) := ReadToPrompt(cfg, st1);
      if out.None? then (CmdResult.Late, st2) else (Output(PromptOutput(out.value, cmd)), st2)
  }

  function Runner(cfg: Config): (SshState, string) -> (CmdResult, SshState)
  {
    if cfg.promptPattern.None? then ExecRunner(cfg.addStderr) else (st, cmd) => CmdOn(cfg, st, cmd)
  }

  function ExecRunner(addStderr: bool): (SshState, string) -> (CmdResult, SshState)
  {
    (st, cmd) => ExecCmd(st, cmd, addStderr)
  }

  lemma {:induction false} RunnerIsCmdOn(cfg: Config, st: SshState, cmd: string)
    ensures Runner(cfg)(st, cmd) == CmdOn(cfg, st, cmd)
  {
  }

  function Closer(inWith: bool): SshState -> (Result<(), SessionError>, SshState)
  {
    (st: SshState) => if inWith then (Ok(()), st) else (Ok(()), st.(chan := st.chan.(log := st.chan.log + [Closed])))
  }

  /** A script line as run: stripped when `auto_strip`. */
  function ScriptLine(line: string, autoStrip: bool): string
  {
    if autoStrip then Strip(line) else line
  }

  /** The `for cmd in script.splitlines()` loop of `run_script` from the
      lines still to run: the output so far (or the timeout), the last line
      bound to `cmd`, and the final state. */
  function ScriptFrom<S>(run: (S, string) -> (CmdResult, S), st: S, lines: seq<string>, autoStrip: bool,
                         expand: string -> string, out: string, last: Option<string>): (CmdResult, Option<string>, S)
    decreases |lines|
  {
    if lines == [] then (Output(out), last, st)
    else
      var cmd := ScriptLine(lines[0], autoStrip);
      if cmd == "" then ScriptFrom(run, st, lines[1..], autoStrip, expand, out, Some(cmd))
      else
        var (res, st1) := run(st, expand(cmd));
        if !res.Output? then (res, Some(cmd), st1)
        else ScriptFrom(run, st1, lines[1..], autoStrip, expand, out + res.text, Some(cmd))
  }

  /** `run_script(script, ...)`: the output of every non-blank line, or the
      sentinel after a timeout; the close; then validation against the last
      line.  An empty script leaves `cmd` unbound. */
  function ScriptOnce(cfg: Config, inWith: bool, st: SshState, script: string, autoStrip: bool,
                      expand: string -> string, autoClose: bool, c: Checks): (Result<string, SessionError>, SshState)
  {
    var (res, last, st1) := ScriptFrom(Runner(cfg), st, SplitLines(script), autoStrip, expand, "", None);
    if res.Fatal? then (Err(res.error), st1)
    else
      var (_, st2) := if autoClose then Closer(inWith)(st1) else (Ok(()), st1);
      if last.None? then (Err(Unbound("cmd")), st2)
      else (Validated(OutputText(res), "", last.value, c), st2)
  }

  const NotConnectedMessage := "No ssh connection to run your command."

  class Ssh {
    const chan: Child
    const cfg: Config
    var execs: seq<Exec>
    var executed: seq<string>
    var inWith: bool
    var isConnected: bool

    function State(): SshState
      reads this, chan
    {
      SshState(chan.State(), execs, executed)
    }

    constructor (chan: Child, execs: seq<Exec>, host: string, user: string, refusal: Option<string>,
                 promptPattern: Option<string>, addStderr: bool, checks: Checks)
      ensures this.chan == chan && this.execs == execs && executed == [] && !inWith && !isConnected
      ensures cfg == Config(host, user, refusal, promptPattern, addStderr, checks)
    {
      this.chan := chan;
      this.execs := execs;
      executed := [];
      cfg := Config(host, user, refusal, promptPattern, addStderr, checks);
      inWith := false;
      isConnected := false;
    }

    method ReadToPromptM() returns (r: Option<string>)
      requires cfg.promptPattern.Some?
      modifies chan
      ensures (r, State()) == ReadToPrompt(cfg, old(State()))
    {
      var reply := chan.Expect([Prompt(cfg)]);
      r := if reply.Found? then Some(chan.before) else None;
    }

    /** The connection of `__init__`: `is_connected` is set only when the
        connection, and the first prompt in shell mode, succeed. */
    method Open() returns (r: Result<(), SessionError>)
      modifies this, chan
      ensures (r, State()) == LoginOn(cfg, old(State()))
      ensures isConnected == r.Ok? && inWith == old(inWith)
    {
      isConnected := false;
      if cfg.host == "" {
        return Err(ConnectionFailed("No host specified for Ssh"));
      }
      if cfg.user == "" {
        return Err(ConnectionFailed("No user specified for Ssh"));
      }
      if cfg.refusal.Some? {
        return Err(ConnectionFailed(cfg.refusal.value));
      }
      if UsesShell(cfg) {
        var out := ReadToPromptM();
        if out.None? {
          return Err(ConnectionFailed("timed out"));
        }
      }
      isConnected := true;
      return Ok(());
    }

    method Enter()
      modifies this
      ensures inWith && isConnected == old(isConnected)
      ensures State() == old(State())
    {
      inWith := true;
    }

    method Close()
      modifies this, chan
      ensures inWith == old(inWith)
      ensures State() == Closer(inWith)(old(State())).1
      ensures isConnected == (old(isConnected) && inWith)
    {
      if !inWith {
        chan.Close();
        isConnected := false;
      }
    }

    method Exit()
      modifies this, chan
      ensures !inWith && !isConnected
      ensures State() == Closer(false)(old(State())).1
    {
      inWith := false;
      Close();
    }

    /** `_run_cmd(cmd, timeout)`. */
    method RunCmd(cmd: string) returns (r: CmdResult)
      modifies this, chan
      ensures (r, State()) == CmdOn(cfg, old(State()), cmd)
      ensures inWith == old(inWith) && isConnected == old(isConnected)
    {
      if cfg.promptPattern.None? {
        executed := executed + [cmd];
        if execs == [] {
          return CmdResult.Late;
        }
        var e := execs[0];
        execs := execs[1..];
        if e.ExecTimeout? {
          return CmdResult.Late;
        }
        var out := e.stdout;
        if cfg.addStderr {
          out := out + e.stderr;
        }
        assert out == ExecText(e, cfg.addStderr);
        return Output(out);
      }
      if cfg.promptPattern.value == "" {
        return Fatal(Unbound("chan"));
      }
      chan.Send(cmd + "\n");
      var out := ReadToPromptM();
      if out.None? {
        return CmdResult.Late;
      }
      return Output(PromptOutput(out.value, cmd));
    }

    /** `run(cmd, ...)`. */
    method Run(cmd: string, autoClose: bool, expected: Setting<Option<Pat>>,
               unexpected: Setting<Option<Pat>>, filter: Setting<Option<Filter>>)
      returns (r: Result<string, SessionError>)
      modifies this, chan
      ensures !old(isConnected) ==> r == Err(NotConnected(NotConnectedMessage)) && State() == old(State())
      ensures old(isConnected) ==>
                (r, State()) == RunOnce(Runner(cfg), Closer(inWith), old(State()), cmd, cmd, autoClose,
                                        Effective(cfg.checks, expected, unexpected, filter))
      ensures inWith == old(inWith)
      ensures isConnected == (old(isConnected) && (inWith || !autoClose || CmdOn(cfg, old(State()), cmd).0.Fatal?))
    {
      if !isConnected {
        return Err(NotConnected(NotConnectedMessage));
      }
      var res := RunCmd(cmd);
      if res.Fatal? {
        return Err(res.error);
      }
      if autoClose {
        Close();
      }
      r := Validated(OutputText(res), "", cmd, Effective(cfg.checks, expected, unexpected, filter));
    }

    /** The `for cmd in script.splitlines()` loop of `run_script`. */
    method ScriptLoop(lines: seq<string>, autoStrip: bool, expand: string -> string)
      returns (res: CmdResult, last: Option<string>)
      modifies this, chan
      ensures (res, last, State()) == ScriptFrom(Runner(cfg), old(State()), lines, autoStrip, expand, "", None)
      ensures inWith == old(inWith) && isConnected == old(isConnected)
    {
      var out := "";
      last := None;
      var i := 0;
      ghost var goal := ScriptFrom(Runner(cfg), State(), lines, autoStrip, expand, "", None);
      while i < |lines|
        invariant i <= |lines| && inWith == old(inWith) && isConnected == old(isConnected)
        invariant ScriptFrom(Runner(cfg), State(), lines[i..], autoStrip, expand, out, last) == goal
        decreases |lines| - i
      {
        assert lines[i..][1..] == lines[i + 1..];
        var cmd := ScriptLine(lines[i], autoStrip);
        ghost var prev := State();
        if cmd != "" {
          var r := RunCmd(expand(cmd));
          RunnerIsCmdOn(cfg, prev, expand(cmd));
          ScriptStep(Runner(cfg), prev, lines[i..], autoStrip, expand, out, last, r, State());
          last := Some(cmd);
          if !r.Output? {
            return r, last;
          }
          out := out + r.text;
        } else {
          ScriptStep(Runner(cfg), prev, lines[i..], autoStrip, expand, out, last, CmdResult.Late, prev);
          last := Some(cmd);
        }
        i := i + 1;
      }
      assert lines[i..] == [];
      return Output(out), last;
    }

    /** `run_script(script, ...)`. */
    method RunScript(script: string, autoStrip: bool, expand: string -> string, autoClose: bool,
                     expected: Setting<Option<Pat>>, unexpected: Setting<Option<Pat>>,
                     filter: Setting<Option<Filter>>)
      returns (r: Result<string, SessionError>)
      modifies this, chan
      ensures !old(isConnected) ==> r == Err(NotConnected(NotConnectedMessage)) && State() == old(State())
      ensures old(isConnected) ==>
                (r, State()) == ScriptOnce(cfg, inWith, old(State()), script, autoStrip, expand, autoClose,
                                           Effective(cfg.checks, expected, unexpected, filter))
      ensures inWith == old(inWith)
      ensures isConnected == (old(isConnected) && (inWith || !autoClose
                              || ScriptFrom(Runner(cfg), old(State()), SplitLines(script), autoStrip, expand, "", None).0.Fatal?))
    {
      if !isConnected {
        return Err(NotConnected(NotConnectedMessage));
      }
      var res, last := ScriptLoop(SplitLines(script), autoStrip, expand);
      if res.Fatal? {
        return Err(res.error);
      }
      if autoClose {
        Close();
      }
      if last.None? {
        return Err(Unbound("cmd"));
      }
      r := Validated(OutputText(res), "", last.value, Effective(cfg.checks, expected, unexpected, filter));
    }

    /** The `for k, cmd in cmds` loop of `mrun`. */
    method MRunLoop(cmds: seq<(string, string)>, c: Checks) returns (r: Result<map<string, string>, SessionError>)
      modifies this, chan
      ensures (r, State()) == MRunFrom(Runner(cfg), old(State()), cmds, c, false, map[])
      ensures inWith == old(inWith) && isConnected == old(isConnected)
    {
      var dct: map<string, string> := map[];
      var i := 0;
      while i < |cmds|
        invariant i <= |cmds| && inWith == old(inWith) && isConnected == old(isConnected)
        invariant MRunFrom(Runner(cfg), State(), cmds[i..], c, false, dct)
                  == MRunFrom(Runner(cfg), old(State()), cmds, c, false, map[])
      {
        var (k, cmd) := cmds[i];
        assert cmds[i..][1..] == cmds[i + 1..];
        ghost var prev := State();
        var res := RunCmd(cmd);
        RunnerIsCmdOn(cfg, prev, cmd);
        MRunStep(Runner(cfg), prev, cmds[i..], c, false, dct, res, State());
        if res.Fatal? {
          return Err(res.error);
        }
        if k != "" {
          var v := Validated(OutputText(res), k, cmd, c);
          if v.Err? {
            return Err(v.error);
          }
          dct := dct[k := v.value];
        }
        i := i + 1;
      }
      assert cmds[i..] == [];
      return Ok(dct);
    }

    /** `mrun(cmds, ...)`. */
    method MRun(cmds: seq<(string, string)>, autoClose: bool, expected: Setting<Option<Pat>>,
                unexpected: Setting<Option<Pat>>, filter: Setting<Option<Filter>>)
      returns (r: Result<map<string, string>, SessionError>)
      modifies this, chan
      ensures !old(isConnected) ==> r == Err(NotConnected(NotConnectedMessage)) && State() == old(State())
      ensures old(isConnected) ==>
                (r, State()) == MRunOnce(Runner(cfg), Closer(inWith), old(State()), cmds, autoClose,
                                         Effective(cfg.checks, expected, unexpected, filter), false)
      ensures inWith == old(inWith)
      ensures isConnected == (old(isConnected) && (inWith || !autoClose
                              || MRunFrom(Runner(cfg), old(State()), cmds, Effective(cfg.checks, expected, unexpected, filter), false, map[]).0.Err?))
    {
      if !isConnected {
        return Err(NotConnected(NotConnectedMessage));
      }
      r := MRunLoop(cmds, Effective(cfg.checks, expected, unexpected, filter));
      if r.Ok? && autoClose {
        Close();
      }
    }
  }

  // ---------------------------------------------------------------- properties

  /** The lines of a script that are run, in order. */
  function NonBlank(lines: seq<string>, autoStrip: bool): (r: seq<string>)
    ensures |r| <= |lines|
    ensures forall k :: 0 <= k < |r| ==> r[k] != ""
  {
    if lines == [] then []
    else
      var cmd := ScriptLine(lines[0], autoStrip);
      (if cmd == "" then [] else [cmd]) + NonBlank(lines[1..], autoStrip)
  }

  /** Without a prompt pattern, an answer of `exec_command` is the command's
      output, and the command is recorded. */
  lemma {:induction false} ExecAnswer(cfg: Config, st: SshState, cmd: string)
    requires cfg.promptPattern.None? && st.execs != [] && st.execs[0].Exec?
    ensures CmdOn(cfg, st, cmd)
            == (Output(ExecText(st.execs[0], cfg.addStderr)), st.(execs := st.execs[1..], executed := st.executed + [cmd]))
  {
  }

  /** One turn of the script loop: a blank line is skipped, a command
      that does not give an output ends the script, and an output is added
      before the next line. */
  lemma {:induction false} ScriptStep<S>(run: (S, string) -> (CmdResult, S), st: S, lines: seq<string>, autoStrip: bool,
                                         expand: string -> string, out: string, last: Option<string>, res: CmdResult, st1: S)
    requires lines != []
    requires ScriptLine(lines[0], autoStrip) != "" ==> run(st, expand(ScriptLine(lines[0], autoStrip))) == (res, st1)
    ensures var cmd := ScriptLine(lines[0], autoStrip);
            cmd == "" ==> ScriptFrom(run, st, lines, autoStrip, expand, out, last)
                          == ScriptFrom(run, st, lines[1..], autoStrip, expand, out, Some(cmd))
    ensures var cmd := ScriptLine(lines[0], autoStrip);
            cmd != "" && !res.Output? ==> ScriptFrom(run, st, lines, autoStrip, expand, out, last) == (res, Some(cmd), st1)
    ensures var cmd := ScriptLine(lines[0], autoStrip);
            cmd != "" && res.Output? ==> ScriptFrom(run, st, lines, autoStrip, expand, out, last)
                                         == ScriptFrom(run, st1, lines[1..], autoStrip, expand, out + res.text, Some(cmd))
  {
  }

  /** The concatenated outputs of the first `n` answers. */
  function Outputs(execs: seq<Exec>, n: nat, addStderr: bool): string
    requires n <= |execs|
  {
    if n == 0 then "" else ExecText(execs[0], addStderr) + Outputs(execs[1..], n - 1, addStderr)
  }

  lemma {:induction false} OutputsStep(out: string, execs: seq<Exec>, n: nat, addStderr: bool)
    requires n < |execs|
    ensures out + Outputs(execs, n + 1, addStderr) == out + ExecText(execs[0], addStderr) + Outputs(execs[1..], n, addStderr)
  {
    AppendAssoc(out, ExecText(execs[0], addStderr), Outputs(execs[1..], n, addStderr));
  }

  /** Enough answers, all of them outputs, for the non-blank lines. */
  predicate Answered(st: SshState, lines: seq<string>, autoStrip: bool)
  {
    |NonBlank(lines, autoStrip)| <= |st.execs| && forall k :: 0 <= k < |NonBlank(lines, autoStrip)| ==> st.execs[k].Exec?
  }

  /** A non-blank line with an answer adds the answer's output and uses the
      answer up; the next lines still have theirs. */
  lemma {:induction false} ScriptExecStep(addStderr: bool, st: SshState, lines: seq<string>, autoStrip: bool,
                                          expand: string -> string, out: string, last: Option<string>)
    requires lines != [] && ScriptLine(lines[0], autoStrip) != ""
    requires Answered(st, lines, autoStrip)
    ensures var cmd := ScriptLine(lines[0], autoStrip);
            var st1 := st.(execs := st.execs[1..], executed := st.executed + [expand(cmd)]);
            && ScriptFrom(ExecRunner(addStderr), st, lines, autoStrip, expand, out, last)
               == ScriptFrom(ExecRunner(addStderr), st1, lines[1..], autoStrip, expand, out + ExecText(st.execs[0], addStderr), Some(cmd))
            && Answered(st1, lines[1..], autoStrip)
  {
    var cmd := ScriptLine(lines[0], autoStrip);
    var rest := NonBlank(lines[1..], autoStrip);
    assert NonBlank(lines, autoStrip) == [cmd] + rest;
    var st1 := st.(execs := st.execs[1..], executed := st.executed + [expand(cmd)]);
    assert st.execs[0].Exec?;
    assert ExecRunner(addStderr)(st, expand(cmd)) == (Output(ExecText(st.execs[0], addStderr)), st1);
    ScriptStep(ExecRunner(addStderr), st, lines, autoStrip, expand, out, last, Output(ExecText(st.execs[0], addStderr)), st1);
    forall k | 0 <= k < |rest| ensures st1.execs[k].Exec? {
      assert st1.execs[k] == st.execs[k + 1];
    }
  }

  /** A blank line runs nothing: the script goes on from the next line. */
  lemma ScriptBlankStep(addStderr: bool, st: SshState, lines: seq<string>, autoStrip: bool,
                        expand: string -> string, out: string, last: Option<string>)
    requires lines != [] && ScriptLine(lines[0], autoStrip) == ""
    requires Answered(st, lines, autoStrip)
    ensures ScriptFrom(ExecRunner(addStderr), st, lines, autoStrip, expand, out, last)
            == ScriptFrom(ExecRunner(addStderr), st, lines[1..], autoStrip, expand, out, Some(""))
    ensures NonBlank(lines, autoStrip) == NonBlank(lines[1..], autoStrip)
    ensures Answered(st, lines[1..], autoStrip)
  {
    assert NonBlank(lines, autoStrip) == [] + NonBlank(lines[1..], autoStrip);
  }

  lemma {:induction false} ExecScriptOutput(addStderr: bool, st: SshState, lines: seq<string>, autoStrip: bool,
                                            expand: string -> string, out: string, last: Option<string>)
    requires Answered(st, lines, autoStrip)
    decreases |lines|
    ensures ScriptFrom(ExecRunner(addStderr), st, lines, autoStrip, expand, out, last).0
            == Output(out + Outputs(st.execs, |NonBlank(lines, autoStrip)|, addStderr))
  {
    if lines != [] {
      var cmd := ScriptLine(lines[0], autoStrip);
      var rest := NonBlank(lines[1..], autoStrip);
      if cmd == "" {
        ScriptBlankStep(addStderr, st, lines, autoStrip, expand, out, last);
        ExecScriptOutput(addStderr, st, lines[1..], autoStrip, expand, out, Some(cmd));
      } else {
        assert NonBlank(lines, autoStrip) == [cmd] + rest;
        var n := |rest|;
        var st1 := st.(execs := st.execs[1..], executed := st.executed + [expand(cmd)]);
        var o := ExecText(st.execs[0], addStderr);
        ScriptExecStep(addStderr, st, lines, autoStrip, expand, out, last);
        ExecScriptOutput(addStderr, st1, lines[1..], autoStrip, expand, out + o, Some(cmd));
        OutputsStep(out, st.execs, n, addStderr);
        ghost var whole := ScriptFrom(ExecRunner(addStderr), st, lines, autoStrip, expand, out, last);
        ghost var tail := ScriptFrom(ExecRunner(addStderr), st1, lines[1..], autoStrip, expand, out + o, Some(cmd));
        assert whole == tail;
        assert tail.0 == Output(out + o + Outputs(st.execs[1..], n, addStderr));
        assert whole.0 == Output(out + Outputs(st.execs, n + 1, addStderr));
        assert |NonBlank(lines, autoStrip)| == n + 1;
      }
    }
  }

  lemma {:induction false} ExecScriptRuns(addStderr: bool, st: SshState, lines: seq<string>, autoStrip: bool,
                                          expand: string -> string, out: string, last: Option<string>)
    requires Answered(st, lines, autoStrip)
    decreases |lines|
    ensures ScriptFrom(ExecRunner(addStderr), st, lines, autoStrip, expand, out, last).2.executed
            == st.executed + Mapped(NonBlank(lines, autoStrip), expand)
    ensures ScriptFrom(ExecRunner(addStderr), st, lines, autoStrip, expand, out, last).2.execs == st.execs[|NonBlank(lines, autoStrip)|..]
  {
    if lines != [] {
      var cmd := ScriptLine(lines[0], autoStrip);
      var rest := NonBlank(lines[1..], autoStrip);
      if cmd == "" {
        ScriptBlankStep(addStderr, st, lines, autoStrip, expand, out, last);
        ExecScriptRuns(addStderr, st, lines[1..], autoStrip, expand, out, Some(cmd));
      } else {
        assert NonBlank(lines, autoStrip) == [cmd] + rest;
        var st1 := st.(execs := st.execs[1..], executed := st.executed + [expand(cmd)]);
        var o := ExecText(st.execs[0], addStderr);
        ScriptExecStep(addStderr, st, lines, autoStrip, expand, out, last);
        ExecScriptRuns(addStderr, st1, lines[1..], autoStrip, expand, out + o, Some(cmd));
        var xs := Mapped(rest, expand);
        MappedCons(expand(cmd), rest, expand);
        AppendAssoc(st.executed, [expand(cmd)], xs);
        DropDrop(st.execs, |rest|);
        var fin := ScriptFrom(ExecRunner(addStderr), st1, lines[1..], autoStrip, expand, out + o, Some(cmd)).2;
        assert fin.executed == st1.executed + xs && fin.execs == st1.execs[|rest|..];
      }
    }
  }

  /** Without a prompt pattern, and with an answer for every line, the
      output of a script is the concatenation of the outputs of its
      non-blank lines, and exactly one answer is used per such line. */
  lemma {:induction false} ScriptOutput(cfg: Config, st: SshState, lines: seq<string>, autoStrip: bool,
                                        expand: string -> string, out: string, last: Option<string>)
    requires cfg.promptPattern.None?
    requires |NonBlank(lines, autoStrip)| <= |st.execs|
    requires forall k :: 0 <= k < |NonBlank(lines, autoStrip)| ==> st.execs[k].Exec?
    ensures ScriptFrom(Runner(cfg), st, lines, autoStrip, expand, out, last).0
            == Output(out + Outputs(st.execs, |NonBlank(lines, autoStrip)|, cfg.addStderr))
  {
    ExecScriptOutput(cfg.addStderr, st, lines, autoStrip, expand, out, last);
  }

  /** Without a prompt pattern, and with an answer for every line, a script
      runs its non-blank lines (stripped when asked, then formatted) one
      `exec_command` each, in order, and uses up one answer per line. */
  lemma {:induction false} ScriptRunsNonBlankLines(cfg: Config, st: SshState, lines: seq<string>, autoStrip: bool,
                                                   expand: string -> string, out: string, last: Option<string>)
    requires cfg.promptPattern.None?
    requires |NonBlank(lines, autoStrip)| <= |st.execs|
    requires forall k :: 0 <= k < |NonBlank(lines, autoStrip)| ==> st.execs[k].Exec?
    ensures ScriptFrom(Runner(cfg), st, lines, autoStrip, expand, out, last).2.executed
            == st.executed + Mapped(NonBlank(lines, autoStrip), expand)
    ensures ScriptFrom(Runner(cfg), st, lines, autoStrip, expand, out, last).2.execs == st.execs[|NonBlank(lines, autoStrip)|..]
  {
    ExecScriptRuns(cfg.addStderr, st, lines, autoStrip, expand, out, last);
  }

  /** A script with no line at all never binds `cmd`: `run_script` fails
      after closing. */
  lemma {:induction false} EmptyScriptUnbound(cfg: Config, inWith: bool, st: SshState, autoStrip: bool, expand: string -> string,
                           autoClose: bool, c: Checks)
    ensures ScriptOnce(cfg, inWith, st, "", autoStrip, expand, autoClose, c).0 == Err(Unbound("cmd"))
  {
    SplitLinesEmpty("");
  }

  /** A timeout stops the script: the remaining lines are not run and the
      output is the sentinel, validated against the line that timed out. */
  lemma {:induction false} ScriptStopsAtTimeout<S>(run: (S, string) -> (CmdResult, S), st: S, lines: seq<string>, autoStrip: bool,
                                expand: string -> string, out: string, last: Option<string>)
    requires lines != [] && ScriptLine(lines[0], autoStrip) != ""
    requires run(st, expand(ScriptLine(lines[0], autoStrip))).0.Late?
    ensures ScriptFrom(run, st, lines, autoStrip, expand, out, last)
            == (CmdResult.Late, Some(ScriptLine(lines[0], autoStrip)), run(st, expand(ScriptLine(lines[0], autoStrip))).1)
  {
  }

  /** An empty prompt pattern is falsy for `__init__`, which then opens no
      shell and reads nothing, but not None for `_run_cmd`, which then reads
      the missing channel: such a session connects and fails on its first
      command. */
  lemma {:induction false} EmptyPromptHasNoChannel(cfg: Config, st: SshState, cmd: string)
    requires cfg.promptPattern == Some("") && cfg.host != "" && cfg.user != "" && cfg.refusal.None?
    ensures LoginOn(cfg, st) == (Ok(()), st)
    ensures CmdOn(cfg, st, cmd) == (Fatal(Unbound("chan")), st)
  {
  }

  /** The host and user checks come first and touch nothing. */
  lemma {:induction false} LoginChecksFirst(cfg: Config, st: SshState)
    requires cfg.host == "" || cfg.user == ""
    ensures LoginOn(cfg, st) == (Err(ConnectionFailed(if cfg.host == "" then "No host specified for Ssh"
                                                      else "No user specified for Ssh")), st)
  {
  }

  /** In shell mode a command read up to the prompt gives the text between
      the echoed command line and the prompt line. */
  lemma {:induction false} CmdOutputOfTranscript(cfg: Config, st: SshState, pre: string, cmd: string, body: string, prompt: string)
    requires UsesShell(cfg)
    requires '\r' !in pre + cmd + body + prompt
    requires Find(pre + cmd + "\n" + body + "\n" + prompt, cmd) == Some(|pre|)
    requires body == [] || body[0] != '\n'
    requires prompt != [] && forall k :: 0 <= k < |prompt| ==> !IsLineBreak(prompt[k])
    requires Head(st.chan.script) == Matched(0, pre + cmd + "\n" + body + "\n" + prompt)
    ensures CmdOn(cfg, st, cmd).0 == Output(body)
  {
    PromptOutputOfTranscript(pre, cmd, body, prompt);
  }
}
