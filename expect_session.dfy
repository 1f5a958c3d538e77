// The `Expect` collector (naghelp/collect.py, class `Expect`): a spawned
// interactive command driven by login steps up to a prompt, then commands run
// at that prompt, then a logout.
module ExpectSession {
  import opened Results
  import opened Text
  import opened Channel
  import opened ExpectSteps
  import opened Validate
  import opened CommandOutput
  import opened Batch

  /** The constructor's arguments, after normalisation. */
  datatype Config = Config(
    spawn: string,
    loginSteps: seq<Step>,
    prompt: Option<string>,
    logoutCmd: Option<string>,
    logoutSteps: seq<Step>,
    expand: string -> string,
    checks: Checks)

  /** `login_steps` / `logout_steps` as given: `None`, one bare pair, or a
      tuple of steps; a falsy value is no step at all. */
  function NormalizeProgram(p: Option<Program>): (r: seq<Step>)
    ensures p.None? ==> r == []
    ensures p.Some? ==> r == ProgramSteps(p.value)
  {
    if p.None? then [] else ProgramSteps(p.value)
  }

  predicate Truthy(s: Option<string>)
  {
    s.Some? && s.value != ""
  }

  /** The steps run at construction: the login steps, then waiting for the
      prompt with no answer. */
  function LoginProgram(cfg: Config): (r: seq<Step>)
    ensures |r| == |cfg.loginSteps| + (if Truthy(cfg.prompt) then 1 else 0)
    ensures r[..|cfg.loginSteps|] == cfg.loginSteps
    ensures Truthy(cfg.prompt) ==> r[|r| - 1] == Bare(cfg.prompt.value, NoAnswer)
  {
    cfg.loginSteps + (if Truthy(cfg.prompt) then [Bare(cfg.prompt.value, NoAnswer)] else [])
  }

  lemma {:induction false} LoginProgramWellFormed(cfg: Config)
    requires WellFormed(cfg.loginSteps)
    ensures WellFormed(LoginProgram(cfg))
  {
    var r := LoginProgram(cfg);
    forall i | 0 <= i < |r| ensures |Alternatives(r[i])| > 0 {
      if i < |cfg.loginSteps| { assert r[i] == cfg.loginSteps[i]; }
    }
  }

  /** The login at construction: the state after it and whether it failed. */
  function LoginOn(cfg: Config, st: ChanState): (Result<(), SessionError>, ChanState)
  {
    var steps := LoginProgram(cfg);
    if steps == [] then (Ok(()), st)
    else
      var (r, st1) := RunProgram(Ctx(steps, cfg.expand, cfg.spawn), st);
      if r.Err? then (Err(Collect(r.error)), st1)
      else if r.value != "" then (Err(ConnectionFailed(r.value)), st1)
      else (Ok(()), st1)
  }

  /** Login steps with no empty step never make the login fail on the
      `IndexError` of an empty step. */
  lemma {:induction false} LoginNeverEmptyStep(cfg: Config, st: ChanState)
    requires WellFormed(cfg.loginSteps)
    ensures LoginOn(cfg, st).0 != Err(Collect(EmptyStep))
  {
    var steps := LoginProgram(cfg);
    if steps != [] {
      LoginProgramWellFormed(cfg);
      WellFormedNeverEmptyStep(Ctx(steps, cfg.expand, cfg.spawn), st, 0, 0);
    }
  }

  /** `close()` outside a `with` block: the logout command, the logout steps
      (whose error escapes), then `kill(0)`. */
  function CloseOn(cfg: Config, st: ChanState): (Result<(), SessionError>, ChanState)
  {
    var st1 := if Truthy(cfg.logoutCmd) then st.(log := st.log + [SentLine(cfg.logoutCmd.value)]) else st;
    if cfg.logoutSteps == [] then (Ok(()), st1.(log := st1.log + [Killed(0)]))
    else
      var (r, st2) := RunProgram(Ctx(cfg.logoutSteps, cfg.expand, cfg.spawn), st1);
      if r.Err? then (Err(Collect(r.error)), st2)
      else (Ok(()), st2.(log := st2.log + [Killed(0)]))
  }

  /** The text the echo is searched for: `'%s' % cmd`. */
  function CmdText(cmd: Option<string>): string
  {
    if cmd.None? then "None" else cmd.value
  }

  /** `_run_cmd(cmd)`: send the command when it is truthy, wait for the
      prompt, clean up what came before it.  The caller's alarm is a late
      command (`run`/`mrun` catch its `TimeoutError`); `pexpect.TIMEOUT`
      is caught nowhere and escapes like the EOF error. */
  function CmdOn(cfg: Config, st: ChanState, cmd: Option<string>): (CmdResult, ChanState)
  {
    var st1 := if Truthy(cmd) then st.(log := st.log + [SentLine(cmd.value)]) else st;
    var (st2, reply) := PexpectOn(st1, [RewritePattern(cfg.prompt)]);
    match reply
    case Found(_) => (Output(ExpectOutputAsWritten(st2.before, CmdText(cmd))), st2)
    case Eof => (Fatal(Collect(NoMoreData(cfg.spawn))), st2)
    case TimedOut => (CmdResult.Late, st2)
    case OwnTimeout => (Fatal(Collect(ChannelTimeout)), st2)
  }

  /** `_run_cmd` as the batch loop uses it. */
  function Runner(cfg: Config): (ChanState, string) -> (CmdResult, ChanState)
  {
    (st, cmd) => CmdOn(cfg, st, Some(cmd))
  }

  /** `close()` in a state where it is not inside a `with` block, or a no-op inside one. */
  function Closer(cfg: Config, inWith: bool): ChanState -> (Result<(), SessionError>, ChanState)
  {
    st => if inWith then (Ok(()), st) else CloseOn(cfg, st)
  }

  const NotConnectedMessage := "No expect connection to run your command."

  class Expect {
    const child: Child
    const cfg: Config
    var inWith: bool
    var isConnected: bool

    /** The fields, before the spawned command is driven through the login. */
    constructor (child: Child, spawn: string, loginSteps: Option<Program>, prompt: Option<string>,
                 logoutCmd: Option<string>, logoutSteps: Option<Program>, expand: string -> string,
                 checks: Checks)
      ensures this.child == child && !inWith && !isConnected
      ensures cfg == Config(spawn, NormalizeProgram(loginSteps), prompt, logoutCmd,
                            NormalizeProgram(logoutSteps), expand, checks)
    {
      this.child := child;
      cfg := Config(spawn, NormalizeProgram(loginSteps), prompt, logoutCmd, NormalizeProgram(logoutSteps),
                    expand, checks);
      inWith := false;
      isConnected := false;
    }

    /** `_expect_steps(steps)`: the while loop over the step index, proved to
        compute exactly `RunProgram`. */
    method FollowSteps(steps: seq<Step>) returns (r: Result<string, CollectError>)
      modifies child
      ensures (r, child.State()) == RunProgram(Ctx(steps, cfg.expand, cfg.spawn), old(child.State()))
    {
      ghost var ctx := Ctx(steps, cfg.expand, cfg.spawn);
      var step: nat := 0;
      var loop: nat := 0;
      while step < |steps|
        invariant loop <= 10
        invariant RunSteps(ctx, child.State(), step, loop) == RunProgram(ctx, old(child.State()))
        decreases |steps| - step, 10 - loop
      {
        var done, res, step2, loop2 := StepOnce(steps, step, loop);
        if done {
          return res;
        }
        step, loop := step2, loop2;
      }
      return Ok("");
    }

    /** One pass of the loop body: wait for the step's patterns and its
        lookahead's, answer, then advance or count the pass. */
    method StepOnce(steps: seq<Step>, step: nat, loop: nat)
      returns (done: bool, r: Result<string, CollectError>, step2: nat, loop2: nat)
      requires step < |steps| && loop <= 10
      modifies child
      ensures var t := Iterate(Ctx(steps, cfg.expand, cfg.spawn), old(child.State()), step, loop);
              if done then t == Finish(r, child.State()) else t == Continue(child.State(), step2, loop2)
    {
      var own := Alternatives(steps[step]);
      if own == [] {
        return true, Err(EmptyStep), step, loop;
      }
      var expects := own;
      var patterns: seq<Pattern> := [];
      var found: nat := 0;
      if !SoleEof(own) {
        if step + 1 < |steps| {
          var next := Alternatives(steps[step + 1]);
          if next == [] {
            return true, Err(EmptyStep), step, loop;
          }
          expects := expects + next;
        }
        patterns := Patterns(expects);
        var reply := child.Expect(patterns);
        match reply {
          case Eof =>
            return true, Err(NoMoreData(cfg.spawn)), step, loop;
          case TimedOut =>
            return true, Err(DeadlineExceeded), step, loop;
          case OwnTimeout =>
            return true, Err(ChannelTimeout), step, loop;
          case Found(i) =>
            found := i;
        }
      }
      done, r, step2, loop2 := Answer(steps, step, loop, expects, |own|, found, patterns);
    }

    /** Answer dispatch, then the advance test and the loop guard. */
    method Answer(steps: seq<Step>, step: nat, loop: nat, expects: seq<Alternative>, nbBase: nat, found: nat,
                  patterns: seq<Pattern>)
      returns (done: bool, r: Result<string, CollectError>, step2: nat, loop2: nat)
      requires step < |steps| && found < |expects|
      requires found >= nbBase ==> step + 1 < |steps|
      modifies child
      ensures var t := Dispatch(Ctx(steps, cfg.expand, cfg.spawn), old(child.State()), step, loop, expects, nbBase,
                                found, patterns);
              if done then t == Finish(r, child.State()) else t == Continue(child.State(), step2, loop2)
    {
      match expects[found].answer {
        case SendText(tpl) =>
          var s := cfg.expand(tpl);
          if s != [] && s[|s| - 1] == '\n' {
            child.SendLine(s[..|s| - 1]);
          } else {
            child.Send(s);
          }
        case Kill =>
          var msg := child.before + ".";
          child.Kill(0);
          return true, Ok(msg), step, loop;
        case Break =>
          return true, Ok(""), step, loop;
        case Response =>
          return true, Ok(child.before + "."), step, loop;
        case NoAnswer =>
      }
      done, r, step2, loop2 := false, Ok(""), step, loop;
      if found >= nbBase {
        step2, loop2 := step + 1, 0;
        if step2 == |steps| - 1 {
          return true, Ok(""), step2, loop2;
        }
      }
      loop2 := loop2 + 1;
      if loop2 > 10 {
        return true, Err(TooManyExpect(patterns)), step2, loop2;
      }
    }

    /** The login of `__init__`: `is_connected` is set only when the steps
        end without error and without a message. */
    method Open() returns (r: Result<(), SessionError>)
      modifies this, child
      ensures (r, child.State()) == LoginOn(cfg, old(child.State()))
      ensures isConnected == r.Ok? && inWith == old(inWith)
    {
      isConnected := false;
      var steps := LoginProgram(cfg);
      if steps != [] {
        var msg := FollowSteps(steps);
        if msg.Err? {
          return Err(Collect(msg.error));
        }
        if msg.value != "" {
          return Err(ConnectionFailed(msg.value));
        }
      }
      isConnected := true;
      return Ok(());
    }

    /** `__enter__`. */
    method Enter()
      modifies this
      ensures inWith && isConnected == old(isConnected)
    {
      inWith := true;
    }

    /** `close()`: nothing inside a `with` block; otherwise the connection is
        marked closed first, and the logout is sent again on every call. */
    method Close() returns (r: Result<(), SessionError>)
      modifies this, child
      ensures inWith == old(inWith)
      ensures (r, child.State()) == Closer(cfg, inWith)(old(child.State()))
      ensures isConnected == (old(isConnected) && inWith)
    {
      if !inWith {
        isConnected := false;
        if Truthy(cfg.logoutCmd) {
          child.SendLine(cfg.logoutCmd.value);
        }
        if cfg.logoutSteps != [] {
          var m := FollowSteps(cfg.logoutSteps);
          if m.Err? {
            return Err(Collect(m.error));
          }
        }
        child.Kill(0);
      }
      return Ok(());
    }

    /** `__exit__`: leave the block, then close. */
    method Exit() returns (r: Result<(), SessionError>)
      modifies this, child
      ensures !inWith && !isConnected
      ensures (r, child.State()) == CloseOn(cfg, old(child.State()))
    {
      inWith := false;
      r := Close();
    }

    /** `_run_cmd(cmd)`. */
    method RunCmd(cmd: Option<string>) returns (r: CmdResult)
      modifies child
      ensures (r, child.State()) == CmdOn(cfg, old(child.State()), cmd)
    {
      if Truthy(cmd) {
        child.SendLine(cmd.value);
      }
      var reply := child.Expect([RewritePattern(cfg.prompt)]);
      match reply
      case Found(_) =>
        r := Output(ExpectOutputAsWritten(child.before, CmdText(cmd)));
      case Eof =>
        r := Fatal(Collect(NoMoreData(cfg.spawn)));
      case TimedOut =>
        r := CmdResult.Late;
      case OwnTimeout =>
        r := Fatal(Collect(ChannelTimeout));
    }

    /** `run(cmd, ...)`. */
    method Run(cmd: Option<string>, autoClose: bool, expected: Setting<Option<Pat>>,
               unexpected: Setting<Option<Pat>>, filter: Setting<Option<Filter>>)
      returns (r: Result<string, SessionError>)
      modifies this, child
      ensures !old(isConnected) ==> r == Err(NotConnected(NotConnectedMessage)) && child.State() == old(child.State())
      ensures old(isConnected) ==>
                (r, child.State()) == RunOnce((st, c) => CmdOn(cfg, st, cmd), Closer(cfg, inWith), old(child.State()),
                                              CmdText(cmd), CmdText(cmd), autoClose,
                                              Effective(cfg.checks, expected, unexpected, filter))
      ensures inWith == old(inWith)
      ensures isConnected == (old(isConnected) && (inWith || !autoClose || CmdOn(cfg, old(child.State()), cmd).0.Fatal?))
    {
      if !isConnected {
        return Err(NotConnected(NotConnectedMessage));
      }
      var res := RunCmd(cmd);
      if res.Fatal? {
        return Err(res.error);
      }
      if autoClose {
        var cr := Close();
        if cr.Err? {
          return Err(cr.error);
        }
      }
      r := Validated(OutputText(res), "", CmdText(cmd), Effective(cfg.checks, expected, unexpected, filter));
    }

    /** The `for k, cmd in cmds` loop of `mrun`. */
    method MRunLoop(cmds: seq<(string, string)>, c: Checks) returns (r: Result<map<string, string>, SessionError>)
      modifies child
      ensures (r, child.State()) == MRunFrom(Runner(cfg), old(child.State()), cmds, c, false, map[])
    {
      var dct: map<string, string> := map[];
      var i := 0;
      while i < |cmds|
        invariant i <= |cmds|
        invariant MRunFrom(Runner(cfg), child.State(), cmds[i..], c, false, dct)
                  == MRunFrom(Runner(cfg), old(child.State()), cmds, c, false, map[])
      {
        var (k, cmd) := cmds[i];
        assert cmds[i..][1..] == cmds[i + 1..];
        ghost var prev := child.State();
        var res := RunCmd(Some(cmd));
        MRunStep(Runner(cfg), prev, cmds[i..], c, false, dct, res, child.State());
        if res.Fatal? {
          return Err(res.error);
        }
        if k != "" {
          var v := Validated(OutputText(res), k, cmd, c);
          if v.Err? {
            return Err(v.error);
          }
          dct := dct[k := v.value];
        }
        i := i + 1;
      }
      assert cmds[i..] == [];
      return Ok(dct);
    }

    /** `mrun(cmds, ...)` over a list of `(key, command)` items. */
    method MRun(cmds: seq<(string, string)>, autoClose: bool, expected: Setting<Option<Pat>>,
                unexpected: Setting<Option<Pat>>, filter: Setting<Option<Filter>>)
      returns (r: Result<map<string, string>, SessionError>)
      modifies this, child
      ensures !old(isConnected) ==> r == Err(NotConnected(NotConnectedMessage)) && child.State() == old(child.State())
      ensures old(isConnected) ==>
                (r, child.State()) == MRunOnce(Runner(cfg), Closer(cfg, inWith), old(child.State()), cmds, autoClose,
                                               Effective(cfg.checks, expected, unexpected, filter), false)
      ensures inWith == old(inWith)
      ensures isConnected == (old(isConnected) && (inWith || !autoClose
                              || MRunFrom(Runner(cfg), old(child.State()), cmds, Effective(cfg.checks, expected, unexpected, filter), false, map[]).0.Err?))
    {
      if !isConnected {
        return Err(NotConnected(NotConnectedMessage));
      }
      r := MRunLoop(cmds, Effective(cfg.checks, expected, unexpected, filter));
      if r.Ok? && autoClose {
        var cr := Close();
        if cr.Err? {
          return Err(cr.error);
        }
      }
    }
  }

  // ---------------------------------------------------------------- properties

  /** Waiting for the prompt alone can never log in: a one-step program does
      not advance, so without login steps construction always fails. */
  lemma {:induction false} PromptOnlyNeverConnects(cfg: Config, st: ChanState)
    requires cfg.loginSteps == [] && Truthy(cfg.prompt)
    ensures LoginOn(cfg, st).0.Err?
  {
    var steps := LoginProgram(cfg);
    assert steps == [Bare(cfg.prompt.value, NoAnswer)];
    OneStepNeverFinishesQuietly(Ctx(steps, cfg.expand, cfg.spawn), st, 0);
  }

  /** pexpect's own TIMEOUT is not the alarm's `TimeoutError`, the only timeout
      `run` and `mrun` catch: it escapes both before the close, no `<timeout>`
      sentinel is validated, and the child sees nothing after the expect call. */
  lemma {:induction false} OwnTimeoutEscapes(cfg: Config, st: ChanState, cmd: Option<string>,
                                             close: ChanState -> (Result<(), SessionError>, ChanState),
                                             autoClose: bool, c: Checks, cmds: seq<(string, string)>)
    requires Head(st.script).Expired?
    ensures CmdOn(cfg, st, cmd).0 == Fatal(Collect(ChannelTimeout))
    ensures CmdOn(cfg, st, cmd).1.log ==
              st.log + (if Truthy(cmd) then [SentLine(cmd.value)] else []) + [ExpectCall([RewritePattern(cfg.prompt)])]
    ensures RunOnce((s, x) => CmdOn(cfg, s, cmd), close, st, CmdText(cmd), CmdText(cmd), autoClose, c)
            == (Err(Collect(ChannelTimeout)), CmdOn(cfg, st, cmd).1)
    ensures cmds != [] ==>
              MRunOnce(Runner(cfg), close, st, cmds, autoClose, c, false)
              == (Err(Collect(ChannelTimeout)), CmdOn(cfg, st, Some(cmds[0].1)).1)
  {
    if cmds != [] {
      assert Runner(cfg)(st, cmds[0].1) == CmdOn(cfg, st, Some(cmds[0].1));
    }
  }

  /** Every `close()` outside a `with` block sends the logout command again:
      with a logout command and no logout steps, two closes send it twice and
      kill the child twice. */
  lemma {:induction false} CloseIsNotIdempotent(cfg: Config, st: ChanState)
    requires Truthy(cfg.logoutCmd) && cfg.logoutSteps == []
    ensures var (r1, st1) := CloseOn(cfg, st);
            var (r2, st2) := CloseOn(cfg, st1);
            r1.Ok? && r2.Ok? &&
            st2.log == st.log + [SentLine(cfg.logoutCmd.value), Killed(0), SentLine(cfg.logoutCmd.value), Killed(0)]
  {
  }

  /** A command is sent with `sendline` exactly when it is truthy, and the
      prompt is the one pattern expected. */
  lemma {:induction false} CmdSendsOnce(cfg: Config, st: ChanState, cmd: Option<string>)
    ensures var st2 := CmdOn(cfg, st, cmd).1;
            st2.log == st.log + (if Truthy(cmd) then [SentLine(cmd.value)] else []) + [ExpectCall([RewritePattern(cfg.prompt)])]
  {
  }

  /** When the prompt matches after a terminal transcript of the echoed
      command and one output line, the command's output is that line behind
      the newline that the echo strip leaves, because it runs before the "\r"
      of the terminal's "\r\n" is deleted. */
  lemma {:induction false} CmdOutputOfTranscript(cfg: Config, st: ChanState, cmd: string, line: string)
    requires Truthy(Some(cmd)) && '\r' !in cmd && '\r' !in line
    requires line != [] && line[0] != '\n' && !IsLineBreak(line[|line| - 1])
    requires Head(st.script) == Matched(0, cmd + "\r\n" + line + "\r\n")
    ensures CmdOn(cfg, st, Some(cmd)).0 == Output("\n" + line)
  {
    ExpectOutputKeepsLeadingNewline(cmd, line);
  }
}
