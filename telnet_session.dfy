// The `Telnet` collector (naghelp/collect.py, class `Telnet`): login by user
// and password prompts, decision on the prompt or an authentication error,
// then commands run at the prompt.  The connection is a channel oracle; the
// refusal of `telnetlib.Telnet(host, port)` is a parameter.
module TelnetSession {
  import opened Results
  import opened Text
  import opened Channel
  import opened ExpectSteps
  import opened Validate
  import opened CommandOutput
  import opened Batch

  /** A pattern argument: `None`, a string, one compiled pattern, or a list. */
  datatype PatternArg = NoPattern | Text(text: string) | Compiled(pattern: Pattern) | Many(patterns: seq<Pattern>)

  const DefaultLogin := "login\\s*:"
  const DefaultPasswd := "Password\\s*:"
  const DefaultPrompt := "[\\r\\n][^\\s]*\\s?[\\$#>:]+\\s"
  const DefaultAuthErr := "bad password|login incorrect|login failed|authentication error"

  /** `_normalize_pattern(pattern, default)`: always a list of patterns. */
  function NormalizePattern(arg: PatternArg, default: string): (r: seq<Pattern>)
    ensures arg.NoPattern? ==> r == [Regex(default, true)]
    ensures arg.Text? ==> r == [RewritePattern(Some(arg.text))]
    ensures arg.Compiled? ==> r == [arg.pattern]
    ensures arg.Many? ==> r == arg.patterns
    ensures !arg.Many? ==> |r| == 1
  {
    match arg
    case NoPattern => [Regex(default, true)]
    case Text(t) => [RewritePattern(Some(t))]
    case Compiled(p) => [p]
    case Many(ps) => ps
  }

  /** The constructor's arguments after normalisation; `refusal` is the
      error of opening the connection, if any. */
  datatype Config = Config(
    host: string,
    user: string,
    password: Option<string>,
    refusal: Option<string>,
    loginPattern: seq<Pattern>,
    passwdPattern: seq<Pattern>,
    promptPattern: seq<Pattern>,
    autherrPattern: seq<Pattern>,
    checks: Checks)

  /** The error that escapes a wait during login. */
  function Aborted(reply: TelnetReply): SessionError
    requires !reply.Read?
  {
    match reply
    case EofError => StreamClosed
    case Deadline => Collect(DeadlineExceeded)
    case SocketTimeout => Collect(ChannelTimeout)
  }

  /** The decision on the answer to the last wait: prompt or authentication error. */
  function Verdict(reply: TelnetReply, nbPrompt: nat): Result<(), SessionError>
  {
    if !reply.Read? then Err(Aborted(reply))
    else if reply.index < 0 then Err(ConnectionFailed("No regular prompt found."))
    else if reply.index >= nbPrompt then Err(ConnectionFailed("Authentication error"))
    else Ok(())
  }

  /** Sending the password when there is one, after waiting for its prompt. */
  function PasswordOn(cfg: Config, st: ChanState): (Result<(), SessionError>, ChanState)
  {
    if cfg.password.None? then (Ok(()), st)
    else
      var (st1, reply) := TelnetExpectOn(st, cfg.passwdPattern);
      if !reply.Read? then (Err(Aborted(reply)), st1)
      else (Ok(()), st1.(log := st1.log + [Sent(cfg.password.value + "\n")]))
  }

  /** The login part of `__init__`. */
  function LoginOn(cfg: Config, st: ChanState): (Result<(), SessionError>, ChanState)
  {
    if cfg.host == "" then (Err(ConnectionFailed("No host specified for Telnet")), st)
    else if cfg.user == "" then (Err(ConnectionFailed("No user specified for Telnet")), st)
    else if cfg.refusal.Some? then (Err(ConnectionFailed(cfg.refusal.value)), st)
    else
      var (st1, r1) := TelnetExpectOn(st, cfg.loginPattern);
      if !r1.Read? then (Err(Aborted(r1)), st1)
      else
        var st2 := st1.(log := st1.log + [Sent(cfg.user + "\n")]);
        var (p, st3) := PasswordOn(cfg, st2);
        if p.Err? then (p, st3)
        else
          var (st4, r4) := TelnetExpectOn(st3, cfg.promptPattern + cfg.autherrPattern);
          (Verdict(r4, |cfg.promptPattern|), st4)
  }

  /** `_run_cmd(cmd)`: write the command and a newline, read up to the
      prompt (or to the end of the stream), clean up.  The caller's alarm is
      a late command (`run`/`mrun` catch its `TimeoutError`); the socket's
      own `socket.timeout` is caught nowhere and escapes like `EOFError`. */
  function CmdOn(cfg: Config, st: ChanState, cmd: string): (CmdResult, ChanState)
  {
    var st1 := st.(log := st.log + [Sent(cmd + "\n")]);
    var (st2, reply) := TelnetExpectOn(st1, cfg.promptPattern);
    match reply
    case Read(_, buffer) => (Output(PromptOutput(buffer, cmd)), st2)
    case EofError => (Fatal(StreamClosed), st2)
    case Deadline => (CmdResult.Late, st2)
    case SocketTimeout => (Fatal(Collect(ChannelTimeout)), st2)
  }

  function Runner(cfg: Config): (ChanState, string) -> (CmdResult, ChanState)
  {
    (st, cmd) => CmdOn(cfg, st, cmd)
  }

  /** `close()`: closes the connection unless inside a `with` block. */
  function Closer(inWith: bool): ChanState -> (Result<(), SessionError>, ChanState)
  {
    (st: ChanState) => if inWith then (Ok(()), st) else (Ok(()), st.(log := st.log + [Closed]))
  }

  const NotConnectedMessage := "No telnet connection to run your command."

  class Telnet {
    const tn: Child
    const cfg: Config
    var inWith: bool
    var isConnected: bool

    constructor (tn: Child, host: string, user: string, password: Option<string>, refusal: Option<string>,
                 loginPattern: PatternArg, passwdPattern: PatternArg, promptPattern: PatternArg,
                 autherrPattern: PatternArg, checks: Checks)
      ensures this.tn == tn && !inWith && !isConnected
      ensures cfg == Config(host, user, password, refusal,
                            NormalizePattern(loginPattern, DefaultLogin), NormalizePattern(passwdPattern, DefaultPasswd),
                            NormalizePattern(promptPattern, DefaultPrompt), NormalizePattern(autherrPattern, DefaultAuthErr),
                            checks)
    {
      this.tn := tn;
      cfg := Config(host, user, password, refusal,
                    NormalizePattern(loginPattern, DefaultLogin), NormalizePattern(passwdPattern, DefaultPasswd),
                    NormalizePattern(promptPattern, DefaultPrompt), NormalizePattern(autherrPattern, DefaultAuthErr),
                    checks);
      inWith := false;
      isConnected := false;
    }

    /** The login of `__init__`; `is_connected` is set only when the prompt
        is found. */
    method Open() returns (r: Result<(), SessionError>)
      modifies this, tn
      ensures (r, tn.State()) == LoginOn(cfg, old(tn.State()))
      ensures isConnected == r.Ok? && inWith == old(inWith)
    {
      isConnected := false;
      if cfg.host == "" {
        return Err(ConnectionFailed("No host specified for Telnet"));
      }
      if cfg.user == "" {
        return Err(ConnectionFailed("No user specified for Telnet"));
      }
      if cfg.refusal.Some? {
        return Err(ConnectionFailed(cfg.refusal.value));
      }
      var r1 := tn.TelnetExpect(cfg.loginPattern);
      if !r1.Read? {
        return Err(Aborted(r1));
      }
      tn.Send(cfg.user + "\n");
      if cfg.password.Some? {
        var r2 := tn.TelnetExpect(cfg.passwdPattern);
        if !r2.Read? {
          return Err(Aborted(r2));
        }
        tn.Send(cfg.password.value + "\n");
      }
      var reply := tn.TelnetExpect(cfg.promptPattern + cfg.autherrPattern);
      if !reply.Read? {
        return Err(Aborted(reply));
      }
      if reply.index < 0 {
        return Err(ConnectionFailed("No regular prompt found."));
      }
      if reply.index >= |cfg.promptPattern| {
        return Err(ConnectionFailed("Authentication error"));
      }
      isConnected := true;
      return Ok(());
    }

    method Enter()
      modifies this
      ensures inWith && isConnected == old(isConnected)
    {
      inWith := true;
    }

    method Close()
      modifies this, tn
      ensures inWith == old(inWith)
      ensures tn.State() == Closer(inWith)(old(tn.State())).1
      ensures isConnected == (old(isConnected) && inWith)
    {
      if !inWith {
        tn.Close();
        isConnected := false;
      }
    }

    method Exit()
      modifies this, tn
      ensures !inWith && !isConnected
      ensures tn.State() == old(tn.State()).(log := old(tn.State()).log + [Closed])
    {
      inWith := false;
      Close();
    }

    /** `_run_cmd(cmd)`. */
    method RunCmd(cmd: string) returns (r: CmdResult)
      modifies tn
      ensures (r, tn.State()) == CmdOn(cfg, old(tn.State()), cmd)
    {
      tn.Send(cmd + "\n");
      var reply := tn.TelnetExpect(cfg.promptPattern);
      match reply
      case Read(_, buffer) =>
        r := Output(PromptOutput(buffer, cmd));
      case EofError =>
        r := Fatal(StreamClosed);
      case Deadline =>
        r := CmdResult.Late;
      case SocketTimeout =>
        r := Fatal(Collect(ChannelTimeout));
    }

    /** `run(cmd, ...)`. */
    method Run(cmd: string, autoClose: bool, expected: Setting<Option<Pat>>,
               unexpected: Setting<Option<Pat>>, filter: Setting<Option<Filter>>)
      returns (r: Result<string, SessionError>)
      modifies this, tn
      ensures !old(isConnected) ==> r == Err(NotConnected(NotConnectedMessage)) && tn.State() == old(tn.State())
      ensures old(isConnected) ==>
                (r, tn.State()) == RunOnce(Runner(cfg), Closer(inWith), old(tn.State()), cmd, cmd, autoClose,
                                           Effective(cfg.checks, expected, unexpected, filter))
      ensures inWith == old(inWith)
      ensures isConnected == (old(isConnected) && (inWith || !autoClose || CmdOn(cfg, old(tn.State()), cmd).0.Fatal?))
    {
      if !isConnected {
        return Err(NotConnected(NotConnectedMessage));
      }
      var res := RunCmd(cmd);
      if res.Fatal? {
        return Err(res.error);
      }
      if autoClose {
        Close();
      }
      r := Validated(OutputText(res), "", cmd, Effective(cfg.checks, expected, unexpected, filter));
    }

    /** The `for k, cmd in cmds` loop of `mrun`. */
    method MRunLoop(cmds: seq<(string, string)>, c: Checks) returns (r: Result<map<string, string>, SessionError>)
      modifies tn
      ensures (r, tn.State()) == MRunFrom(Runner(cfg), old(tn.State()), cmds, c, true, map[])
    {
      var dct: map<string, string> := map[];
      var i := 0;
      while i < |cmds|
        invariant i <= |cmds|
        invariant MRunFrom(Runner(cfg), tn.State(), cmds[i..], c, true, dct)
                  == MRunFrom(Runner(cfg), old(tn.State()), cmds, c, true, map[])
      {
        var (k, cmd) := cmds[i];
        assert cmds[i..][1..] == cmds[i + 1..];
        ghost var prev := tn.State();
        var res := RunCmd(cmd);
        MRunStep(Runner(cfg), prev, cmds[i..], c, true, dct, res, tn.State());
        if res.Fatal? {
          return Err(res.error);
        }
        if k != "" || res.Late? {
          var v := Validated(OutputText(res), k, cmd, c);
          if v.Err? {
            return Err(v.error);
          }
          dct := dct[k := v.value];
        }
        i := i + 1;
      }
      assert cmds[i..] == [];
      return Ok(dct);
    }

    /** `mrun(cmds, ...)`: a timeout is stored even under an empty key. */
    method MRun(cmds: seq<(string, string)>, autoClose: bool, expected: Setting<Option<Pat>>,
                unexpected: Setting<Option<Pat>>, filter: Setting<Option<Filter>>)
      returns (r: Result<map<string, string>, SessionError>)
      modifies this, tn
      ensures !old(isConnected) ==> r == Err(NotConnected(NotConnectedMessage)) && tn.State() == old(tn.State())
      ensures old(isConnected) ==>
                (r, tn.State()) == MRunOnce(Runner(cfg), Closer(inWith), old(tn.State()), cmds, autoClose,
                                            Effective(cfg.checks, expected, unexpected, filter), true)
      ensures inWith == old(inWith)
      ensures isConnected == (old(isConnected) && (inWith || !autoClose
                              || MRunFrom(Runner(cfg), old(tn.State()), cmds, Effective(cfg.checks, expected, unexpected, filter), true, map[]).0.Err?))
    {
      if !isConnected {
        return Err(NotConnected(NotConnectedMessage));
      }
      r := MRunLoop(cmds, Effective(cfg.checks, expected, unexpected, filter));
      if r.Ok? && autoClose {
        Close();
      }
    }
  }

  // ---------------------------------------------------------------- properties

  /** The login decision: with the defaults for the wait patterns, the
      connection succeeds exactly when the last wait matched one of the
      prompt patterns; a match of an authentication-error pattern and an end
      of stream without any match are told apart. */
  lemma {:induction false} VerdictCases(reply: TelnetReply, nbPrompt: nat)
    ensures Verdict(reply, nbPrompt).Ok? <==> reply.Read? && 0 <= reply.index < nbPrompt
    ensures reply.Read? && reply.index >= nbPrompt ==>
              Verdict(reply, nbPrompt) == Err(ConnectionFailed("Authentication error"))
    ensures reply.Read? && reply.index < 0 ==>
              Verdict(reply, nbPrompt) == Err(ConnectionFailed("No regular prompt found."))
  {
  }

  /** A successful login waited for the login prompt, sent the user, waited
      for the password prompt and sent the password (when there is one), and
      waited for the prompt or an authentication error, in that order. */
  lemma {:induction false} LoginConversation(cfg: Config, st: ChanState)
    requires LoginOn(cfg, st).0.Ok?
    ensures LoginOn(cfg, st).1.log ==
              st.log + [ExpectCall(cfg.loginPattern), Sent(cfg.user + "\n")]
              + (if cfg.password.Some? then [ExpectCall(cfg.passwdPattern), Sent(cfg.password.value + "\n")] else [])
              + [ExpectCall(cfg.promptPattern + cfg.autherrPattern)]
  {
  }

  /** A failed host or user check sends nothing. */
  lemma {:induction false} LoginChecksFirst(cfg: Config, st: ChanState)
    requires cfg.host == "" || cfg.user == ""
    ensures LoginOn(cfg, st) == (Err(ConnectionFailed(if cfg.host == "" then "No host specified for Telnet"
                                                      else "No user specified for Telnet")), st)
  {
  }

  /** The socket's own `socket.timeout` is not the alarm's `TimeoutError`, the
      only timeout `run` and `mrun` catch: it escapes both before the close,
      no `<timeout>` sentinel is validated, and nothing follows the wait. */
  lemma {:induction false} SocketTimeoutEscapes(cfg: Config, st: ChanState, cmd: string,
                                                close: ChanState -> (Result<(), SessionError>, ChanState),
                                                autoClose: bool, c: Checks, cmds: seq<(string, string)>)
    requires Head(st.script).Expired?
    ensures CmdOn(cfg, st, cmd).0 == Fatal(Collect(ChannelTimeout))
    ensures CmdOn(cfg, st, cmd).1.log == st.log + [Sent(cmd + "\n"), ExpectCall(cfg.promptPattern)]
    ensures RunOnce(Runner(cfg), close, st, cmd, cmd, autoClose, c) == (Err(Collect(ChannelTimeout)), CmdOn(cfg, st, cmd).1)
    ensures cmds != [] ==>
              MRunOnce(Runner(cfg), close, st, cmds, autoClose, c, true)
              == (Err(Collect(ChannelTimeout)), CmdOn(cfg, st, cmds[0].1).1)
  {
  }

  /** Telnet stores a timed-out command under any key, the empty one
      included: a batch with defaults that hits a timeout under the empty
      key fails on the sentinel. */
  lemma {:induction false} EmptyKeyTimeoutRejected(cfg: Config, st: ChanState, cmds: seq<(string, string)>)
    requires cmds != [] && cmds[0].0 == ""
    requires Head(st.script).Stalled?
    ensures MRunFrom(Runner(cfg), st, cmds, DefaultChecks(), true, map[]).0
            == Err(Rejected(Unexpected("", cmds[0].1, FoundPattern("<timeout>"), "<timeout>")))
  {
    MRunTimeoutRejected(Runner(cfg), st, cmds, true, map[]);
  }

  /** A command output read up to the prompt is the text between the echoed
      command line and the prompt line. */
  lemma {:induction false} CmdOutputOfTranscript(cfg: Config, st: ChanState, pre: string, cmd: string, body: string, prompt: string)
    requires '\r' !in pre + cmd + body + prompt
    requires Find(pre + cmd + "\n" + body + "\n" + prompt, cmd) == Some(|pre|)
    requires body == [] || body[0] != '\n'
    requires prompt != [] && forall k :: 0 <= k < |prompt| ==> !IsLineBreak(prompt[k])
    requires Head(st.script) == Matched(0, pre + cmd + "\n" + body + "\n" + prompt) && |cfg.promptPattern| > 0
    ensures CmdOn(cfg, st, cmd).0 == Output(body)
  {
    PromptOutputOfTranscript(pre, cmd, body, prompt);
  }
}
